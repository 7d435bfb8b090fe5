// The records of the api generation (api/model/model.go) and the retry
// classifier of a failed download.

module UrlModel {
  import opened Common

  /** sql.NullString: a string column that may be NULL. */
  datatype NullString = NullString(str: string, valid: bool)

  /** sql.NullInt64 */
  datatype NullInt = NullInt(n: int, valid: bool)

  const Null: NullString := NullString("", false)
  const NullInt0: NullInt := NullInt(0, false)

  /** model.URL; timestamps are abstract instants. */
  datatype Url = Url(
    id: int,
    url: string,
    createdAt: int,
    updatedAt: int,
    status: string,
    error: NullString,
    file: NullString,
    retries: NullInt,
    logs: seq<string>)

  /** A model.URL with every field at its zero value but the given ones. */
  function NewUrl(id: int, url: string, status: string): Url
  {
    Url(id, url, 0, 0, status, Null, Null, NullInt0, [])
  }

  /** model.YoutubeVideo */
  datatype Video = Video(id: int, youtubeId: string, createdAt: int)

  const TooManyRequests := "ERROR: Unable to download webpage: HTTP Error 429: Too Many Requests"
  const NotInCountry := "ERROR: The uploader has not made this video available in your country\\."
  const CopyrightBlocked := "ERROR: .*: YouTube said: This video contains content from .*, who has blocked it on copyright grounds\\."

  /** shouldRetryRegexps, in order. */
  const ShouldRetryPatterns: seq<string> := [TooManyRequests, NotInCountry, CopyrightBlocked]

  /** URL.ShouldRetry: only a youtube-dl run that ended with "exit status 1"
    * is retried, and only when one of the patterns matches its log lines
    * joined by newlines. */
  function ShouldRetry(u: Url, matches: (string, string) -> bool): (r: bool)
    ensures r <==> (u.error.str == "exit status 1"
      && exists i :: 0 <= i < |ShouldRetryPatterns| && matches(ShouldRetryPatterns[i], Join(u.logs, "\n")))
  {
    AnyMatchExists(ShouldRetryPatterns, Join(u.logs, "\n"), matches);
    if u.error.str != "exit status 1" then false
    else AnyMatch(ShouldRetryPatterns, Join(u.logs, "\n"), matches)
  }

  /** A NULL error (the zero NullString) is never retried. */
  lemma NullErrorNotRetried(u: Url, matches: (string, string) -> bool)
    requires u.error == Null
    ensures !ShouldRetry(u, matches)
  {
  }

  /** Each of the three failures is retryable on its own. */
  lemma EachPatternRetryable(u: Url, matches: (string, string) -> bool, k: nat)
    requires u.error.str == "exit status 1" && k < 3
    requires matches(ShouldRetryPatterns[k], Join(u.logs, "\n"))
    ensures ShouldRetry(u, matches)
  {
  }
}
