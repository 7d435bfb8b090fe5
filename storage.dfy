// The object-store request built for a downloaded file (Save in
// api/storage/storage.go, and uploadToS3 in the legacy worker.go): the object
// key and a content type chosen by the file's suffix. The request itself is
// sent by the S3 client, which is not part of this model.

module Storage {
  import opened Common

  /** The fields of the PutObject/Upload input this code sets. */
  datatype PutInput = PutInput(bucket: string, key: string, contentType: Option<string>)

  /** The suffix switch: .mp3, .mp4 and .webm in that order; any other name
    * leaves the content type unset. */
  function ContentType(name: string): Option<string>
  {
    if HasSuffix(name, ".mp3") then Some("audio/mpeg")
    else if HasSuffix(name, ".mp4") then Some("video/mp4")
    else if HasSuffix(name, ".webm") then Some("video/webm")
    else None
  }

  /** Save: the key is the path unchanged. */
  function SaveInput(bucket: string, path: string): (input: PutInput)
    ensures input.key == path && input.bucket == bucket
  {
    PutInput(bucket, path, ContentType(path))
  }

  /** uploadToS3: the key is the file's base name, the type is chosen by the
    * full name. filepath.Base is a parameter. */
  function UploadInput(bucket: string, fname: string, base: string -> string): (input: PutInput)
    ensures input.key == base(fname) && input.bucket == bucket
  {
    PutInput(bucket, base(fname), ContentType(fname))
  }

  /** The three suffixes exclude one another, so the order of the cases does
    * not matter: each type is chosen exactly for its own suffix. */
  lemma ContentTypeBySuffix(name: string)
    ensures ContentType(name) == Some("audio/mpeg") <==> HasSuffix(name, ".mp3")
    ensures ContentType(name) == Some("video/mp4") <==> HasSuffix(name, ".mp4")
    ensures ContentType(name) == Some("video/webm") <==> HasSuffix(name, ".webm")
    ensures ContentType(name).None? <==> !HasSuffix(name, ".mp3") && !HasSuffix(name, ".mp4") && !HasSuffix(name, ".webm")
  {
    if HasSuffix(name, ".mp3") {
      assert name[|name| - 1] == '3';
    }
    if HasSuffix(name, ".mp4") {
      assert name[|name| - 1] == '4';
    }
    if HasSuffix(name, ".webm") {
      assert name[|name| - 1] == 'm';
    }
  }
}
