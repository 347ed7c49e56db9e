/** The guards of the image store (lib/blob.ts): an upload needs the store
    token, an allowed image type and at most 5 MiB before `put` is called;
    a deletion needs the token before `del` is called. `put` and `del`
    themselves are parameters. */
module Blob {
  import opened Wrappers

  datatype ImageFile = ImageFile(name: string, mimeType: string, size: int)

  datatype BlobError =
    | TokenNotConfigured  // "BLOB_READ_WRITE_TOKEN is not configured"
    | InvalidFileType     // "Invalid file type. Only JPEG, PNG, and WebP are allowed."
    | FileTooLarge        // "File size exceeds 5MB limit"
    | UploadFailed        // "Failed to upload image"
    | DeleteFailed        // "Failed to delete image"

  const ValidTypes: seq<string> := ["image/jpeg", "image/png", "image/webp"]
  const MaxSize: int := 5 * 1024 * 1024

  /** A `put(file.name, file, { access: 'public', token })` call. */
  datatype PutCall = PutCall(pathname: string, file: ImageFile, access: string, token: string)

  /** A `del(url, { token })` call. */
  datatype DelCall = DelCall(url: string, token: string)

  /** A result with the calls made to the store on the way. */
  datatype Upload = Upload(result: Result<string, BlobError>, calls: seq<PutCall>)
  datatype Deletion = Deletion(result: Result<(), BlobError>, calls: seq<DelCall>)

  predicate TokenConfigured(token: Option<string>) {
    token.Some? && token.value != ""
  }

  /** `uploadImage`: the first failing check decides the error, in the order
      token, type, size; `put` is reached only when all three pass. */
  function UploadImage(file: ImageFile, token: Option<string>, put: PutCall -> Result<string, ()>): (u: Upload)
    ensures !TokenConfigured(token) ==> u == Upload(Failure(TokenNotConfigured), [])
    ensures TokenConfigured(token) && file.mimeType !in ["image/jpeg", "image/png", "image/webp"] ==>
      u == Upload(Failure(InvalidFileType), [])
    ensures TokenConfigured(token) && file.mimeType in ["image/jpeg", "image/png", "image/webp"] && file.size > 5242880 ==>
      u == Upload(Failure(FileTooLarge), [])
    ensures u.calls != [] <==>
      TokenConfigured(token) && file.mimeType in ["image/jpeg", "image/png", "image/webp"] && file.size <= 5242880
    ensures u.calls != [] ==>
      && u.calls == [PutCall(file.name, file, "public", token.value)]
      && u.result == (if put(u.calls[0]).Success? then Success(put(u.calls[0]).value) else Failure(UploadFailed))
  {
    if !TokenConfigured(token) then Upload(Failure(TokenNotConfigured), [])
    else if file.mimeType !in ValidTypes then Upload(Failure(InvalidFileType), [])
    else if file.size > MaxSize then Upload(Failure(FileTooLarge), [])
    else
      var call := PutCall(file.name, file, "public", token.value);
      match put(call)
      case Success(url) => Upload(Success(url), [call])
      case Failure(_) => Upload(Failure(UploadFailed), [call])
  }

  /** The size limit is inclusive: exactly 5 MiB is uploaded, one byte more
      is refused. */
  lemma SizeLimitIsInclusive(name: string, mimeType: string, token: string, put: PutCall -> Result<string, ()>)
    requires mimeType in ValidTypes && token != ""
    ensures UploadImage(ImageFile(name, mimeType, 5 * 1024 * 1024), Some(token), put).calls != []
    ensures UploadImage(ImageFile(name, mimeType, 5 * 1024 * 1024 + 1), Some(token), put).result == Failure(FileTooLarge)
  {
  }

  /** `deleteImage`: without the token it fails and `del` is never called. */
  function DeleteImage(url: string, token: Option<string>, del: DelCall -> Result<(), ()>): (d: Deletion)
    ensures !TokenConfigured(token) <==> d == Deletion(Failure(TokenNotConfigured), [])
    ensures TokenConfigured(token) ==>
      && d.calls == [DelCall(url, token.value)]
      && (d.result.Success? <==> del(DelCall(url, token.value)).Success?)
      && (d.result.Failure? ==> d.result.error == DeleteFailed)
  {
    if !TokenConfigured(token) then Deletion(Failure(TokenNotConfigured), [])
    else
      var call := DelCall(url, token.value);
      match del(call)
      case Success(_) => Deletion(Success(()), [call])
      case Failure(_) => Deletion(Failure(DeleteFailed), [call])
  }
}
