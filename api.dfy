/**
 * The service boundary the components call: file uploads. The transport is
 * not modelled; an upload is an outcome handed in by the caller.
 */
module Api {
  /** A browser `File`: its name and its MIME type. */
  datatype FileHandle = FileHandle(name: string, mime: string)

  /** The `type` argument of `uploadFile`. */
  datatype UploadKind = ImageUpload | VideoUpload | DocumentUpload

  /** What `await uploadFile(...)` produced: a URL, or a thrown error. */
  datatype UploadOutcome = Uploaded(url: string) | UploadFailed
}
