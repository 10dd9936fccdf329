/** The records shared by the pipeline and the application shell. */
module Types {
  import opened Wrappers

  /** The run status shown by the application. `ProcessingStep2` is declared
      but never entered. */
  datatype Status = Idle | ReadingFiles | ProcessingStep1 | ProcessingStep2 | Complete | Error

  datatype ProcessingState = ProcessingState(status: Status, message: Option<string>)

  datatype GenerationResult = GenerationResult(step1Output: string, step2Output: string)

  /** A file the user picked: its declared media type, display name and size
      in bytes. Its bytes are only ever seen through the file reader. */
  datatype MediaFile = MediaFile(name: string, mimeType: string, size: nat)

  datatype UploadedFiles = UploadedFiles(pdf: Option<MediaFile>, video: Option<MediaFile>)
}
