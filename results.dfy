/** Optional values and results with the error conditions the retriever can raise. */
module Results {

  datatype Option<+T> = None | Some(value: T)

  /** The Python exceptions that end a retrieval. Each carries the path
      involved where the original raises with one. */
  datatype Error =
    | FileNotFound(path: seq<string>)   // FileNotFoundError: a missing file, or mkdir below a missing directory
    | MissingExperimentName             // the bare Exception raised by extract_run_name
    | IndexOutOfRange                   // IndexError from indexing a too-short list
    | IsADirectory(path: seq<string>)   // IsADirectoryError: shutil.copy given a directory as source

  datatype Result<+T> = Success(value: T) | Failure(error: Error)
}
