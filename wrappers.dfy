/** Option and Result, and the errors golta reports. */
module Wrappers {

  datatype Option<T> = None | Some(value: T)

  /** The kinds of std::io::Error the modelled filesystem calls raise. */
  datatype IoKind = NotFound | AlreadyExists | IsADirectory | NotADirectory | InvalidInput | ReadFailed

  /** An error as golta reports it: its own message, an I/O error on a path,
      a JSON syntax error, or an error handed over by a collaborator
      (network fetch, downloader, child process) that golta passes on unchanged. */
  datatype Error =
    | Message(text: string)
    | Io(kind: IoKind, path: seq<string>)
    | JsonSyntax
    | Foreign(text: string)

  datatype Result<T> = Ok(value: T) | Err(error: Error)
}
