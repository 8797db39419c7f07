/** The storage engine's Status value: a code and a message.
    The message joining rule of Status's two-part constructor (util/status.cc)
    is written out by Joined; that file is not part of this model. */
module RocksStatus {

  datatype Code =
    | Ok
    | NotFound
    | Corruption
    | NotSupported
    | InvalidArgument
    | IOError
    | MergeInProgress
    | Incomplete
    | ShutdownInProgress
    | TimedOut
    | Aborted
    | Busy
    | Expired
    | TryAgain

  datatype Status = Status(code: Code, msg: string) {
    predicate IsOk() {
      code == Ok
    }
  }

  const OK: Status := Status(Ok, "")

  /** Status(code, msg, msg2) keeps msg, then ": " and msg2 when msg2 is not empty. */
  function Joined(msg: string, msg2: string): (r: string)
    ensures msg <= r
    ensures msg2 == [] ==> r == msg
  {
    if msg2 == [] then msg else msg + ": " + msg2
  }
}
