/** The errors that the keeper, the codec and the key-value store report. */
module Errors {
  import opened Bytes

  /** The four operations of the key-value substrate that can fail on a key. */
  datatype StoreOp = HasOp | GetOp | SetOp | DeleteOp

  datatype Error =
    /** An encoder was given a nil pointer; `what` names the entity. */
    | NilInput(what: string)
    /** A decoder was given an empty byte slice (also what an absent key yields). */
    | EmptyData
    /** Bytes that are not a table of the kind the decoder expects. */
    | Undecodable
    /** The key-value store failed `op` on `key`. */
    | StoreFailure(op: StoreOp, key: Bytes)
    /** The key-value store could not open an iterator. */
    | IteratorFailure

  function OpName(op: StoreOp): string
  {
    match op
    case HasOp => "has"
    case GetOp => "get"
    case SetOp => "set"
    case DeleteOp => "delete"
  }

  /** The text `err.Error()` returns. */
  function Message(e: Error): (m: string)
    ensures |m| > 0
    ensures m == "data cannot be empty" <==> e == EmptyData
  {
    match e
    case NilInput(what) =>
      var m := what + " cannot be nil";
      assert m[|m| - 1] == 'l' != "data cannot be empty"[19];
      m
    case EmptyData => "data cannot be empty"
    case Undecodable => "data is not a table of the expected kind"
    case StoreFailure(op, _) =>
      var m := "store: " + OpName(op) + " failed";
      assert m[0] == 's';
      m
    case IteratorFailure => "store: iterator failed"
  }
}
