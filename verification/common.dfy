/** Result types shared by the model: the exceptions the Python source raises
    become values of `Error`, returned through `Result` or `Outcome`; and the
    first-occurrence search behind `list.index`, `list.remove` and `str.split`. */
module Common {

  datatype Option<+T> = None | Some(value: T)

  /** The Python exception classes the core can raise. */
  datatype Error =
    | TypeError          // an operation applied to None, or a call with the wrong arity
    | AttributeError     // an attribute read on None
    | ValueError         // list.remove of an absent element, duplicate guard
    | ArgumentError(message: string)   // recording/exceptions.py: a listener lacks a handler
    | RuntimeError(message: string)    // an inconsistent linked-list operation

  datatype Result<+T> = Success(value: T) | Failure(error: Error)

  datatype Outcome = Pass | Fail(error: Error)

  /** Index of the first occurrence of `x` in `s`. */
  function FirstIndex<U(==)>(s: seq<U>, x: U): (i: nat)
    requires x in s
    ensures i < |s| && s[i] == x && x !in s[..i]
  {
    if s[0] == x then 0
    else
      var j := FirstIndex(s[1..], x);
      assert s[..j + 1] == [s[0]] + s[1..][..j];
      j + 1
  }
}
