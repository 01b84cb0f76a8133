/** Option and Result: the value-or-nothing and value-or-error shapes used for the
    source's `None` returns and raised exceptions; and the split of a sequence at its
    last element, which the folds over lists use. */
module Wrappers {

  datatype Option<+T> = None | Some(value: T)

  /** `Failure(error)` stands for an exception carrying the text `str(e)`. */
  datatype Result<+R> = Success(value: R) | Failure(error: string)

  lemma LastSplit<T>(s: seq<T>)
    requires s != []
    ensures s == s[..|s| - 1] + [s[|s| - 1]]
  {
  }
}
