/** Small types shared by every module of the model. */
module Base {

  datatype Option<+T> = None | Some(value: T) {
    function GetOr(default: T): T {
      match this
      case Some(v) => v
      case None => default
    }
  }

  datatype Result<+T, +E> = Success(value: T) | Failure(error: E)

  /** A decoded JSON payload (plan, result, checkpoint, tool value). Its contents never matter. */
  datatype Value = Null | Json(id: nat)

  function Max(a: int, b: int): int {
    if a < b then b else a
  }

  function Last<T>(s: seq<T>): T
    requires s != []
  {
    s[|s| - 1]
  }

  ghost predicate All<T(!new)>(p: T -> bool, s: seq<T>) {
    forall k :: 0 <= k < |s| ==> p(s[k])
  }

  lemma AllOfFour<T(!new)>(p: T -> bool, a: T, b: T, c: T, d: T)
    requires p(a) && p(b) && p(c) && p(d)
    ensures All(p, [a, b, c, d]) && All(p, [a, c, d])
  {
  }
}
