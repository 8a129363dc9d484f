/** Option and Result: the two failure-carrying values the model uses. */
module Wrappers {

  datatype Option<+T> = None | Some(value: T)

  datatype Result<+T, +E> = Success(value: T) | Failure(error: E)

  /** Sequencing of two fallible list computations: the first failure wins, otherwise the lists are appended. */
  function Then<T, E>(a: Result<seq<T>, E>, b: Result<seq<T>, E>): Result<seq<T>, E>
  {
    match a
    case Failure(e) => Failure(e)
    case Success(xs) =>
      match b
      case Failure(e) => Failure(e)
      case Success(ys) => Success(xs + ys)
  }

  lemma ThenAssoc<T, E>(a: Result<seq<T>, E>, b: Result<seq<T>, E>, c: Result<seq<T>, E>)
    ensures Then(Then(a, b), c) == Then(a, Then(b, c))
  {
    if a.Success? && b.Success? && c.Success? {
      assert (a.value + b.value) + c.value == a.value + (b.value + c.value);
    }
  }

  lemma ThenUnit<T, E>(a: Result<seq<T>, E>)
    ensures Then(Success([]), a) == a && Then(a, Success([])) == a
  {
    if a.Success? {
      assert [] + a.value == a.value && a.value + [] == a.value;
    }
  }

  lemma ThenParts<T, E>(a: Result<seq<T>, E>, b: Result<seq<T>, E>)
    requires Then(a, b).Success?
    ensures a.Success? && b.Success? && Then(a, b).value == a.value + b.value
  {
  }
}
