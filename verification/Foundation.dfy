/** Failure-compatible result types shared by every component. */
module Foundation {

  datatype Option<+T> = None | Some(value: T) {
    predicate IsFailure() { None? }

    function PropagateFailure<U>(): Option<U>
      requires None?
    { None }

    function Extract(): T
      requires Some?
    { value }

    function GetOr(default: T): T { if Some? then value else default }
  }

  datatype Result<+T, +E> = Success(value: T) | Failure(error: E) {
    predicate IsFailure() { Failure? }

    function PropagateFailure<U>(): Result<U, E>
      requires Failure?
    { Failure(error) }

    function Extract(): T
      requires Success?
    { value }
  }

  const U64_MAX: nat := 0xFFFF_FFFF_FFFF_FFFF

  function Min(a: int, b: int): int { if a <= b then a else b }

  function Max(a: int, b: int): int { if a <= b then b else a }

  lemma {:induction false} SubsetSize<T>(a: set<T>, b: set<T>)
    requires a <= b
    ensures |a| <= |b|
    decreases |a|
  {
    if a != {} {
      var x :| x in a;
      SubsetSize(a - {x}, b - {x});
    }
  }

  lemma DivMod(a: nat, n: nat, q: nat, r: nat)
    requires n >= 1 && r < n && a == n * q + r
    ensures a / n == q && a % n == r
  {
    var (p, s) := (a / n, a % n);
    assert a == n * p + s;
    MultiplesInOrder(n, p + 1, q);
    MultiplesInOrder(n, q + 1, p);
  }

  lemma MultiplesInOrder(n: nat, a: nat, b: nat)
    ensures a <= b ==> n * a <= n * b
  {
  }
}
