/** Values shared by every component: optional values, results, the domain's
    error kinds, and sums over finite tables. */
module Basics {

  type Id = string

  datatype Option<+T> = None | Some(value: T)

  datatype Result<+T> = Ok(value: T) | Err(error: Error) {
    predicate IsFailure() { Err? }

    function PropagateFailure<U>(): Result<U>
      requires Err?
    {
      Err(error)
    }

    function Extract(): T
      requires Ok?
    {
      value
    }
  }

  /** The sentinel errors of internal/domain/errors.go, plus `Internal` for
      every failure that the storage layer does not classify. */
  datatype Error =
    | Invalid
    | NotFound
    | Conflict
    | Unauthorized
    | Forbidden
    | Expired
    | Capacity
    | IllegalState
    | StaleVersion
    | AlreadyExists
    | Internal

  // ------------------------------------------------------ sums over tables

  ghost function Pick<V(!new)>(m: map<Id, V>): (k: Id)
    requires m != map[]
    ensures k in m
  {
    var k :| k in m; k
  }

  /** The sum of `weight` over the rows of a table. */
  ghost function MapSum<V(!new)>(m: map<Id, V>, weight: V -> int): int
    decreases |m|
  {
    if m == map[] then 0 else var k := Pick(m); weight(m[k]) + MapSum(m - {k}, weight)
  }

  /** Any row may be taken out first. */
  lemma {:induction false} MapSumSplit<V(!new)>(m: map<Id, V>, weight: V -> int, k: Id)
    requires k in m
    ensures MapSum(m, weight) == weight(m[k]) + MapSum(m - {k}, weight)
    decreases |m|
  {
    var j := Pick(m);
    if j != k {
      MapSumSplit(m - {j}, weight, k);
      MapSumSplit(m - {k}, weight, j);
      assert m - {j} - {k} == m - {k} - {j};
    }
  }

  /** Writing one row changes the sum by the difference of that row's weight. */
  lemma MapSumPut<V(!new)>(m: map<Id, V>, weight: V -> int, k: Id, v: V)
    ensures MapSum(m[k := v], weight)
         == MapSum(m, weight) - (if k in m then weight(m[k]) else 0) + weight(v)
  {
    MapSumSplit(m[k := v], weight, k);
    assert m[k := v] - {k} == m - {k};
    if k in m {
      MapSumSplit(m, weight, k);
    } else {
      assert m - {k} == m;
    }
  }

  /** A sum of zero weights is zero. */
  lemma {:induction false} MapSumZero<V(!new)>(m: map<Id, V>, weight: V -> int)
    requires forall k :: k in m ==> weight(m[k]) == 0
    ensures MapSum(m, weight) == 0
    decreases |m|
  {
    if m != map[] {
      MapSumZero(m - {Pick(m)}, weight);
    }
  }

  /** With non-negative weights no row outweighs the sum. */
  lemma {:induction false} MapSumBounds<V(!new)>(m: map<Id, V>, weight: V -> int)
    requires forall k :: k in m ==> weight(m[k]) >= 0
    ensures MapSum(m, weight) >= 0
    ensures forall k :: k in m ==> weight(m[k]) <= MapSum(m, weight)
    decreases |m|
  {
    if m != map[] {
      MapSumBounds(m - {Pick(m)}, weight);
      forall k | k in m ensures weight(m[k]) <= MapSum(m, weight) {
        if k != Pick(m) {
          assert k in m - {Pick(m)};
        }
      }
    }
  }
}
