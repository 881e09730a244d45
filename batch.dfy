/**
 * The shape shared by the pipeline's batch functions: walk the inputs in
 * order, append one result per input, and let an exception that escapes an
 * item end the whole batch.
 */
module Batch {
  import opened PyValue

  /** The loop from index `i` on, with `acc` collected so far; `f(i, x)` handles input `x` at index `i`. */
  function CollectFrom<A, T>(items: seq<A>, f: (nat, A) -> Outcome<T>, i: nat, acc: seq<T>): Outcome<seq<T>>
    requires i <= |items|
    decreases |items| - i
  {
    if i == |items| then Ok(acc)
    else
      match f(i, items[i])
      case Raised(e) => Raised(e)
      case Ok(x) => CollectFrom(items, f, i + 1, acc + [x])
  }

  /** The whole loop. */
  function Collect<A, T>(items: seq<A>, f: (nat, A) -> Outcome<T>): Outcome<seq<T>> {
    CollectFrom(items, f, 0, [])
  }

  /** When no item raises, the loop keeps what it had and adds the items' results in order. */
  lemma {:induction false} CollectFromAll<A, T>(items: seq<A>, f: (nat, A) -> Outcome<T>, i: nat, acc: seq<T>)
    requires i <= |items|
    requires forall k :: i <= k < |items| ==> f(k, items[k]).Ok?
    ensures CollectFrom(items, f, i, acc).Ok?
    ensures |CollectFrom(items, f, i, acc).value| == |acc| + |items| - i
    ensures CollectFrom(items, f, i, acc).value[..|acc|] == acc
    ensures forall k :: i <= k < |items| ==> CollectFrom(items, f, i, acc).value[|acc| + k - i] == f(k, items[k]).value
    decreases |items| - i
  {
    if i == |items| {
      assert acc[..|acc|] == acc;
    } else {
      var x := f(i, items[i]).value;
      CollectFromAll(items, f, i + 1, acc + [x]);
      var r := CollectFrom(items, f, i + 1, acc + [x]).value;
      assert r[..|acc| + 1] == acc + [x];
      assert r[..|acc|] == (acc + [x])[..|acc|] == acc;
      forall k | i <= k < |items|
        ensures r[|acc| + k - i] == f(k, items[k]).value
      {
        if k == i {
          assert r[|acc|] == (acc + [x])[|acc|];
        } else {
          assert r[|acc + [x]| + k - (i + 1)] == f(k, items[k]).value;
        }
      }
    }
  }

  /** When no item raises, there is one result per item, in input order. */
  lemma CollectAll<A, T>(items: seq<A>, f: (nat, A) -> Outcome<T>)
    requires forall k :: 0 <= k < |items| ==> f(k, items[k]).Ok?
    ensures Collect(items, f).Ok? && |Collect(items, f).value| == |items|
    ensures forall k :: 0 <= k < |items| ==> Collect(items, f).value[k] == f(k, items[k]).value
  {
    CollectFromAll(items, f, 0, []);
  }

  /** The first item that raises ends the loop with its exception. */
  lemma {:induction false} CollectFromFirstRaise<A, T>(items: seq<A>, f: (nat, A) -> Outcome<T>, i: nat,
                                                      acc: seq<T>, j: nat)
    requires i <= j < |items|
    requires forall k :: i <= k < j ==> f(k, items[k]).Ok?
    requires f(j, items[j]).Raised?
    ensures CollectFrom(items, f, i, acc) == Raised(f(j, items[j]).exc)
    decreases j - i
  {
    if i < j {
      CollectFromFirstRaise(items, f, i + 1, acc + [f(i, items[i]).value], j);
    }
  }
}
