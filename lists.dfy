/**
 * The list updaters the editing components build from spread, `filter` and
 * `map`: remove every entry with a given id, and rewrite the entries with a
 * given id. Each entity type supplies its `id` accessor.
 */
module Lists {

  /** `xs.filter((x) => x.id !== id)`. */
  function RemoveById<T(==,!new), K(==)>(xs: seq<T>, idOf: T -> K, id: K): (r: seq<T>)
    ensures |r| <= |xs|
  {
    if xs == [] then []
    else (if idOf(xs[0]) == id then [] else [xs[0]]) + RemoveById(xs[1..], idOf, id)
  }

  /** No entry with the removed id is left. */
  lemma {:induction false} RemoveByIdDrops<T(!new), K>(xs: seq<T>, idOf: T -> K, id: K)
    ensures forall k :: 0 <= k < |RemoveById(xs, idOf, id)| ==> idOf(RemoveById(xs, idOf, id)[k]) != id
  {
    if xs != [] {
      RemoveByIdDrops(xs[1..], idOf, id);
      var rest := RemoveById(xs[1..], idOf, id);
      var r := RemoveById(xs, idOf, id);
      forall k | 0 <= k < |r| ensures idOf(r[k]) != id {
        if k >= |r| - |rest| {
          assert r[k] == rest[k - (|r| - |rest|)];
        }
      }
    }
  }

  /** An entry survives the removal exactly when it is in the list and carries another id. */
  lemma {:induction false} RemoveByIdMembers<T(!new), K>(xs: seq<T>, idOf: T -> K, id: K, x: T)
    ensures x in RemoveById(xs, idOf, id) <==> x in xs && idOf(x) != id
  {
    if xs != [] {
      RemoveByIdMembers(xs[1..], idOf, id, x);
      assert xs == [xs[0]] + xs[1..];
    }
  }

  /** Removal is applied entry by entry, so the survivors keep their order. */
  lemma {:induction false} RemoveByIdConcat<T(!new), K>(a: seq<T>, b: seq<T>, idOf: T -> K, id: K)
    ensures RemoveById(a + b, idOf, id) == RemoveById(a, idOf, id) + RemoveById(b, idOf, id)
  {
    if a == [] {
      assert a + b == b;
    } else {
      assert (a + b)[1..] == a[1..] + b;
      RemoveByIdConcat(a[1..], b, idOf, id);
    }
  }

  /** Removing an id that no entry carries changes nothing. */
  lemma {:induction false} RemoveByIdAbsent<T(!new), K>(xs: seq<T>, idOf: T -> K, id: K)
    requires forall k :: 0 <= k < |xs| ==> idOf(xs[k]) != id
    ensures RemoveById(xs, idOf, id) == xs
  {
    if xs != [] {
      RemoveByIdAbsent(xs[1..], idOf, id);
    }
  }

  /** Appending an entry and then removing its id restores a list that did not carry that id. */
  lemma AppendThenRemove<T(!new), K>(xs: seq<T>, x: T, idOf: T -> K)
    requires forall k :: 0 <= k < |xs| ==> idOf(xs[k]) != idOf(x)
    ensures RemoveById(xs + [x], idOf, idOf(x)) == xs
  {
    RemoveByIdConcat(xs, [x], idOf, idOf(x));
    RemoveByIdAbsent(xs, idOf, idOf(x));
    assert RemoveById([x], idOf, idOf(x)) == [];
    assert xs + [] == xs;
  }

  /**
   * Removing an entry whose id is unique and putting it back at the end gives
   * a reordering of the same entries.
   */
  lemma RemoveThenAppend<T(!new), K>(xs: seq<T>, i: nat, idOf: T -> K)
    requires i < |xs|
    requires forall k :: 0 <= k < |xs| && k != i ==> idOf(xs[k]) != idOf(xs[i])
    ensures multiset(RemoveById(xs, idOf, idOf(xs[i])) + [xs[i]]) == multiset(xs)
  {
    RemoveAt(xs, i, idOf);
    SplitAround(xs, i);
    MoveToEnd(xs[..i], xs[i], xs[i + 1..]);
  }

  /** A list is the entries before `i`, entry `i`, and the entries after it. */
  lemma SplitAround<T>(xs: seq<T>, i: nat)
    requires i < |xs|
    ensures xs == xs[..i] + [xs[i]] + xs[i + 1..]
  {
    assert xs[..i + 1] == xs[..i] + [xs[i]];
    assert xs == xs[..i + 1] + xs[i + 1..];
  }

  /** Removing the id that only entry `i` carries removes exactly that entry. */
  lemma {:induction false} RemoveAt<T(!new), K>(xs: seq<T>, i: nat, idOf: T -> K)
    requires i < |xs|
    requires forall k :: 0 <= k < |xs| && k != i ==> idOf(xs[k]) != idOf(xs[i])
    ensures RemoveById(xs, idOf, idOf(xs[i])) == xs[..i] + xs[i + 1..]
  {
    var id := idOf(xs[i]);
    var tail := xs[1..];
    if i == 0 {
      forall k | 0 <= k < |tail| ensures idOf(tail[k]) != id {
        assert tail[k] == xs[k + 1];
      }
      RemoveByIdAbsent(tail, idOf, id);
    } else {
      assert tail[i - 1] == xs[i];
      forall k | 0 <= k < |tail| && k != i - 1 ensures idOf(tail[k]) != idOf(tail[i - 1]) {
        assert tail[k] == xs[k + 1];
      }
      RemoveAt(tail, i - 1, idOf);
      assert xs[..i] == [xs[0]] + tail[..i - 1];
      assert xs[i + 1..] == tail[i..];
    }
  }

  /** Moving one entry to the end keeps the same entries. */
  lemma MoveToEnd<T>(before: seq<T>, x: T, after: seq<T>)
    ensures multiset(before + after + [x]) == multiset(before + [x] + after)
  {
    calc {
      multiset(before + after + [x]);
      multiset(before) + multiset(after) + multiset([x]);
      multiset(before) + multiset([x]) + multiset(after);
      multiset(before + [x] + after);
    }
  }

  /** `xs.map((x) => (x.id === id ? f(x) : x))`. */
  function MapById<T, K(==)>(xs: seq<T>, idOf: T -> K, id: K, f: T -> T): (r: seq<T>)
    ensures |r| == |xs|
    ensures forall k :: 0 <= k < |xs| ==> r[k] == if idOf(xs[k]) == id then f(xs[k]) else xs[k]
  {
    if xs == [] then []
    else [if idOf(xs[0]) == id then f(xs[0]) else xs[0]] + MapById(xs[1..], idOf, id, f)
  }

  /**
   * Rewriting the entries with one id (keeping that id) leaves every other
   * entry where it was: removing that id afterwards gives the same list as
   * removing it before.
   */
  lemma MapByIdKeepsOthers<T(!new), K>(xs: seq<T>, idOf: T -> K, id: K, f: T -> T)
    requires forall x :: idOf(x) == id ==> idOf(f(x)) == id
    ensures RemoveById(MapById(xs, idOf, id, f), idOf, id) == RemoveById(xs, idOf, id)
  {
    if xs != [] {
      var r := MapById(xs, idOf, id, f);
      assert r[1..] == MapById(xs[1..], idOf, id, f);
      MapByIdKeepsOthers(xs[1..], idOf, id, f);
    }
  }

  /** `xs.filter(keep)`. */
  function Filter<T>(xs: seq<T>, keep: T -> bool): (r: seq<T>)
    ensures |r| <= |xs|
    ensures forall k :: 0 <= k < |r| ==> keep(r[k])
  {
    if xs == [] then [] else (if keep(xs[0]) then [xs[0]] else []) + Filter(xs[1..], keep)
  }

  /** Filtering is applied entry by entry, so the survivors keep their order. */
  lemma {:induction false} FilterConcat<T>(a: seq<T>, b: seq<T>, keep: T -> bool)
    ensures Filter(a + b, keep) == Filter(a, keep) + Filter(b, keep)
  {
    if a == [] {
      assert a + b == b;
    } else {
      assert (a + b)[1..] == a[1..] + b;
      FilterConcat(a[1..], b, keep);
    }
  }

  /** An entry survives the filter exactly when it is in the list and is kept. */
  lemma {:induction false} FilterMembers<T>(xs: seq<T>, keep: T -> bool, x: T)
    ensures x in Filter(xs, keep) <==> x in xs && keep(x)
  {
    if xs != [] {
      FilterMembers(xs[1..], keep, x);
      assert xs == [xs[0]] + xs[1..];
    }
  }

  /**
   * The `m`-th survivor sits at some position `j` of the list: the entries
   * before `j` yield exactly the first `m` survivors and the entries from `j`
   * on yield the rest.
   */
  lemma FilterPosition<T>(xs: seq<T>, keep: T -> bool, m: nat) returns (j: nat)
    requires m < |Filter(xs, keep)|
    ensures j < |xs| && xs[j] == Filter(xs, keep)[m]
    ensures Filter(xs[..j], keep) == Filter(xs, keep)[..m]
    ensures Filter(xs[j..], keep) == Filter(xs, keep)[m..]
  {
    j := SurvivorIndex(xs, keep, m);
    var before, from := xs[..j], xs[j..];
    assert xs == before + from;
    FilterConcat(before, from, keep);
    FilterKeptHead(from, keep);
    var all := Filter(xs, keep);
    assert all == Filter(before, keep) + Filter(from, keep);
    assert all[..m] == Filter(before, keep) && all[m..] == Filter(from, keep);
  }

  /** Some kept entry has exactly `m` survivors before it. */
  lemma {:induction false} SurvivorIndex<T>(xs: seq<T>, keep: T -> bool, m: nat) returns (j: nat)
    requires m < |Filter(xs, keep)|
    ensures j < |xs| && keep(xs[j]) && |Filter(xs[..j], keep)| == m
  {
    if keep(xs[0]) && m == 0 {
      j := 0;
      assert xs[..0] == [];
    } else {
      var m' := if keep(xs[0]) then m - 1 else m;
      var j' := SurvivorIndex(xs[1..], keep, m');
      j := j' + 1;
      SlicesOfTail(xs, j');
      FilterConcat([xs[0]], xs[1..][..j'], keep);
    }
  }

  /** A kept first entry leads the survivors. */
  lemma FilterKeptHead<T>(xs: seq<T>, keep: T -> bool)
    requires xs != [] && keep(xs[0])
    ensures Filter(xs, keep) == [xs[0]] + Filter(xs[1..], keep)
    ensures Filter([xs[0]], keep) == [xs[0]]
  {
  }

  /** Cutting a list one past position `n` of its tail. */
  lemma SlicesOfTail<T>(xs: seq<T>, n: nat)
    requires n < |xs|
    ensures xs[..n + 1] == [xs[0]] + xs[1..][..n]
    ensures xs[n + 1..] == xs[1..][n..]
  {
  }
}
