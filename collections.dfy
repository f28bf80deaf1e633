/**
 * The slice idioms the handlers repeat for every resource: filtering a list into a
 * new one, the linear search for the first record with a given id, splicing one
 * record out, and the per-key counting that a Go `map[string]int` performs.
 * Records of any kind are reached through an `idOf` accessor.
 */
module Collections {
  import opened Wrappers
  import opened Numbers

  // ---------------------------------------------------------------------------
  // Filtering (the `for _, p := range xs { if cond { filtered = append(filtered, p) } }` loops)
  // ---------------------------------------------------------------------------

  /** The elements of `s` that `keep` accepts, in their original order. */
  function Filter<T>(s: seq<T>, keep: T -> bool): (r: seq<T>)
    ensures |r| <= |s|
  {
    if s == [] then []
    else
      var rest := Filter(s[..|s| - 1], keep);
      if keep(s[|s| - 1]) then rest + [s[|s| - 1]] else rest
  }

  /** Accepts what both `f` and `g` accept. */
  function Both<T>(f: T -> bool, g: T -> bool): T -> bool {
    x => f(x) && g(x)
  }

  /** An element survives the filter exactly when it was in the list and is accepted. */
  lemma {:induction false} FilterMembership<T>(s: seq<T>, keep: T -> bool, x: T)
    ensures x in Filter(s, keep) <==> x in s && keep(x)
  {
    if s != [] {
      var init := s[..|s| - 1];
      FilterMembership(init, keep, x);
      assert s == init + [s[|s| - 1]];
    }
  }

  /** Every element of the result is accepted by the filter. */
  lemma {:induction false} FilterAccepts<T>(s: seq<T>, keep: T -> bool)
    ensures forall i :: 0 <= i < |Filter(s, keep)| ==> keep(Filter(s, keep)[i])
  {
    if s != [] {
      FilterAccepts(s[..|s| - 1], keep);
    }
  }

  /** Two filters that agree on every element of `s` select the same sub-list. */
  lemma {:induction false} FilterExtensional<T>(s: seq<T>, f: T -> bool, g: T -> bool)
    requires forall i :: 0 <= i < |s| ==> f(s[i]) == g(s[i])
    ensures Filter(s, f) == Filter(s, g)
  {
    if s != [] {
      FilterExtensional(s[..|s| - 1], f, g);
    }
  }

  /**
   * Filtering the result of a filter is one filter by the conjunction: applying
   * the handlers' filters in sequence keeps exactly the elements that pass all of
   * them, in the original order.
   */
  lemma {:induction false} FilterComposes<T>(s: seq<T>, f: T -> bool, g: T -> bool)
    ensures Filter(Filter(s, f), g) == Filter(s, Both(f, g))
  {
    if s != [] {
      var init, x := s[..|s| - 1], s[|s| - 1];
      FilterComposes(init, f, g);
      if f(x) {
        var mid := Filter(init, f);
        assert (mid + [x])[..|mid + [x]| - 1] == mid;
      }
    }
  }

  /** A filter that accepts every element returns the list itself. */
  lemma {:induction false} FilterKeepsAll<T>(s: seq<T>, keep: T -> bool)
    requires forall i :: 0 <= i < |s| ==> keep(s[i])
    ensures Filter(s, keep) == s
  {
    if s != [] {
      FilterKeepsAll(s[..|s| - 1], keep);
    }
  }

  /** Filtering loop: a fresh list holding the accepted elements in order. */
  method Select<T>(s: seq<T>, keep: T -> bool) returns (r: seq<T>)
    ensures r == Filter(s, keep)
  {
    r := [];
    for i := 0 to |s|
      invariant r == Filter(s[..i], keep)
    {
      assert s[..i + 1][..i] == s[..i];
      if keep(s[i]) {
        r := r + [s[i]];
      }
    }
    assert s[..|s|] == s;
  }

  // ---------------------------------------------------------------------------
  // Lookup by id (the `for i, x := range xs { if x.ID == id { ... } }` loops)
  // ---------------------------------------------------------------------------

  /** The position of the first record whose id is `id`, or `None` when no record has it. */
  function IndexOf<T>(s: seq<T>, idOf: T -> int, id: int): (r: Option<nat>)
    ensures r.Some? ==> r.value < |s| && idOf(s[r.value]) == id
    ensures r.Some? ==> forall j :: 0 <= j < r.value ==> idOf(s[j]) != id
    ensures r.None? <==> forall j :: 0 <= j < |s| ==> idOf(s[j]) != id
  {
    if s == [] then None
    else if idOf(s[0]) == id then Some(0)
    else
      match IndexOf(s[1..], idOf, id)
      case None => None
      case Some(k) => Some(k + 1)
  }

  /** The linear search loop, stopping at the first match. */
  method Find<T>(s: seq<T>, idOf: T -> int, id: int) returns (r: Option<nat>)
    ensures r == IndexOf(s, idOf, id)
  {
    var i := 0;
    while i < |s|
      invariant 0 <= i <= |s|
      invariant forall j :: 0 <= j < i ==> idOf(s[j]) != id
    {
      if idOf(s[i]) == id {
        return Some(i);
      }
      i := i + 1;
    }
    return None;
  }

  /**
   * A get-by-id handler: the `:id` text must parse as an integer (else 400 with
   * `invalid`), some record must carry that id (else 404 with `missing`), and the
   * first such record is returned with 200.
   */
  function Lookup<T>(s: seq<T>, idOf: T -> int, idText: string, invalid: string, missing: string): (r: Reply<T>)
    ensures r == Failure(StatusBadRequest, Message(invalid)) <==> Atoi(idText).None?
    ensures r == Failure(StatusNotFound, Message(missing)) <==>
              Atoi(idText).Some? && forall j :: 0 <= j < |s| ==> idOf(s[j]) != Atoi(idText).value
    ensures r.Success? ==>
              && r.code == StatusOK
              && Atoi(idText).Some?
              && exists i :: 0 <= i < |s| && r.value == s[i] && idOf(s[i]) == Atoi(idText).value &&
                             forall j :: 0 <= j < i ==> idOf(s[j]) != Atoi(idText).value
    ensures Atoi(idText).Some? && IndexOf(s, idOf, Atoi(idText).value).Some? ==>
              r == Success(StatusOK, s[IndexOf(s, idOf, Atoi(idText).value).value])
  {
    match Atoi(idText)
    case None => Failure(StatusBadRequest, Message(invalid))
    case Some(id) =>
      match IndexOf(s, idOf, id)
      case None => Failure(StatusNotFound, Message(missing))
      case Some(i) => Success(StatusOK, s[i])
  }

  /** `append(xs[:i], xs[i+1:]...)`: the list without position `i`, the others in order. */
  function RemoveAt<T>(s: seq<T>, i: nat): (r: seq<T>)
    requires i < |s|
    ensures |r| == |s| - 1
    ensures forall j :: 0 <= j < i ==> r[j] == s[j]
    ensures forall j :: i <= j < |r| ==> r[j] == s[j + 1]
    ensures multiset(r) + multiset{s[i]} == multiset(s)
  {
    assert s == s[..i] + [s[i]] + s[i + 1..];
    s[..i] + s[i + 1..]
  }

  // ---------------------------------------------------------------------------
  // Identifiers
  // ---------------------------------------------------------------------------

  /** No two records share an id. */
  predicate UniqueIds<T>(s: seq<T>, idOf: T -> int) {
    forall i, j :: 0 <= i < j < |s| ==> idOf(s[i]) != idOf(s[j])
  }

  /** While ids are unique, removing the record found for `id` leaves no record with that id. */
  lemma DeleteRemovesId<T>(s: seq<T>, idOf: T -> int, id: int, i: nat)
    requires UniqueIds(s, idOf)
    requires IndexOf(s, idOf, id) == Some(i)
    ensures IndexOf(RemoveAt(s, i), idOf, id) == None
  {
    var r := RemoveAt(s, i);
    forall j | 0 <= j < |r|
      ensures idOf(r[j]) != id
    {
      if j < i {
        assert r[j] == s[j];
      } else {
        assert r[j] == s[j + 1];
      }
    }
  }

  /** Splicing a record out keeps the remaining ids unique. */
  lemma RemoveKeepsUniqueIds<T>(s: seq<T>, idOf: T -> int, i: nat)
    requires i < |s| && UniqueIds(s, idOf)
    ensures UniqueIds(RemoveAt(s, i), idOf)
  {
    var r := RemoveAt(s, i);
    forall a, b | 0 <= a < b < |r|
      ensures idOf(r[a]) != idOf(r[b])
    {
      var a' := if a < i then a else a + 1;
      var b' := if b < i then b else b + 1;
      assert r[a] == s[a'] && r[b] == s[b'] && a' < b';
    }
  }

  /** Overwriting a record with one carrying the same id keeps ids unique. */
  lemma ReplaceKeepsUniqueIds<T>(s: seq<T>, idOf: T -> int, i: nat, x: T)
    requires i < |s| && UniqueIds(s, idOf) && idOf(x) == idOf(s[i])
    ensures UniqueIds(s[i := x], idOf)
  {
    var r := s[i := x];
    assert forall j :: 0 <= j < |s| ==> idOf(r[j]) == idOf(s[j]);
  }

  /** The largest id in the list, or 0 for an empty list. */
  function MaxId<T>(s: seq<T>, idOf: T -> int): (m: int)
    ensures m >= 0
    ensures forall j :: 0 <= j < |s| ==> idOf(s[j]) <= m
  {
    if s == [] then 0
    else
      var rest := MaxId(s[1..], idOf);
      if idOf(s[0]) > rest then idOf(s[0]) else rest
  }

  /** An id that is positive and that no record in the list carries. */
  function FreshId<T>(s: seq<T>, idOf: T -> int): (r: int)
    ensures r >= 1
    ensures forall j :: 0 <= j < |s| ==> idOf(s[j]) != r
  {
    MaxId(s, idOf) + 1
  }

  /**
   * Appending a record under a fresh id keeps ids unique, and the lookup for that
   * id then finds the new record at the end of the list.
   */
  lemma AppendFresh<T>(s: seq<T>, idOf: T -> int, x: T)
    requires idOf(x) == FreshId(s, idOf)
    ensures UniqueIds(s, idOf) ==> UniqueIds(s + [x], idOf)
    ensures IndexOf(s + [x], idOf, idOf(x)) == Some(|s|)
  {
    var t := s + [x];
    assert forall j :: 0 <= j < |s| ==> t[j] == s[j];
    assert idOf(t[|s|]) == idOf(x);
  }

  /**
   * While the ids are exactly 1, 2, ..., n in order (as seeded, before any delete),
   * the fresh id is n + 1, the same as the length-based rule.
   */
  lemma {:induction false} DenseIdsFreshIsLengthPlusOne<T>(s: seq<T>, idOf: T -> int)
    requires forall j :: 0 <= j < |s| ==> idOf(s[j]) == j + 1
    ensures FreshId(s, idOf) == |s| + 1
  {
    ConsecutiveMaxId(s, idOf, 1);
  }

  /**
   * The `len + 1` rule as written, on any resource: delete the record with id 1
   * from records with ids [1, 2] and append a record numbered by the new length.
   * It gets id 2 again, ids stop being unique, and the first record carrying 2
   * is the older one.
   */
  lemma LengthIdClashAfterDelete<T>(a: T, b: T, x: T, idOf: T -> int)
    requires idOf(a) == 1 && idOf(b) == 2
    requires idOf(x) == |RemoveAt([a, b], 0)| + 1
    ensures RemoveAt([a, b], 0) + [x] == [b, x]
    ensures idOf(x) == 2 && !UniqueIds([b, x], idOf)
    ensures IndexOf([b, x], idOf, 2) == Some(0)
  {
    assert RemoveAt([a, b], 0) == [b];
    assert [b, x][0] == b && [b, x][1] == x;
  }

  /** Ids numbered 1, 2, ..., n in order are unique. */
  lemma DenseIdsUnique<T>(s: seq<T>, idOf: T -> int)
    requires forall j :: 0 <= j < |s| ==> idOf(s[j]) == j + 1
    ensures UniqueIds(s, idOf)
  {
  }

  lemma {:induction false} ConsecutiveMaxId<T>(s: seq<T>, idOf: T -> int, base: nat)
    requires forall j :: 0 <= j < |s| ==> idOf(s[j]) == j + base
    ensures MaxId(s, idOf) == if s == [] then 0 else |s| + base - 1
  {
    if s != [] {
      ConsecutiveMaxId(s[1..], idOf, base + 1);
    }
  }

  // ---------------------------------------------------------------------------
  // Counting per key (a Go `map[string]int` incremented in a loop, then ranged over)
  // ---------------------------------------------------------------------------

  predicate Distinct<T(==)>(s: seq<T>) {
    forall i, j :: 0 <= i < j < |s| ==> s[i] != s[j]
  }

  /** The total, over the keys listed, of how often each occurs in `s`. */
  function CountOver<T(==)>(keys: seq<T>, s: seq<T>): nat {
    if keys == [] then 0
    else CountOver(keys[..|keys| - 1], s) + multiset(s)[keys[|keys| - 1]]
  }

  /** One more element adds one to the total exactly when its key is listed. */
  lemma {:induction false} CountOverAppend<T>(keys: seq<T>, s: seq<T>, x: T)
    requires Distinct(keys)
    ensures CountOver(keys, s + [x]) == CountOver(keys, s) + (if x in keys then 1 else 0)
  {
    if keys != [] {
      var init, k := keys[..|keys| - 1], keys[|keys| - 1];
      assert Distinct(init);
      assert k !in init;
      assert keys == init + [k];
      CountOverAppend(init, s, x);
      assert multiset(s + [x]) == multiset(s) + multiset{x};
    }
  }

  /**
   * When the keys are distinct and every element of `s` is among them, the counts
   * add up to the length of `s`: the per-key counts partition the elements.
   */
  lemma {:induction false} CountOverCovers<T>(keys: seq<T>, s: seq<T>)
    requires Distinct(keys)
    requires forall i :: 0 <= i < |s| ==> s[i] in keys
    ensures CountOver(keys, s) == |s|
  {
    if s == [] {
      CountOverEmpty(keys);
    } else {
      var init, x := s[..|s| - 1], s[|s| - 1];
      CountOverCovers(keys, init);
      CountOverAppend(keys, init, x);
      assert init + [x] == s;
    }
  }

  lemma {:induction false} CountOverEmpty<T>(keys: seq<T>)
    ensures CountOver(keys, []) == 0
  {
    if keys != [] {
      CountOverEmpty(keys[..|keys| - 1]);
    }
  }

  /** Every element of `xs` is a key of `m`, every key occurs in `xs`, and `m` holds each key's count. */
  ghost predicate Counts<K>(m: map<K, nat>, xs: seq<K>) {
    && (forall k :: k in m ==> k in xs && m[k] == multiset(xs)[k])
    && (forall i :: 0 <= i < |xs| ==> xs[i] in m)
  }

  /** Go's `m[k]++` on a `map[K]int`: a missing key counts as 0. */
  function Increment<K>(m: map<K, nat>, k: K): (r: map<K, nat>)
    ensures r.Keys == m.Keys + {k}
  {
    m[k := (if k in m then m[k] else 0) + 1]
  }

  /** Incrementing the count of `x` keeps the map a tally of the list extended by `x`. */
  lemma IncrementCounts<K>(m: map<K, nat>, xs: seq<K>, x: K)
    requires Counts(m, xs)
    ensures Counts(Increment(m, x), xs + [x])
  {
    var ys := xs + [x];
    assert multiset(ys) == multiset(xs) + multiset{x};
    assert forall i :: 0 <= i < |xs| ==> ys[i] == xs[i];
    if x !in m {
      assert multiset(xs)[x] == 0;
    }
  }

  /** Go's `for _, x := range xs { m[x]++ }`: the tally of `seen` becomes the tally of `seen + xs`. */
  method IncrementAll<K>(m: map<K, nat>, ghost seen: seq<K>, xs: seq<K>) returns (r: map<K, nat>)
    requires Counts(m, seen)
    ensures Counts(r, seen + xs)
  {
    r := m;
    for j := 0 to |xs|
      invariant Counts(r, seen + xs[..j])
    {
      IncrementCountsStep(r, seen, xs, j);
      r := Increment(r, xs[j]);
    }
    assert xs[..|xs|] == xs;
  }

  lemma IncrementCountsStep<K>(m: map<K, nat>, seen: seq<K>, xs: seq<K>, j: nat)
    requires j < |xs| && Counts(m, seen + xs[..j])
    ensures Counts(Increment(m, xs[j]), seen + xs[..j + 1])
  {
    IncrementCounts(m, seen + xs[..j], xs[j]);
    assert seen + xs[..j] + [xs[j]] == seen + xs[..j + 1];
  }

  /** The keys of a list of (key, count) pairs. */
  function KeysOf<K>(pairs: seq<(K, int)>): (keys: seq<K>)
    ensures |keys| == |pairs| && forall i :: 0 <= i < |pairs| ==> keys[i] == pairs[i].0
  {
    seq(|pairs|, i requires 0 <= i < |pairs| => pairs[i].0)
  }

  /** The sum of the counts in a list of (key, count) pairs. */
  function SumCounts<K>(pairs: seq<(K, int)>): int {
    if pairs == [] then 0 else SumCounts(pairs[..|pairs| - 1]) + pairs[|pairs| - 1].1
  }

  /**
   * `pairs` lists every key of `xs` exactly once, each with the number of times it
   * occurs in `xs`, and lists nothing else.
   */
  ghost predicate IsTally<K>(pairs: seq<(K, int)>, xs: seq<K>) {
    && Distinct(KeysOf(pairs))
    && (forall i :: 0 <= i < |xs| ==> xs[i] in KeysOf(pairs))
    && (forall i :: 0 <= i < |pairs| ==> pairs[i].0 in multiset(xs))
    && (forall i :: 0 <= i < |pairs| ==> pairs[i].1 == multiset(xs)[pairs[i].0])
  }

  /** The counts of a tally add up to the number of elements tallied. */
  lemma TallySumsToLength<K>(pairs: seq<(K, int)>, xs: seq<K>)
    requires IsTally(pairs, xs)
    ensures SumCounts(pairs) == |xs|
  {
    SumCountsIsCountOver(pairs, xs);
    CountOverCovers(KeysOf(pairs), xs);
  }

  lemma {:induction false} SumCountsIsCountOver<K>(pairs: seq<(K, int)>, xs: seq<K>)
    requires forall i :: 0 <= i < |pairs| ==> pairs[i].1 == multiset(xs)[pairs[i].0]
    ensures SumCounts(pairs) == CountOver(KeysOf(pairs), xs)
  {
    if pairs != [] {
      var init := pairs[..|pairs| - 1];
      SumCountsIsCountOver(init, xs);
      assert KeysOf(pairs)[..|pairs| - 1] == KeysOf(init);
    }
  }

  /**
   * Ranging over a Go map: every key once, in an order the language leaves
   * unspecified (modelled by an arbitrary choice at each step).
   */
  method EnumerateKeys<K, V>(m: map<K, V>) returns (keys: seq<K>)
    ensures Distinct(keys)
    ensures forall k :: k in keys <==> k in m
  {
    keys := [];
    var rest := m.Keys;
    while rest != {}
      invariant rest <= m.Keys
      invariant Distinct(keys)
      invariant forall k :: k in keys <==> k in m && k !in rest
      decreases rest
    {
      var k :| k in rest;
      keys := keys + [k];
      rest := rest - {k};
    }
  }
}
