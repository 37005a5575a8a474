/** Operations on Python lists that several parts of the model share. */
module Seqs {

  /** No element is listed twice. */
  predicate NoDup<T(==)>(s: seq<T>) {
    forall a, b :: 0 <= a < b < |s| ==> s[a] != s[b]
  }

  /** list.remove(x) when x is present: the list without the first occurrence of x. */
  function Without<T(==)>(s: seq<T>, x: T): (r: seq<T>)
    ensures x in s ==> |r| == |s| - 1
    ensures x !in s ==> r == s
  {
    if s == [] then []
    else if s[0] == x then s[1..]
    else
      assert x in s ==> x in s[1..];
      [s[0]] + Without(s[1..], x)
  }

  /** Removing takes exactly one copy of x out of the list, when it has one. */
  lemma {:induction false} WithoutMultiset<T>(s: seq<T>, x: T)
    ensures multiset(Without(s, x)) == multiset(s) - multiset{x}
  {
    if s != [] {
      assert s == [s[0]] + s[1..];
      if s[0] != x {
        WithoutMultiset(s[1..], x);
      }
    }
  }

  lemma NoDupTail<T>(s: seq<T>)
    requires NoDup(s) && s != []
    ensures NoDup(s[1..]) && s[0] !in s[1..]
  {
    forall a, b | 0 <= a < b < |s| - 1
      ensures s[1..][a] != s[1..][b]
    {
      assert s[1..][a] == s[a + 1] && s[1..][b] == s[b + 1];
    }
    forall k | 0 <= k < |s| - 1
      ensures s[1..][k] != s[0]
    {
      assert s[1..][k] == s[k + 1];
    }
  }

  /** Removing an element whose first occurrence is at k is deleting position k. */
  lemma {:induction false} WithoutFirst<T>(s: seq<T>, k: nat)
    requires k < |s| && s[k] !in s[..k]
    ensures Without(s, s[k]) == s[..k] + s[k + 1..]
  {
    if k > 0 {
      var t := s[1..];
      assert s[0] == s[..k][0];
      assert t[..k - 1] == s[1..k] && t[k - 1] == s[k];
      WithoutFirst(t, k - 1);
      assert s[..k] + s[k + 1..] == [s[0]] + (t[..k - 1] + t[k..]);
    }
  }

  /** In a list without repetitions, removing an element is deleting its position. */
  lemma WithoutAt<T>(s: seq<T>, k: nat)
    requires NoDup(s) && k < |s|
    ensures Without(s, s[k]) == s[..k] + s[k + 1..]
  {
    assert s[k] !in s[..k];
    WithoutFirst(s, k);
  }

  /** Removing keeps a list without repetitions, and the removed element is gone. */
  lemma WithoutNoDup<T>(s: seq<T>, x: T)
    requires NoDup(s)
    ensures NoDup(Without(s, x)) && x !in Without(s, x)
  {
    WithoutMultiset(s, x);
    var r := Without(s, x);
    if x in s {
      var k :| 0 <= k < |s| && s[k] == x;
      WithoutAt(s, k);
      forall a, b | 0 <= a < b < |r|
        ensures r[a] != r[b]
      {
        var a' := if a < k then a else a + 1;
        var b' := if b < k then b else b + 1;
        assert r[a] == s[a'] && r[b] == s[b'];
      }
    }
  }

  /** list.index(x): the position of the first occurrence of x. */
  function IndexOf<T(==)>(s: seq<T>, x: T): (i: nat)
    requires x in s
    ensures i < |s| && s[i] == x && x !in s[..i]
  {
    if s[0] == x then 0
    else
      var i := 1 + IndexOf(s[1..], x);
      assert s[..i] == [s[0]] + s[1..][..i - 1];
      i
  }

  /**
   * ms followed by the elements of xs it lacks, each once and in order of first
   * appearance: what appending xs one by one to a list that ignores repeats leaves.
   */
  function Extend<T(==)>(ms: seq<T>, xs: seq<T>): (r: seq<T>)
    ensures |ms| <= |r| <= |ms| + |xs| && r[..|ms|] == ms
  {
    if xs == [] then ms
    else
      var e := Extend(ms, xs[..|xs| - 1]);
      if xs[|xs| - 1] in e then e
      else
        assert (e + [xs[|xs| - 1]])[..|ms|] == e[..|ms|];
        e + [xs[|xs| - 1]]
  }

  /** Extending by one more element appends it unless it is already there. */
  lemma ExtendSnoc<T>(ms: seq<T>, xs: seq<T>, x: T)
    ensures Extend(ms, xs + [x]) == if x in Extend(ms, xs) then Extend(ms, xs) else Extend(ms, xs) + [x]
  {
    assert (xs + [x])[..|xs|] == xs;
  }

  /** Extending by xs and then by ys is extending by xs + ys. */
  lemma {:induction false} ExtendAppend<T>(ms: seq<T>, xs: seq<T>, ys: seq<T>)
    ensures Extend(ms, xs + ys) == Extend(Extend(ms, xs), ys)
    decreases |ys|
  {
    if ys == [] {
      assert xs + ys == xs;
    } else {
      var zs := ys[..|ys| - 1];
      ExtendAppend(ms, xs, zs);
      assert (xs + ys)[..|xs + ys| - 1] == xs + zs;
    }
  }

  /** An element is in the extended list exactly when it is in either of the two lists. */
  lemma {:induction false} ExtendMember<T>(ms: seq<T>, xs: seq<T>, x: T)
    ensures x in Extend(ms, xs) <==> x in ms || x in xs
  {
    if xs != [] {
      var ys, y := xs[..|xs| - 1], xs[|xs| - 1];
      assert xs == ys + [y];
      ExtendMember(ms, ys, x);
    }
  }

  /** Extending a list without repeats leaves one without repeats. */
  lemma {:induction false} ExtendNoDup<T>(ms: seq<T>, xs: seq<T>)
    requires NoDup(ms)
    ensures NoDup(Extend(ms, xs))
  {
    if xs != [] {
      ExtendNoDup(ms, xs[..|xs| - 1]);
    }
  }

  /** The position list.insert(targ, x) puts x at in a list of n elements. */
  function InsertPos(targ: nat, n: nat): (r: nat)
  {
    if targ < n then targ else n
  }

  /** moveCondition: pop the element at idx, then insert it at targ. */
  function PopInsert<T>(s: seq<T>, idx: nat, targ: nat): seq<T>
    requires idx < |s|
  {
    var rest := s[..idx] + s[idx + 1..];
    var t := InsertPos(targ, |rest|);
    rest[..t] + [s[idx]] + rest[t..]
  }

  /** Moving rearranges the list, and the moved element lands at its target position. */
  lemma PopInsertPermutes<T>(s: seq<T>, idx: nat, targ: nat)
    requires idx < |s|
    ensures var r := PopInsert(s, idx, targ);
      |r| == |s| && multiset(r) == multiset(s) && r[InsertPos(targ, |s| - 1)] == s[idx]
  {
    var rest := s[..idx] + s[idx + 1..];
    var t := InsertPos(targ, |rest|);
    assert s == s[..idx] + [s[idx]] + s[idx + 1..];
    assert rest == rest[..t] + rest[t..];
    assert multiset(rest) + multiset{s[idx]} == multiset(s);
  }

  /** Moving the element back from its target position restores the list. */
  lemma PopInsertBack<T>(s: seq<T>, idx: nat, targ: nat)
    requires idx < |s|
    ensures var t := InsertPos(targ, |s| - 1);
      t < |PopInsert(s, idx, targ)| && PopInsert(PopInsert(s, idx, targ), t, idx) == s
  {
    var rest := s[..idx] + s[idx + 1..];
    InsertThenPop(rest, s[idx], InsertPos(targ, |rest|));
    PopThenInsert(s, idx);
    assert InsertPos(idx, |rest|) == idx;
  }

  /** Inserting x at t and popping position t gives back x and the list. */
  lemma InsertThenPop<T>(rest: seq<T>, x: T, t: nat)
    requires t <= |rest|
    ensures var m := rest[..t] + [x] + rest[t..];
      m[t] == x && m[..t] + m[t + 1..] == rest
  {
    var m := rest[..t] + [x] + rest[t..];
    assert m[..t] == rest[..t] && m[t + 1..] == rest[t..];
  }

  /** Popping position idx and inserting the element at idx again gives back the list. */
  lemma PopThenInsert<T>(s: seq<T>, idx: nat)
    requires idx < |s|
    ensures var rest := s[..idx] + s[idx + 1..];
      rest[..idx] + [s[idx]] + rest[idx..] == s
  {
    var rest := s[..idx] + s[idx + 1..];
    assert rest[..idx] == s[..idx] && rest[idx..] == s[idx + 1..];
    assert s == s[..idx] + [s[idx]] + s[idx + 1..];
  }

  /** Indexing a concatenation: positions before |a| are a's, the rest are b's. */
  lemma ConcatAt<T>(a: seq<T>, b: seq<T>, i: nat)
    requires i < |a| + |b|
    ensures i < |a| ==> (a + b)[i] == a[i]
    ensures |a| <= i ==> (a + b)[i] == b[i - |a|]
  {
  }

  /**
   * A list built by appending part(0), part(1), ..., part(q - 1) to an empty list:
   * conds(j) is the list after the first j parts.
   */
  ghost predicate Accumulates<T>(conds: nat -> seq<T>, part: nat -> seq<T>, q: nat) {
    conds(0) == [] && forall j {:trigger part(j)} :: 0 <= j < q ==> conds(j + 1) == conds(j) + part(j)
  }

  /** Every element of the accumulated list comes from one of the parts. */
  lemma {:induction false} AccumulatedAt<T>(conds: nat -> seq<T>, part: nat -> seq<T>, q: nat, i: nat) returns (p: nat, k: nat)
    requires Accumulates(conds, part, q) && i < |conds(q)|
    ensures p < q && k < |part(p)| && conds(q)[i] == part(p)[k]
    decreases q
  {
    assert conds(q) == conds(q - 1) + part(q - 1);
    var prev := conds(q - 1);
    ConcatAt(prev, part(q - 1), i);
    if i < |prev| {
      p, k := AccumulatedAt(conds, part, q - 1, i);
    } else {
      p, k := q - 1, i - |prev|;
    }
  }

  /** Every element of every part is in the accumulated list. */
  lemma {:induction false} AccumulatedHas<T>(conds: nat -> seq<T>, part: nat -> seq<T>, q: nat, p: nat, k: nat) returns (i: nat)
    requires Accumulates(conds, part, q) && p < q && k < |part(p)|
    ensures i < |conds(q)| && conds(q)[i] == part(p)[k]
    decreases q
  {
    assert conds(q) == conds(q - 1) + part(q - 1);
    var prev := conds(q - 1);
    if p < q - 1 {
      i := AccumulatedHas(conds, part, q - 1, p, k);
    } else {
      i := |prev| + k;
    }
    ConcatAt(prev, part(q - 1), i);
  }

  /** sep.join(xs): the parts in order, one sep between neighbours and none at the ends. */
  function Join<T>(xs: seq<seq<T>>, sep: seq<T>): (r: seq<T>)
    ensures xs != [] ==> xs[0] <= r
  {
    if xs == [] then []
    else if |xs| == 1 then xs[0]
    else xs[0] + sep + Join(xs[1..], sep)
  }

  /** The combined length of the parts. */
  function TotalLength<T>(xs: seq<seq<T>>): nat {
    if xs == [] then 0 else |xs[0]| + TotalLength(xs[1..])
  }

  /** The joined text is as long as the parts and one sep between each two neighbours. */
  lemma {:induction false} JoinLength<T>(xs: seq<seq<T>>, sep: seq<T>)
    requires xs != []
    ensures |Join(xs, sep)| == TotalLength(xs) + (|xs| - 1) * |sep|
  {
    if |xs| > 1 {
      JoinLength(xs[1..], sep);
      assert (|xs| - 1) * |sep| == (|xs| - 2) * |sep| + |sep|;
    }
  }

  /** Joining two non-empty lists of parts is joining each and putting one sep between. */
  lemma {:induction false} JoinAppend<T>(xs: seq<seq<T>>, ys: seq<seq<T>>, sep: seq<T>)
    requires xs != [] && ys != []
    ensures Join(xs + ys, sep) == Join(xs, sep) + sep + Join(ys, sep)
  {
    var zs := xs + ys;
    assert zs[0] == xs[0] && |zs| >= 2;
    assert Join(zs, sep) == xs[0] + sep + Join(zs[1..], sep);
    if |xs| == 1 {
      assert zs[1..] == ys;
    } else {
      assert zs[1..] == xs[1..] + ys;
      JoinAppend(xs[1..], ys, sep);
      var a, b := Join(xs[1..], sep), Join(ys, sep);
      assert xs[0] + sep + (a + sep + b) == (xs[0] + sep + a) + sep + b;
    }
  }
}
