/**
 * The preference-vector generators of the inverse solver: the permutations of a list in
 * the order Python's itertools.permutations yields them, the Cartesian product in the
 * order itertools.product yields it, the permutations of one window of a preference
 * vector (_decPerm), and the product of those over all decision makers (prefPermGen).
 */
module Permutations {
  import opened Wrappers

  function Factorial(n: nat): (r: nat)
    ensures r >= 1
  {
    if n == 0 then 1 else n * Factorial(n - 1)
  }

  function RemoveAt<T>(s: seq<T>, i: nat): (r: seq<T>)
    requires i < |s|
    ensures |r| == |s| - 1
  {
    s[..i] + s[i + 1..]
  }

  /** Every list of ps with x put in front. */
  function Prepend<T>(x: T, ps: seq<seq<T>>): (r: seq<seq<T>>)
    ensures |r| == |ps|
    ensures forall k :: 0 <= k < |r| ==> r[k] == [x] + ps[k]
  {
    seq(|ps|, k requires 0 <= k < |ps| => [x] + ps[k])
  }

  /**
   * itertools.permutations(s): first every permutation starting with s[0], then those
   * starting with s[1], and so on, each followed by the permutations of what is left.
   */
  function Perms<T>(s: seq<T>): seq<seq<T>>
    decreases |s|, 1
  {
    if |s| == 0 then [[]] else PermsFrom(s, 0)
  }

  /** The permutations of s whose first element is taken from position i or later. */
  function PermsFrom<T>(s: seq<T>, i: nat): seq<seq<T>>
    requires |s| > 0
    decreases |s|, 0, |s| - i
  {
    if i >= |s| then [] else Prepend(s[i], Perms(RemoveAt(s, i))) + PermsFrom(s, i + 1)
  }

  /** There are n! permutations of n elements. */
  lemma {:induction false} PermsCount<T>(s: seq<T>)
    ensures |Perms(s)| == Factorial(|s|)
    decreases |s|, 1
  {
    if |s| > 0 {
      PermsFromCount(s, 0);
    }
  }

  lemma {:induction false} PermsFromCount<T>(s: seq<T>, i: nat)
    requires |s| > 0 && i <= |s|
    ensures |PermsFrom(s, i)| == (|s| - i) * Factorial(|s| - 1)
    decreases |s|, 0, |s| - i
  {
    if i < |s| {
      PermsCount(RemoveAt(s, i));
      PermsFromCount(s, i + 1);
      var f := Factorial(|s| - 1);
      assert (|s| - i) * f == f + (|s| - (i + 1)) * f;
    }
  }

  /** Every list Perms yields is a rearrangement of s. */
  lemma {:induction false} PermsArePermutations<T>(s: seq<T>, t: seq<T>)
    requires t in Perms(s)
    ensures multiset(t) == multiset(s) && |t| == |s|
    decreases |s|, 1
  {
    if |s| > 0 {
      PermsFromArePermutations(s, 0, t);
    }
  }

  lemma {:induction false} PermsFromArePermutations<T>(s: seq<T>, i: nat, t: seq<T>)
    requires |s| > 0 && t in PermsFrom(s, i)
    ensures multiset(t) == multiset(s) && |t| == |s|
    decreases |s|, 0, |s| - i
  {
    if i < |s| {
      var head := Prepend(s[i], Perms(RemoveAt(s, i)));
      if t in head {
        var k :| 0 <= k < |head| && head[k] == t;
        var rest := Perms(RemoveAt(s, i))[k];
        assert rest in Perms(RemoveAt(s, i));
        PermsArePermutations(RemoveAt(s, i), rest);
        PutBack(s, i, rest);
      } else {
        PermsFromArePermutations(s, i + 1, t);
      }
    }
  }

  /** Putting s[i] back in front of a rearrangement of the rest rearranges s. */
  lemma PutBack<T>(s: seq<T>, i: nat, rest: seq<T>)
    requires i < |s| && multiset(rest) == multiset(RemoveAt(s, i))
    ensures multiset([s[i]] + rest) == multiset(s)
  {
    assert s == s[..i] + [s[i]] + s[i + 1..];
    assert multiset(s) == multiset(s[..i]) + multiset([s[i]]) + multiset(s[i + 1..]);
    assert multiset(RemoveAt(s, i)) == multiset(s[..i]) + multiset(s[i + 1..]);
  }

  /** Taking the first element of a rearrangement of s, found at s[i], leaves a rearrangement of the rest. */
  lemma TakeFront<T>(s: seq<T>, i: nat, t: seq<T>)
    requires i < |s| && |t| > 0 && s[i] == t[0] && multiset(t) == multiset(s)
    ensures multiset(t[1..]) == multiset(RemoveAt(s, i))
  {
    var x := multiset([t[0]]);
    assert s == s[..i] + [s[i]] + s[i + 1..];
    assert multiset(s) == multiset(s[..i]) + x + multiset(s[i + 1..]);
    assert multiset(RemoveAt(s, i)) == multiset(s[..i]) + multiset(s[i + 1..]);
    assert t == [t[0]] + t[1..];
    assert multiset(t) == x + multiset(t[1..]);
    forall e
      ensures multiset(t[1..])[e] == multiset(RemoveAt(s, i))[e]
    {
      assert multiset(t)[e] == x[e] + multiset(t[1..])[e];
      assert multiset(s)[e] == multiset(s[..i])[e] + x[e] + multiset(s[i + 1..])[e];
    }
  }

  /** Every rearrangement of s is yielded. */
  lemma {:induction false} PermsComplete<T>(s: seq<T>, t: seq<T>)
    requires multiset(t) == multiset(s)
    ensures t in Perms(s)
    decreases |s|, 1
  {
    assert |t| == |multiset(t)| == |multiset(s)| == |s|;
    if |s| > 0 {
      assert t[0] in multiset(s);
      var i :| 0 <= i < |s| && s[i] == t[0];
      TakeFront(s, i, t);
      var ps := Perms(RemoveAt(s, i));
      PermsComplete(RemoveAt(s, i), t[1..]);
      var k :| 0 <= k < |ps| && ps[k] == t[1..];
      assert Prepend(s[i], ps)[k] == t;
      PermsFromContains(s, 0, i, t);
    }
  }

  lemma {:induction false} PermsFromContains<T>(s: seq<T>, i: nat, j: nat, t: seq<T>)
    requires |s| > 0 && i <= j < |s|
    requires t in Prepend(s[j], Perms(RemoveAt(s, j)))
    ensures t in PermsFrom(s, i)
    decreases |s| - i
  {
    if i < j {
      PermsFromContains(s, i + 1, j, t);
    }
  }

  /** The first permutation yielded is s in its own order. */
  lemma {:induction false} PermsFirst<T>(s: seq<T>)
    ensures |Perms(s)| > 0 && Perms(s)[0] == s
    decreases |s|
  {
    PermsCount(s);
    if |s| > 0 {
      PermsFirst(RemoveAt(s, 0));
      assert RemoveAt(s, 0) == s[1..];
      PermsFromCount(s, 1);
      assert Perms(s)[0] == Prepend(s[0], Perms(RemoveAt(s, 0)))[0];
    }
  }

  // ---------------------------------------------------------------------------------------
  // Cartesian product

  /** itertools.product(*lists): the first list varies slowest. */
  function Product<T>(lists: seq<seq<T>>): seq<seq<T>>
    decreases |lists|
  {
    if |lists| == 0 then [[]] else ProductHead(lists[0], Product(lists[1..]))
  }

  function ProductHead<T>(xs: seq<T>, tails: seq<seq<T>>): seq<seq<T>>
    decreases |xs|
  {
    if |xs| == 0 then [] else Prepend(xs[0], tails) + ProductHead(xs[1..], tails)
  }

  /** The product of the lengths of the lists. */
  function LengthProduct<T>(lists: seq<seq<T>>): nat
    decreases |lists|
  {
    if |lists| == 0 then 1 else |lists[0]| * LengthProduct(lists[1..])
  }

  lemma {:induction false} ProductHeadCount<T>(xs: seq<T>, tails: seq<seq<T>>)
    ensures |ProductHead(xs, tails)| == |xs| * |tails|
    decreases |xs|
  {
    if |xs| > 0 {
      ProductHeadCount(xs[1..], tails);
    }
  }

  /** The product has one tuple per choice of an element from each list. */
  lemma {:induction false} ProductCount<T>(lists: seq<seq<T>>)
    ensures |Product(lists)| == LengthProduct(lists)
    decreases |lists|
  {
    if |lists| > 0 {
      ProductCount(lists[1..]);
      ProductHeadCount(lists[0], Product(lists[1..]));
    }
  }

  /** Each tuple of the product takes its i-th element from the i-th list. */
  lemma {:induction false} ProductMembers<T>(lists: seq<seq<T>>, t: seq<T>)
    requires t in Product(lists)
    ensures |t| == |lists| && forall i :: 0 <= i < |t| ==> t[i] in lists[i]
    decreases |lists|
  {
    if |lists| > 0 {
      var x, tail := ProductHeadMember(lists[0], Product(lists[1..]), t);
      ProductMembers(lists[1..], tail);
      assert forall i :: 1 <= i < |t| ==> t[i] == tail[i - 1];
    }
  }

  lemma {:induction false} ProductHeadMember<T>(xs: seq<T>, tails: seq<seq<T>>, t: seq<T>)
    returns (x: T, tail: seq<T>)
    requires t in ProductHead(xs, tails)
    ensures x in xs && tail in tails && t == [x] + tail
    decreases |xs|
  {
    if t in Prepend(xs[0], tails) {
      var k :| 0 <= k < |tails| && Prepend(xs[0], tails)[k] == t;
      x, tail := xs[0], tails[k];
    } else {
      x, tail := ProductHeadMember(xs[1..], tails, t);
    }
  }

  /** Each choice of one element per list is a tuple of the product. */
  lemma {:induction false} ProductComplete<T>(lists: seq<seq<T>>, t: seq<T>)
    requires |t| == |lists| && forall i :: 0 <= i < |t| ==> t[i] in lists[i]
    ensures t in Product(lists)
    decreases |lists|
  {
    if |lists| > 0 {
      assert forall i :: 0 <= i < |t[1..]| ==> t[1..][i] == t[i + 1];
      ProductComplete(lists[1..], t[1..]);
      assert t == [t[0]] + t[1..];
      ProductHeadContains(lists[0], Product(lists[1..]), t[0], t[1..]);
    }
  }

  lemma {:induction false} ProductHeadContains<T>(xs: seq<T>, tails: seq<seq<T>>, x: T, tail: seq<T>)
    requires x in xs && tail in tails
    ensures [x] + tail in ProductHead(xs, tails)
    decreases |xs|
  {
    if xs[0] == x {
      var k :| 0 <= k < |tails| && tails[k] == tail;
      assert Prepend(xs[0], tails)[k] == [x] + tail;
    } else {
      ProductHeadContains(xs[1..], tails, x, tail);
    }
  }

  // ---------------------------------------------------------------------------------------
  // _decPerm and prefPermGen

  /** A vary span [lo, hi] of one decision maker's preference vector. */
  datatype Span = Span(lo: nat, hi: nat)

  /** Python's s[lo:hi] for non-negative bounds: both are clamped to the length. */
  function Slice<T>(s: seq<T>, lo: nat, hi: nat): (r: seq<T>)
    ensures lo <= hi <= |s| ==> r == s[lo..hi]
  {
    var h := if hi <= |s| then hi else |s|;
    var l := if lo <= h then lo else h;
    s[l..h]
  }

  /**
   * _decPerm(full, vary): every rearrangement of the window full[lo:hi], with the rest of
   * the vector kept around it. A missing or empty vary (None or []) yields full alone;
   * a present one is a list of two numbers, which Python treats as true even for [0, 0].
   */
  function DecPerm<T>(full: seq<T>, vary: Option<Span>): seq<seq<T>>
  {
    match vary
    case None => [full]
    case Some(Span(lo, hi)) =>
      var ps := Perms(Slice(full, lo, hi));
      seq(|ps|, k requires 0 <= k < |ps| => Slice(full, 0, lo) + ps[k] + Slice(full, hi, |full|))
  }

  lemma DecPermAt<T>(full: seq<T>, lo: nat, hi: nat, k: nat)
    requires lo <= hi <= |full| && k < |Perms(full[lo..hi])|
    ensures |DecPerm(full, Some(Span(lo, hi)))| == |Perms(full[lo..hi])|
    ensures DecPerm(full, Some(Span(lo, hi)))[k] == full[..lo] + Perms(full[lo..hi])[k] + full[hi..]
  {
    assert Slice(full, lo, hi) == full[lo..hi];
    assert Slice(full, 0, lo) == full[..lo];
    assert Slice(full, hi, |full|) == full[hi..];
  }

  /** The k-th vector _decPerm yields keeps full outside the window and rearranges it inside. */
  lemma DecPermWindowAt<T>(full: seq<T>, lo: nat, hi: nat, k: nat)
    requires lo <= hi <= |full| && k < |Perms(full[lo..hi])|
    ensures var r := DecPerm(full, Some(Span(lo, hi)))[k];
      |r| == |full| && r[..lo] == full[..lo] && r[hi..] == full[hi..] &&
      multiset(r[lo..hi]) == multiset(full[lo..hi])
  {
    var ps := Perms(full[lo..hi]);
    DecPermAt(full, lo, hi, k);
    assert ps[k] in ps;
    PermsArePermutations(full[lo..hi], ps[k]);
    var r := full[..lo] + ps[k] + full[hi..];
    assert r[..lo] == full[..lo];
    assert r[lo..hi] == ps[k];
    assert r[hi..] == full[hi..];
  }

  /** Within the vector bounds, _decPerm yields (hi - lo)! vectors that agree with full outside the window. */
  lemma DecPermWindow<T>(full: seq<T>, lo: nat, hi: nat)
    requires lo <= hi <= |full|
    ensures |DecPerm(full, Some(Span(lo, hi)))| == Factorial(hi - lo)
    ensures DecPerm(full, Some(Span(lo, hi)))[0] == full
    ensures forall r :: r in DecPerm(full, Some(Span(lo, hi))) ==>
      |r| == |full| && r[..lo] == full[..lo] && r[hi..] == full[hi..] &&
      multiset(r[lo..hi]) == multiset(full[lo..hi])
  {
    var d := DecPerm(full, Some(Span(lo, hi)));
    PermsCount(full[lo..hi]);
    PermsFirst(full[lo..hi]);
    DecPermAt(full, lo, hi, 0);
    assert full == full[..lo] + full[lo..hi] + full[hi..];
    forall r | r in d
      ensures |r| == |full| && r[..lo] == full[..lo] && r[hi..] == full[hi..] &&
        multiset(r[lo..hi]) == multiset(full[lo..hi])
    {
      var k :| 0 <= k < |d| && d[k] == r;
      DecPermAt(full, lo, hi, k);
      DecPermWindowAt(full, lo, hi, k);
    }
  }

  /** Whatever the span, _decPerm only ever rearranges (or, for a reversed span, repeats) entries of full. */
  lemma DecPermElements<T>(full: seq<T>, vary: Option<Span>, r: seq<T>, x: T)
    requires r in DecPerm(full, vary) && x in r
    ensures x in full
  {
    if vary.Some? {
      var lo, hi := vary.value.lo, vary.value.hi;
      var ps := Perms(Slice(full, lo, hi));
      var k :| 0 <= k < |ps| && r == Slice(full, 0, lo) + ps[k] + Slice(full, hi, |full|);
      if x in ps[k] {
        assert ps[k] in ps;
        PermsArePermutations(Slice(full, lo, hi), ps[k]);
        assert x in multiset(Slice(full, lo, hi));
        SliceElements(full, lo, hi, x);
      } else if x in Slice(full, 0, lo) {
        SliceElements(full, 0, lo, x);
      } else {
        SliceElements(full, hi, |full|, x);
      }
    }
  }

  lemma SliceElements<T>(s: seq<T>, lo: nat, hi: nat, x: T)
    requires x in Slice(s, lo, hi)
    ensures x in s
  {
    var h := if hi <= |s| then hi else |s|;
    var l := if lo <= h then lo else h;
    var i :| 0 <= i < h - l && s[l..h][i] == x;
    assert s[l + i] == x;
  }

  /** Every rearrangement of the window is among the vectors _decPerm yields. */
  lemma DecPermComplete<T>(full: seq<T>, lo: nat, hi: nat, w: seq<T>)
    requires lo <= hi <= |full| && multiset(w) == multiset(full[lo..hi])
    ensures full[..lo] + w + full[hi..] in DecPerm(full, Some(Span(lo, hi)))
  {
    PermsComplete(full[lo..hi], w);
    var ps := Perms(full[lo..hi]);
    var k :| 0 <= k < |ps| && ps[k] == w;
    DecPermAt(full, lo, hi, k);
  }

  /**
   * prefPermGen(prefVecs, vary): every combination of one _decPerm vector per decision
   * maker, the first decision maker varying slowest. Without a vary list the original
   * subscripts None as soon as there is a decision maker; with fewer spans than vectors
   * it indexes past the end.
   */
  function PrefPermGen<T>(prefVecs: seq<seq<T>>, vary: Option<seq<Option<Span>>>): (r: Result<seq<seq<seq<T>>>>)
    ensures vary.None? ==> (r.Err? <==> |prefVecs| > 0)
    ensures vary.None? && r.Err? ==> r.error.TypeError?
    ensures vary.Some? ==> (r.Err? <==> |vary.value| < |prefVecs|)
    ensures vary.Some? && r.Err? ==> r.error.IndexError?
    ensures vary.None? && r.Ok? ==> r.value == [[]]
  {
    match vary
    case None =>
      if |prefVecs| > 0 then Err(TypeError("'NoneType' object is not subscriptable")) else Ok(Product([]))
    case Some(spans) =>
      if |spans| < |prefVecs| then Err(IndexError("list index out of range"))
      else Ok(Product(seq(|prefVecs|, x requires 0 <= x < |prefVecs| => DecPerm(prefVecs[x], spans[x]))))
  }

  /**
   * The combinations prefPermGen yields: one vector per decision maker, each a vector
   * _decPerm yields for that decision maker; all such combinations, as many as the
   * product of the per-decision-maker counts.
   */
  lemma PrefPermGenMembers<T>(prefVecs: seq<seq<T>>, spans: seq<Option<Span>>, combo: seq<seq<T>>)
    requires |spans| >= |prefVecs|
    ensures PrefPermGen(prefVecs, Some(spans)).Ok?
    ensures combo in PrefPermGen(prefVecs, Some(spans)).value <==>
      |combo| == |prefVecs| && forall x :: 0 <= x < |combo| ==> combo[x] in DecPerm(prefVecs[x], spans[x])
    ensures |PrefPermGen(prefVecs, Some(spans)).value| ==
      LengthProduct(seq(|prefVecs|, x requires 0 <= x < |prefVecs| => DecPerm(prefVecs[x], spans[x])))
  {
    var lists := seq(|prefVecs|, x requires 0 <= x < |prefVecs| => DecPerm(prefVecs[x], spans[x]));
    ProductCount(lists);
    if combo in Product(lists) {
      ProductMembers(lists, combo);
    }
    if |combo| == |prefVecs| && forall x :: 0 <= x < |combo| ==> combo[x] in DecPerm(prefVecs[x], spans[x]) {
      ProductComplete(lists, combo);
    }
  }
}
