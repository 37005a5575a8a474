/**
 * The payoffs the inverse solver derives from a preference ranking. A ranking lists the
 * feasible states (by ordered number, 1-based) from most to least preferred; an entry is a
 * single state or a group of equally preferred states. Entry i gives each of its states
 * the payoff n - i, written at position (state - 1) of a list of n zeros, later entries
 * overwriting earlier ones.
 */
module Rankings {
  import opened Wrappers

  datatype RankEntry = Single(state: nat) | Tied(states: seq<nat>)

  /** The states an entry names, in its own order. */
  function Members(e: RankEntry): seq<nat> {
    match e
    case Single(s) => [s]
    case Tied(ss) => ss
  }

  type Ranking = seq<RankEntry>

  /**
   * The position Python's payoffs[dm][z - 1] writes in a list of length n: z - 1 for
   * 1 <= z <= n, the last slot for z = 0 (index -1), and none otherwise (IndexError).
   */
  function Slot(z: nat, n: nat): (r: Option<nat>)
    ensures r.Some? ==> r.value < n
  {
    if 1 <= z <= n then Some(z - 1) else if z == 0 && n > 0 then Some(n - 1) else None
  }

  /** Entry e writes slot j. */
  predicate HitsSlot(e: RankEntry, n: nat, j: nat) {
    exists k :: 0 <= k < |Members(e)| && Slot(Members(e)[k], n) == Some(j)
  }

  /** One of the first k states of ms writes slot j. */
  predicate HitsBefore(ms: seq<nat>, k: nat, n: nat, j: nat)
    requires k <= |ms|
  {
    exists k' :: 0 <= k' < k && Slot(ms[k'], n) == Some(j)
  }

  /** Every state the ranking names has a slot: building its payoffs raises no IndexError. */
  predicate Slotted(rk: Ranking, n: nat) {
    forall i, k :: 0 <= i < |rk| && 0 <= k < |Members(rk[i])| ==> Slot(Members(rk[i])[k], n).Some?
  }

  /** Slot j after the entries before m are written: n - i for the last such entry i naming it, else 0. */
  function PayoffBelow(rk: Ranking, n: nat, j: nat, m: nat): int
    requires m <= |rk|
  {
    if m == 0 then 0
    else if HitsSlot(rk[m - 1], n, j) then n - (m - 1)
    else PayoffBelow(rk, n, j, m - 1)
  }

  /** The payoff the ranking gives slot j (the state with ordered number j + 1). */
  function PayoffAt(rk: Ranking, n: nat, j: nat): int {
    PayoffBelow(rk, n, j, |rk|)
  }

  /** The payoff table of one combination of rankings, one row per decision maker. */
  function PayoffTable(combo: seq<Ranking>, n: nat): (r: seq<seq<int>>)
    ensures |r| == |combo| && forall dm :: 0 <= dm < |combo| ==> |r[dm]| == n
  {
    seq(|combo|, dm requires 0 <= dm < |combo| => seq(n, (j: nat) => PayoffAt(combo[dm], n, j)))
  }

  /**
   * The payoff loop for one decision maker: a list of n zeros, then for entry i and each
   * state z it names, payoffs[z - 1] = n - i. A state without a slot raises IndexError.
   */
  method RankingPayoffs(rk: Ranking, n: nat) returns (r: Result<seq<int>>)
    ensures r.Err? <==> !Slotted(rk, n)
    ensures r.Err? ==> r.error.IndexError?
    ensures r.Ok? ==> |r.value| == n && forall j :: 0 <= j < n ==> r.value[j] == PayoffAt(rk, n, j)
  {
    var pay: seq<int> := seq(n, _ => 0);
    for i := 0 to |rk|
      invariant |pay| == n
      invariant forall j :: 0 <= j < n ==> pay[j] == PayoffBelow(rk, n, j, i)
      invariant forall i', k :: 0 <= i' < i && 0 <= k < |Members(rk[i'])| ==> Slot(Members(rk[i'])[k], n).Some?
    {
      var ms := Members(rk[i]);
      for k := 0 to |ms|
        invariant |pay| == n
        invariant forall j :: 0 <= j < n ==> pay[j] == if HitsBefore(ms, k, n, j) then n - i else PayoffBelow(rk, n, j, i)
        invariant forall k' :: 0 <= k' < k ==> Slot(ms[k'], n).Some?
      {
        var slot := Slot(ms[k], n);
        if slot.None? {
          assert !Slot(Members(rk[i])[k], n).Some?;
          return Err(IndexError("list assignment index out of range"));
        }
        forall j | 0 <= j < n
          ensures HitsBefore(ms, k + 1, n, j) == (HitsBefore(ms, k, n, j) || j == slot.value)
        {
          if HitsBefore(ms, k + 1, n, j) && !HitsBefore(ms, k, n, j) {
            var k' :| 0 <= k' < k + 1 && Slot(ms[k'], n) == Some(j);
            assert k' == k;
          }
        }
        pay := pay[slot.value := n - i];
      }
      forall j | 0 <= j < n
        ensures HitsBefore(ms, |ms|, n, j) == HitsSlot(rk[i], n, j)
      {
      }
    }
    return Ok(pay);
  }

  /** The payoff rows of every decision maker, in order; the first ranking without slots fails. */
  method ComboPayoffs(combo: seq<Ranking>, n: nat) returns (r: Result<seq<seq<int>>>)
    ensures r.Err? <==> exists dm :: 0 <= dm < |combo| && !Slotted(combo[dm], n)
    ensures r.Err? ==> r.error.IndexError?
    ensures r.Ok? ==> r.value == PayoffTable(combo, n)
  {
    var rows: seq<seq<int>> := [];
    for dm := 0 to |combo|
      invariant rows == PayoffTable(combo[..dm], n)
      invariant forall dm' :: 0 <= dm' < dm ==> Slotted(combo[dm'], n)
    {
      var row := RankingPayoffs(combo[dm], n);
      if row.Err? {
        return Err(row.error);
      }
      assert row.value == seq(n, (j: nat) => PayoffAt(combo[dm], n, j));
      rows := rows + [row.value];
      assert combo[..dm + 1][..dm] == combo[..dm];
    }
    assert combo[..|combo|] == combo;
    return Ok(rows);
  }

  // ---------------------------------------------------------------------------------------
  // What the payoffs mean

  /** Entry i is the last entry naming slot j. */
  predicate LastNamedAt(rk: Ranking, n: nat, i: nat, j: nat) {
    i < |rk| && HitsSlot(rk[i], n, j) && forall i' :: i < i' < |rk| ==> !HitsSlot(rk[i'], n, j)
  }

  lemma {:induction false} PayoffBelowLast(rk: Ranking, n: nat, i: nat, j: nat, m: nat)
    requires LastNamedAt(rk, n, i, j) && i < m <= |rk|
    ensures PayoffBelow(rk, n, j, m) == n - i
    decreases m
  {
    if m - 1 > i {
      PayoffBelowLast(rk, n, i, j, m - 1);
    }
  }

  /** A slot gets n - i from the last entry i that names it. */
  lemma PayoffOfEntry(rk: Ranking, n: nat, i: nat, j: nat)
    requires LastNamedAt(rk, n, i, j)
    ensures PayoffAt(rk, n, j) == n - i
  {
    PayoffBelowLast(rk, n, i, j, |rk|);
  }

  lemma {:induction false} PayoffBelowUnnamed(rk: Ranking, n: nat, j: nat, m: nat)
    requires m <= |rk| && forall i :: 0 <= i < m ==> !HitsSlot(rk[i], n, j)
    ensures PayoffBelow(rk, n, j, m) == 0
    decreases m
  {
    if m > 0 {
      PayoffBelowUnnamed(rk, n, j, m - 1);
    }
  }

  /** A slot no entry names keeps the payoff 0. */
  lemma PayoffOfUnranked(rk: Ranking, n: nat, j: nat)
    requires forall i :: 0 <= i < |rk| ==> !HitsSlot(rk[i], n, j)
    ensures PayoffAt(rk, n, j) == 0
  {
    PayoffBelowUnnamed(rk, n, j, |rk|);
  }

  /**
   * A state ranked in an earlier entry is strictly preferred (higher payoff) to one ranked in
   * a later entry, and states ranked in the same entry are equally preferred.
   */
  lemma EarlierEntryPreferred(rk: Ranking, n: nat, i1: nat, j1: nat, i2: nat, j2: nat)
    requires LastNamedAt(rk, n, i1, j1) && LastNamedAt(rk, n, i2, j2)
    ensures i1 < i2 ==> PayoffAt(rk, n, j1) > PayoffAt(rk, n, j2)
    ensures i1 == i2 ==> PayoffAt(rk, n, j1) == PayoffAt(rk, n, j2)
  {
    PayoffOfEntry(rk, n, i1, j1);
    PayoffOfEntry(rk, n, i2, j2);
  }

  /** Ranked states outrank unranked ones whenever the ranking is no longer than the state count. */
  lemma RankedAboveUnranked(rk: Ranking, n: nat, i: nat, j1: nat, j2: nat)
    requires |rk| <= n && LastNamedAt(rk, n, i, j1)
    requires forall i' :: 0 <= i' < |rk| ==> !HitsSlot(rk[i'], n, j2)
    ensures PayoffAt(rk, n, j1) > PayoffAt(rk, n, j2)
  {
    PayoffOfEntry(rk, n, i, j1);
    PayoffOfUnranked(rk, n, j2);
  }
}
