/**
 * The reachability matrix builder (RMGenerator): for one party, which feasible states it can
 * move to from which, holding every other party's options fixed and honouring irreversible
 * options; and the payoff-difference matrix that classifies those moves.
 */
module Reachability {
  import opened YesNo
  import opened Wrappers
  import opened Seqs

  /** An option's permitted direction: 'both', 'fwd' (once taken, never withdrawn) or 'back'. */
  datatype Direction = Both | Fwd | Back

  /**
   * An effective party. `options` holds the master indices of the options it controls; a
   * decision maker has one payoff per feasible state, a coalition one payoff row per member.
   */
  datatype Party =
    | DM(name: string, options: seq<nat>, payoffs: seq<int>)
    | Coalition(name: string, options: seq<nat>, memberPayoffs: seq<seq<int>>)

  /**
   * The snapshot of a conflict the solvers read: each option's permitted direction (by master
   * index), the decimal values of the feasible states in increasing order (position = state
   * index, the ordered number minus one), and the effective parties.
   */
  datatype Conflict = Conflict(directions: seq<Direction>, feasibles: seq<nat>, parties: seq<Party>)

  predicate StrictlyIncreasing(s: seq<nat>) {
    forall a, b :: 0 <= a < b < |s| ==> s[a] < s[b]
  }

  predicate ValidParty(p: Party, nOptions: nat, nStates: nat) {
    && NoDup(p.options)
    && (forall a :: 0 <= a < |p.options| ==> p.options[a] < nOptions)
    && match p
       case DM(_, _, pay) => |pay| == nStates
       case Coalition(_, _, mp) => |mp| > 0 && forall m :: 0 <= m < |mp| ==> |mp[m]| == nStates
  }

  /** What the conflict model guarantees about the snapshot it hands to the solvers. */
  predicate ValidConflict(c: Conflict) {
    && StrictlyIncreasing(c.feasibles)
    && (forall i :: 0 <= i < |c.feasibles| ==> c.feasibles[i] < Pow2(|c.directions|))
    && (forall p :: 0 <= p < |c.parties| ==> ValidParty(c.parties[p], |c.directions|, |c.feasibles|))
  }

  /** Every option is controlled by at most one party (and listed once by it). */
  predicate ExclusiveControl(parties: seq<Party>) {
    forall p, q, a, b ::
      (0 <= p < |parties| && 0 <= q < |parties| &&
       0 <= a < |parties[p].options| && 0 <= b < |parties[q].options| &&
       parties[p].options[a] == parties[q].options[b]) ==> p == q && a == b
  }

  // ---------------------------------------------------------------------------------------
  // Move values and their subset sums

  /** The dec_val of each listed option. */
  function Weights(idx: seq<nat>): (r: seq<nat>)
    ensures |r| == |idx| && forall a :: 0 <= a < |idx| ==> r[a] == Pow2(idx[a])
  {
    seq(|idx|, a requires 0 <= a < |idx| => Pow2(idx[a]))
  }

  /** Master indices of the options of every party after position q other than p, in order. */
  function OthersFrom(parties: seq<Party>, p: nat, q: nat): seq<nat>
    decreases |parties| - q
  {
    if q >= |parties| then []
    else (if q != p then parties[q].options else []) + OthersFrom(parties, p, q + 1)
  }

  function OtherOptions(c: Conflict, p: nat): seq<nat> {
    OthersFrom(c.parties, p, 0)
  }

  /** One step of the subset-sum expansion: every y becomes y and y + v, in that order. */
  function Expand(fs: seq<nat>, v: nat): seq<nat>
  {
    if fs == [] then [] else [fs[0], fs[0] + v] + Expand(fs[1..], v)
  }

  /** The expanded list holds exactly the old sums and the old sums plus v. */
  lemma {:induction false} ExpandMembers(fs: seq<nat>, v: nat, x: nat)
    ensures x in Expand(fs, v) <==> x in fs || (x >= v && x - v in fs)
    decreases |fs|
  {
    if fs != [] {
      ExpandMembers(fs[1..], v, x);
      assert fs == [fs[0]] + fs[1..];
      assert x in fs <==> x == fs[0] || x in fs[1..];
      if x >= v {
        assert x - v in fs <==> x - v == fs[0] || x - v in fs[1..];
      }
    }
  }

  /** The list the builder grows from [0] by expanding with each value in turn. */
  function SubsetSums(vals: seq<nat>): seq<nat>
  {
    if vals == [] then [0] else Expand(SubsetSums(vals[..|vals| - 1]), vals[|vals| - 1])
  }

  /** The builder's iterative expansion of a list of move values. */
  method ExpandSubsetSums(vals: seq<nat>) returns (fs: seq<nat>)
    ensures fs == SubsetSums(vals)
  {
    fs := [0];
    for i := 0 to |vals|
      invariant fs == SubsetSums(vals[..i])
    {
      assert vals[..i + 1][..i] == vals[..i];
      fs := Expand(fs, vals[i]);
    }
    assert vals[..|vals|] == vals;
  }

  /** x lies in the block of base b: x = b + d for a focal subset sum d. */
  predicate InBase(b: nat, manip: seq<nat>, x: nat) {
    x >= b && x - b in manip
  }

  /** The `reachable` list of one base: the sums b + d that are feasible, in manip's order. */
  function Candidates(b: nat, manip: seq<nat>, feas: seq<nat>): (r: seq<nat>)
    ensures forall x :: x in r <==> x in feas && InBase(b, manip, x)
  {
    if manip == [] then []
    else (if b + manip[0] in feas then [b + manip[0]] else []) + Candidates(b, manip[1..], feas)
  }

  function Fixed(c: Conflict, p: nat): seq<nat> {
    SubsetSums(Weights(OtherOptions(c, p)))
  }

  function Manipulated(c: Conflict, p: nat): seq<nat>
    requires p < |c.parties|
  {
    SubsetSums(Weights(c.parties[p].options))
  }

  // ---------------------------------------------------------------------------------------
  // The specification of the matrix

  /** States i and j lie in the block of a common base among the first bases of `fixed`. */
  predicate GroupedBy(feas: seq<nat>, fixed: seq<nat>, manip: seq<nat>, i: nat, j: nat)
    requires i < |feas| && j < |feas|
    decreases |fixed|
  {
    |fixed| > 0 &&
    (GroupedBy(feas, fixed[..|fixed| - 1], manip, i, j) ||
     (InBase(fixed[|fixed| - 1], manip, feas[i]) && InBase(fixed[|fixed| - 1], manip, feas[j])))
  }

  /** The Yes/No string of feasible state i. */
  function YNOf(c: Conflict, i: nat): (r: string)
    requires i < |c.feasibles|
    ensures |r| == |c.directions|
  {
    DecToYN(c.feasibles[i], |c.directions|)
  }

  /** The move i -> j changes option k against its permitted direction. */
  predicate BlocksMove(c: Conflict, k: nat, i: nat, j: nat)
    requires k < |c.directions| && i < |c.feasibles| && j < |c.feasibles|
  {
    var d := c.directions[k];
    var v0 := YNOf(c, i)[k];
    d != Both && ((v0 == 'Y' && d == Fwd) || (v0 == 'N' && d == Back)) && v0 != YNOf(c, j)[k]
  }

  /** Some option of master index below K blocks the move i -> j. */
  predicate BlockedUpTo(c: Conflict, K: nat, i: nat, j: nat)
    requires K <= |c.directions| && i < |c.feasibles| && j < |c.feasibles|
  {
    K > 0 && (BlockedUpTo(c, K - 1, i, j) || BlocksMove(c, K - 1, i, j))
  }

  /**
   * Entry [i, j] of party p's reachability matrix once the irreversibility pass has handled
   * the options of master index below K: after the grouping pass an entry is set for distinct
   * states of a common block, and option K - 1 clears the moves it blocks.
   */
  predicate ReachAfter(c: Conflict, p: nat, i: nat, j: nat, K: nat)
    requires p < |c.parties| && i < |c.feasibles| && j < |c.feasibles| && K <= |c.directions|
  {
    if K == 0 then i != j && GroupedBy(c.feasibles, Fixed(c, p), Manipulated(c, p), i, j)
    else ReachAfter(c, p, i, j, K - 1) && !BlocksMove(c, K - 1, i, j)
  }

  /** Entry [i, j] of party p's reachability matrix as the builder leaves it. */
  predicate Reach(c: Conflict, p: nat, i: nat, j: nat)
    requires p < |c.parties| && i < |c.feasibles| && j < |c.feasibles|
  {
    ReachAfter(c, p, i, j, |c.directions|)
  }

  /** A move survives the first K options exactly when it is grouped and none of them blocks it. */
  lemma {:induction false} ReachAfterBlocked(c: Conflict, p: nat, i: nat, j: nat, K: nat)
    requires p < |c.parties| && i < |c.feasibles| && j < |c.feasibles| && K <= |c.directions|
    ensures ReachAfter(c, p, i, j, K) ==
      (i != j && GroupedBy(c.feasibles, Fixed(c, p), Manipulated(c, p), i, j) && !BlockedUpTo(c, K, i, j))
    decreases K
  {
    if K > 0 {
      ReachAfterBlocked(c, p, i, j, K - 1);
    }
  }

  /** Reach spelled out: distinct, grouped, and blocked by no option. */
  lemma ReachDef(c: Conflict, p: nat, i: nat, j: nat)
    requires p < |c.parties| && i < |c.feasibles| && j < |c.feasibles|
    ensures Reach(c, p, i, j) ==
      (i != j && GroupedBy(c.feasibles, Fixed(c, p), Manipulated(c, p), i, j) && !BlockedUpTo(c, |c.directions|, i, j))
  {
    ReachAfterBlocked(c, p, i, j, |c.directions|);
  }

  // ---------------------------------------------------------------------------------------
  // The builder

  function IndexOf(s: seq<nat>, x: nat): (r: nat)
    requires x in s
    ensures r < |s| && s[r] == x
  {
    if s[0] == x then 0 else 1 + IndexOf(s[1..], x)
  }

  /** Mark every ordered pair of distinct states whose values are in R as mutually reachable. */
  method MarkMutual(feas: seq<nat>, rm: array2<bool>, R: seq<nat>)
    requires rm.Length0 == |feas| && rm.Length1 == |feas|
    requires forall x :: x in R ==> x in feas
    requires StrictlyIncreasing(feas)
    modifies rm
    ensures forall i, j :: 0 <= i < |feas| && 0 <= j < |feas| ==>
      rm[i, j] == (old(rm[i, j]) || (i != j && feas[i] in R && feas[j] in R))
  {
    for a := 0 to |R|
      invariant forall i, j :: 0 <= i < |feas| && 0 <= j < |feas| ==>
        rm[i, j] == (old(rm[i, j]) || (i != j && feas[i] in R[..a] && feas[j] in R))
    {
      var s0 := IndexOf(feas, R[a]);
      for b := 0 to |R|
        invariant forall i, j :: 0 <= i < |feas| && 0 <= j < |feas| ==>
          rm[i, j] == (old(rm[i, j]) || (i != j && feas[i] in R[..a] && feas[j] in R) ||
                       (i != j && i == s0 && feas[j] in R[..b]))
      {
        var s1 := IndexOf(feas, R[b]);
        if s0 != s1 {
          rm[s0, s1] := true;
        }
        assert R[..b + 1] == R[..b] + [R[b]];
      }
      assert R[..a + 1] == R[..a] + [R[a]];
    }
    assert R[..|R|] == R;
  }

  /** Zero every entry that moves an irreversible option against its direction. */
  method RemoveIrreversible(c: Conflict, rm: array2<bool>)
    requires rm.Length0 == |c.feasibles| && rm.Length1 == |c.feasibles|
    modifies rm
    ensures forall i, j :: 0 <= i < |c.feasibles| && 0 <= j < |c.feasibles| ==>
      rm[i, j] == (old(rm[i, j]) && !BlockedUpTo(c, |c.directions|, i, j))
  {
    var N := |c.feasibles|;
    for k := 0 to |c.directions|
      invariant forall i, j :: 0 <= i < N && 0 <= j < N ==>
        rm[i, j] == (old(rm[i, j]) && !BlockedUpTo(c, k, i, j))
    {
      if c.directions[k] != Both {
        for idx0 := 0 to N
          invariant forall i, j :: 0 <= i < N && 0 <= j < N ==>
            rm[i, j] == (old(rm[i, j]) && !BlockedUpTo(c, k, i, j) && !(i < idx0 && BlocksMove(c, k, i, j)))
        {
          var val0 := YNOf(c, idx0)[k];
          if (val0 == 'Y' && c.directions[k] == Fwd) || (val0 == 'N' && c.directions[k] == Back) {
            for idx1 := 0 to N
              invariant forall i, j :: 0 <= i < N && 0 <= j < N ==>
                rm[i, j] == (old(rm[i, j]) && !BlockedUpTo(c, k, i, j) &&
                             !(i < idx0 && BlocksMove(c, k, i, j)) &&
                             !(i == idx0 && j < idx1 && BlocksMove(c, k, i, j)))
            {
              var val1 := YNOf(c, idx1)[k];
              if val0 != val1 {
                rm[idx0, idx1] := false;
              }
            }
          }
        }
      }
    }
  }

  /** RMGenerator.__init__ for one effective party: build its reachability matrix. */
  method BuildReachability(c: Conflict, p: nat) returns (rm: array2<bool>)
    requires ValidConflict(c) && p < |c.parties|
    ensures fresh(rm) && rm.Length0 == |c.feasibles| && rm.Length1 == |c.feasibles|
    ensures forall i, j :: 0 <= i < |c.feasibles| && 0 <= j < |c.feasibles| ==>
      rm[i, j] == Reach(c, p, i, j)
  {
    var N := |c.feasibles|;
    rm := new bool[N, N]((i, j) => false);
    var fixed := ExpandSubsetSums(Weights(OtherOptions(c, p)));
    var manip := ExpandSubsetSums(Weights(c.parties[p].options));
    for t := 0 to |fixed|
      invariant forall i, j :: 0 <= i < N && 0 <= j < N ==>
        rm[i, j] == (i != j && GroupedBy(c.feasibles, fixed[..t], manip, i, j))
    {
      var reachable := Candidates(fixed[t], manip, c.feasibles);
      MarkMutual(c.feasibles, rm, reachable);
      assert fixed[..t + 1][..t] == fixed[..t];
    }
    assert fixed[..|fixed|] == fixed;
    RemoveIrreversible(c, rm);
    forall i, j | 0 <= i < N && 0 <= j < N ensures rm[i, j] == Reach(c, p, i, j) {
      ReachDef(c, p, i, j);
    }
  }

  // ---------------------------------------------------------------------------------------
  // The payoff-difference matrix

  /** Every member of a coalition strictly gains moving from i to j. */
  predicate AllGain(mp: seq<seq<int>>, i: nat, j: nat)
    requires forall m :: 0 <= m < |mp| ==> i < |mp[m]| && j < |mp[m]|
  {
    forall m :: 0 <= m < |mp| ==> mp[m][i] < mp[m][j]
  }

  /**
   * payoffMatrix[i, j]: for a decision maker payoff[j] - payoff[i]; for a coalition the
   * boolean "every member strictly gains", read as 1 or 0 the way numpy reads it.
   */
  function Gain(c: Conflict, p: nat, i: nat, j: nat): int
    requires ValidConflict(c) && p < |c.parties| && i < |c.feasibles| && j < |c.feasibles|
  {
    match c.parties[p]
    case DM(_, _, pay) => pay[j] - pay[i]
    case Coalition(_, _, mp) => if AllGain(mp, i, j) then 1 else 0
  }

  /** A move is never an improvement in both directions, nor from a state to itself. */
  lemma GainAntisymmetric(c: Conflict, p: nat, i: nat, j: nat)
    requires ValidConflict(c) && p < |c.parties| && i < |c.feasibles| && j < |c.feasibles|
    ensures Gain(c, p, i, j) > 0 ==> Gain(c, p, j, i) <= 0
    ensures Gain(c, p, i, i) <= 0
  {
    assert ValidParty(c.parties[p], |c.directions|, |c.feasibles|);
    if c.parties[p].Coalition? {
      var mp := c.parties[p].memberPayoffs;
      assert !(mp[0][i] < mp[0][j] && mp[0][j] < mp[0][i]);
      assert !(mp[0][i] < mp[0][i]);
    }
  }

  // ---------------------------------------------------------------------------------------
  // Properties of the matrix

  lemma {:induction false} SubsetSumsStep(idx: seq<nat>)
    requires idx != []
    ensures SubsetSums(Weights(idx)) ==
            Expand(SubsetSums(Weights(idx[..|idx| - 1])), Pow2(idx[|idx| - 1]))
  {
    assert Weights(idx)[..|idx| - 1] == Weights(idx[..|idx| - 1]);
  }

  /** A subset sum of distinct option weights sets no bit outside those options. */
  lemma {:induction false} SubsetSumBits(I: seq<nat>, x: nat, k: nat)
    requires NoDup(I) && x in SubsetSums(Weights(I))
    requires Bit(x, k) == 1
    ensures k in I
    decreases |I|
  {
    if I == [] {
      BitOfZero(k);
    } else {
      var J, j := I[..|I| - 1], I[|I| - 1];
      SubsetSumsStep(I);
      ExpandMembers(SubsetSums(Weights(J)), Pow2(j), x);
      if x in SubsetSums(Weights(J)) {
        SubsetSumBits(J, x, k);
      } else {
        var y := x - Pow2(j);
        if Bit(y, j) == 1 {
          SubsetSumBits(J, y, j);
          assert false;
        }
        AddClearBit(y, j, k);
        if k != j {
          SubsetSumBits(J, y, k);
        }
      }
    }
  }

  /**
   * Adding a subset sum d of distinct weights to a base b that is clear on those options:
   * the bits of the options come from d, every other bit from b.
   */
  lemma {:induction false} AddSubsetSumAt(b: nat, I: seq<nat>, d: nat, k: nat)
    requires NoDup(I) && d in SubsetSums(Weights(I))
    requires forall k' :: k' in I ==> Bit(b, k') == 0
    ensures Bit(b + d, k) == (if k in I then Bit(d, k) else Bit(b, k))
  {
    if I == [] {
    } else {
      var J, j := I[..|I| - 1], I[|I| - 1];
      assert I == J + [j];
      SubsetSumsStep(I);
      ExpandMembers(SubsetSums(Weights(J)), Pow2(j), d);
      if d in SubsetSums(Weights(J)) {
        AddSubsetSumAt(b, J, d, k);
        if k == j && Bit(d, j) == 1 {
          SubsetSumBits(J, d, j);
        }
      } else {
        var y := d - Pow2(j);
        AddSubsetSumAt(b, J, y, j);
        AddSubsetSumAt(b, J, y, k);
        AddClearBit(b + y, j, k);
        if Bit(y, j) == 1 {
          SubsetSumBits(J, y, j);
        }
        AddClearBit(y, j, k);
      }
    }
  }

  /** Two numbers with the same bits are equal. */
  lemma {:induction false} BitsDetermine(x: nat, y: nat)
    requires forall k :: Bit(x, k) == Bit(y, k)
    ensures x == y
    decreases x + y
  {
    assert Bit(x, 0) == Bit(y, 0);
    if x + y > 0 {
      forall k: nat ensures Bit(x / 2, k) == Bit(y / 2, k) {
        assert Bit(x, k + 1) == Bit(y, k + 1);
      }
      BitsDetermine(x / 2, y / 2);
    }
  }

  lemma {:induction false} OthersFromMembers(P: seq<Party>, p: nat, q: nat, x: nat)
    ensures x in OthersFrom(P, p, q) <==> exists r :: q <= r < |P| && r != p && x in P[r].options
    decreases |P| - q
  {
    if q < |P| {
      OthersFromMembers(P, p, q + 1, x);
    }
  }

  lemma {:induction false} OthersFromNoDup(P: seq<Party>, p: nat, q: nat)
    requires ExclusiveControl(P)
    ensures NoDup(OthersFrom(P, p, q))
    decreases |P| - q
  {
    if q < |P| {
      OthersFromNoDup(P, p, q + 1);
      var A := if q != p then P[q].options else [];
      var B := OthersFrom(P, p, q + 1);
      forall a, b | 0 <= a < b < |A + B| ensures (A + B)[a] != (A + B)[b] {
        if b < |A| {
        } else if a >= |A| {
          assert (A + B)[a] == B[a - |A|] && (A + B)[b] == B[b - |A|];
        } else {
          var x := A[a];
          assert (A + B)[b] == B[b - |A|];
          OthersFromMembers(P, p, q + 1, x);
        }
      }
    }
  }

  /** An option of party p is not among the options of the other parties. */
  lemma FocalNotOther(c: Conflict, p: nat, k: nat)
    requires ExclusiveControl(c.parties) && p < |c.parties| && k in c.parties[p].options
    ensures k !in OtherOptions(c, p)
  {
    OthersFromMembers(c.parties, p, 0, k);
  }

  lemma {:induction false} GroupedWitness(feas: seq<nat>, fixed: seq<nat>, manip: seq<nat>, i: nat, j: nat)
    requires i < |feas| && j < |feas|
    ensures GroupedBy(feas, fixed, manip, i, j) <==>
            exists t :: 0 <= t < |fixed| && InBase(fixed[t], manip, feas[i]) && InBase(fixed[t], manip, feas[j])
    decreases |fixed|
  {
    if |fixed| > 0 {
      var pre := fixed[..|fixed| - 1];
      GroupedWitness(feas, pre, manip, i, j);
      assert forall t :: 0 <= t < |pre| ==> pre[t] == fixed[t];
    }
  }

  /** The base of a grouped state, and the facts the bit arguments need about it. */
  lemma BaseOf(c: Conflict, p: nat, i: nat, j: nat) returns (b: nat)
    requires ValidConflict(c) && ExclusiveControl(c.parties) && p < |c.parties|
    requires i < |c.feasibles| && j < |c.feasibles|
    requires GroupedBy(c.feasibles, Fixed(c, p), Manipulated(c, p), i, j)
    ensures InBase(b, Manipulated(c, p), c.feasibles[i]) && InBase(b, Manipulated(c, p), c.feasibles[j])
    ensures b in Fixed(c, p)
    ensures forall k :: k in c.parties[p].options ==> Bit(b, k) == 0
    ensures forall k :: Bit(b, k) == 1 ==> k !in c.parties[p].options
  {
    GroupedWitness(c.feasibles, Fixed(c, p), Manipulated(c, p), i, j);
    var t :| 0 <= t < |Fixed(c, p)| && InBase(Fixed(c, p)[t], Manipulated(c, p), c.feasibles[i]) &&
             InBase(Fixed(c, p)[t], Manipulated(c, p), c.feasibles[j]);
    b := Fixed(c, p)[t];
    OthersFromNoDup(c.parties, p, 0);
    forall k | Bit(b, k) == 1 ensures k !in c.parties[p].options {
      SubsetSumBits(OtherOptions(c, p), b, k);
      if k in c.parties[p].options {
        FocalNotOther(c, p, k);
      }
    }
  }

  /** Within one base, bit k of a state comes from the base whenever p does not control k. */
  lemma StateBitFromBase(c: Conflict, p: nat, b: nat, i: nat, k: nat)
    requires ValidConflict(c) && p < |c.parties| && i < |c.feasibles|
    requires InBase(b, Manipulated(c, p), c.feasibles[i])
    requires forall k' :: k' in c.parties[p].options ==> Bit(b, k') == 0
    ensures Bit(c.feasibles[i], k) == (if k in c.parties[p].options then Bit(c.feasibles[i] - b, k) else Bit(b, k))
  {
    assert ValidParty(c.parties[p], |c.directions|, |c.feasibles|);
    AddSubsetSumAt(b, c.parties[p].options, c.feasibles[i] - b, k);
  }

  /**
   * A party's moves change only its own options: when no option is controlled by two
   * parties, states i and j with Reach(c, p, i, j) agree on every option p does not control.
   */
  lemma ReachChangesOnlyFocalOptions(c: Conflict, p: nat, i: nat, j: nat, k: nat)
    requires ValidConflict(c) && ExclusiveControl(c.parties) && p < |c.parties|
    requires i < |c.feasibles| && j < |c.feasibles| && Reach(c, p, i, j)
    requires k < |c.directions| && k !in c.parties[p].options
    ensures YNOf(c, i)[k] == YNOf(c, j)[k]
  {
    ReachDef(c, p, i, j);
    var b := BaseOf(c, p, i, j);
    StateBitFromBase(c, p, b, i, k);
    StateBitFromBase(c, p, b, j, k);
    DecToYNAt(c.feasibles[i], |c.directions|, k);
    DecToYNAt(c.feasibles[j], |c.directions|, k);
  }

  /**
   * When every option has one controller, no opponent of p can undo p's move: from a state
   * p reaches from s0, no other party moves back to s0.
   */
  lemma NoReturnToStart(c: Conflict, p: nat, o: nat, s0: nat, s1: nat)
    requires ValidConflict(c) && ExclusiveControl(c.parties) && p < |c.parties| && o < |c.parties| && o != p
    requires s0 < |c.feasibles| && s1 < |c.feasibles| && Reach(c, p, s0, s1)
    ensures !Reach(c, o, s1, s0)
  {
    ReachDef(c, p, s0, s1);
    if Reach(c, o, s1, s0) {
      forall k | 0 <= k < |c.directions| ensures YNOf(c, s0)[k] == YNOf(c, s1)[k] {
        if k !in c.parties[p].options {
          ReachChangesOnlyFocalOptions(c, p, s0, s1, k);
        } else {
          var a :| 0 <= a < |c.parties[p].options| && c.parties[p].options[a] == k;
          assert forall b :: 0 <= b < |c.parties[o].options| ==> c.parties[o].options[b] != k;
          ReachChangesOnlyFocalOptions(c, o, s1, s0, k);
        }
      }
      assert YNOf(c, s0) == YNOf(c, s1);
      DecodeEncode(c.feasibles[s0], |c.directions|);
      DecodeEncode(c.feasibles[s1], |c.directions|);
      assert false;
    }
  }

  /** Grouping is symmetric: without irreversible options every move can be undone. */
  lemma {:induction false} GroupedSymmetric(feas: seq<nat>, fixed: seq<nat>, manip: seq<nat>, i: nat, j: nat)
    requires i < |feas| && j < |feas|
    ensures GroupedBy(feas, fixed, manip, i, j) ==> GroupedBy(feas, fixed, manip, j, i)
    decreases |fixed|
  {
    if |fixed| > 0 {
      GroupedSymmetric(feas, fixed[..|fixed| - 1], manip, i, j);
    }
  }

  lemma ReachSymmetric(c: Conflict, p: nat, i: nat, j: nat)
    requires p < |c.parties| && i < |c.feasibles| && j < |c.feasibles|
    requires Reach(c, p, i, j) && !BlockedUpTo(c, |c.directions|, j, i)
    ensures Reach(c, p, j, i)
  {
    ReachDef(c, p, i, j);
    ReachDef(c, p, j, i);
    GroupedSymmetric(c.feasibles, Fixed(c, p), Manipulated(c, p), i, j);
  }

  /**
   * Closure under composition: when no option has two controllers, a state reachable in two
   * moves of p is reachable in one, unless that direct move is blocked by an irreversible option.
   */
  lemma ReachComposes(c: Conflict, p: nat, i: nat, j: nat, l: nat)
    requires ValidConflict(c) && ExclusiveControl(c.parties) && p < |c.parties|
    requires i < |c.feasibles| && j < |c.feasibles| && l < |c.feasibles|
    requires Reach(c, p, i, j) && Reach(c, p, j, l)
    requires i != l && !BlockedUpTo(c, |c.directions|, i, l)
    ensures Reach(c, p, i, l)
  {
    ReachDef(c, p, i, j);
    ReachDef(c, p, j, l);
    ReachDef(c, p, i, l);
    var b1 := BaseOf(c, p, i, j);
    var b2 := BaseOf(c, p, j, l);
    forall k ensures Bit(b1, k) == Bit(b2, k) {
      if k !in c.parties[p].options {
        StateBitFromBase(c, p, b1, j, k);
        StateBitFromBase(c, p, b2, j, k);
      }
    }
    BitsDetermine(b1, b2);
    var t := IndexOf(Fixed(c, p), b1);
    GroupedWitness(c.feasibles, Fixed(c, p), Manipulated(c, p), i, l);
  }

  lemma {:induction false} BlockedUpToHolds(c: Conflict, K: nat, k: nat, i: nat, j: nat)
    requires K <= |c.directions| && k < K && i < |c.feasibles| && j < |c.feasibles|
    requires BlocksMove(c, k, i, j)
    ensures BlockedUpTo(c, K, i, j)
    decreases K
  {
    if k < K - 1 {
      BlockedUpToHolds(c, K - 1, k, i, j);
    }
  }

  /**
   * Irreversible options are honoured: from a state where a 'fwd' option is taken, every
   * reachable state keeps it taken; where a 'back' option is not taken, it stays not taken.
   */
  lemma IrreversibleRespected(c: Conflict, p: nat, i: nat, j: nat, k: nat)
    requires p < |c.parties| && i < |c.feasibles| && j < |c.feasibles| && k < |c.directions|
    requires Reach(c, p, i, j)
    ensures c.directions[k] == Fwd && YNOf(c, i)[k] == 'Y' ==> YNOf(c, j)[k] == 'Y'
    ensures c.directions[k] == Back && YNOf(c, i)[k] == 'N' ==> YNOf(c, j)[k] == 'N'
  {
    ReachDef(c, p, i, j);
    if BlocksMove(c, k, i, j) {
      BlockedUpToHolds(c, |c.directions|, k, i, j);
    }
  }

  /** Two snapshots that agree on the options, their directions and the feasible states. */
  predicate SameMoves(c: Conflict, d: Conflict) {
    && c.directions == d.directions && c.feasibles == d.feasibles && |c.parties| == |d.parties|
    && forall o :: 0 <= o < |c.parties| ==> c.parties[o].options == d.parties[o].options
  }

  lemma {:induction false} OthersFromSameMoves(c: Conflict, d: Conflict, p: nat, q: nat)
    requires SameMoves(c, d)
    ensures OthersFrom(c.parties, p, q) == OthersFrom(d.parties, p, q)
    decreases |c.parties| - q
  {
    if q < |c.parties| {
      OthersFromSameMoves(c, d, p, q + 1);
    }
  }

  lemma {:induction false} BlockedUpToSameMoves(c: Conflict, d: Conflict, K: nat, i: nat, j: nat)
    requires SameMoves(c, d) && K <= |c.directions| && i < |c.feasibles| && j < |c.feasibles|
    ensures BlockedUpTo(c, K, i, j) == BlockedUpTo(d, K, i, j)
    decreases K
  {
    if K > 0 {
      BlockedUpToSameMoves(c, d, K - 1, i, j);
      assert YNOf(c, i) == YNOf(d, i) && YNOf(c, j) == YNOf(d, j);
    }
  }

  /** Reachability is a matter of options and directions only: payoffs never change it. */
  lemma ReachIgnoresPayoffs(c: Conflict, d: Conflict, p: nat, i: nat, j: nat)
    requires SameMoves(c, d) && p < |c.parties| && i < |c.feasibles| && j < |c.feasibles|
    ensures Reach(c, p, i, j) == Reach(d, p, i, j)
  {
    ReachDef(c, p, i, j);
    ReachDef(d, p, i, j);
    OthersFromSameMoves(c, d, p, 0);
    BlockedUpToSameMoves(c, d, |c.directions|, i, j);
  }

  // ---------------------------------------------------------------------------------------
  // Queries on the matrix rows

  /** The states below n that party p reaches from s, in increasing order. */
  function ReachBelow(c: Conflict, p: nat, s: nat, n: nat): (r: seq<nat>)
    requires p < |c.parties| && s < |c.feasibles| && n <= |c.feasibles|
    ensures forall x: nat :: x in r <==> x < n && Reach(c, p, s, x)
    ensures forall k :: 0 <= k < |r| ==> r[k] < n
  {
    if n == 0 then [] else ReachBelow(c, p, s, n - 1) + (if Reach(c, p, s, n - 1) then [n - 1] else [])
  }

  /** reachable(dm, s): the states p reaches from s (never s itself). */
  function ReachList(c: Conflict, p: nat, s: nat): (r: seq<nat>)
    requires p < |c.parties| && s < |c.feasibles|
    ensures forall x: nat :: x in r <==> x < |c.feasibles| && Reach(c, p, s, x)
    ensures forall k :: 0 <= k < |r| ==> r[k] < |c.feasibles|
    ensures s !in r
  {
    ReachDef(c, p, s, s);
    ReachBelow(c, p, s, |c.feasibles|)
  }

  /** The list is in increasing order, as numpy.nonzero returns it. */
  lemma {:induction false} ReachBelowIncreasing(c: Conflict, p: nat, s: nat, n: nat)
    requires p < |c.parties| && s < |c.feasibles| && n <= |c.feasibles|
    ensures StrictlyIncreasing(ReachBelow(c, p, s, n))
  {
    if n > 0 {
      ReachBelowIncreasing(c, p, s, n - 1);
      var rest := ReachBelow(c, p, s, n - 1);
      var r := ReachBelow(c, p, s, n);
      assert r == rest + (if Reach(c, p, s, n - 1) then [n - 1] else []);
      forall a, b | 0 <= a < b < |r| ensures r[a] < r[b] {
        if b >= |rest| {
          assert r[a] == rest[a];
        }
      }
    }
  }

  lemma ReachListIncreasing(c: Conflict, p: nat, s: nat)
    requires p < |c.parties| && s < |c.feasibles|
    ensures StrictlyIncreasing(ReachList(c, p, s))
  {
    ReachBelowIncreasing(c, p, s, |c.feasibles|);
  }

  /** x is a unilateral improvement of p from s, judged against ref. */
  predicate IsUI(c: Conflict, p: nat, s: nat, ref: nat, x: nat)
    requires ValidConflict(c) && p < |c.parties|
    requires s < |c.feasibles| && ref < |c.feasibles| && x < |c.feasibles|
  {
    Reach(c, p, s, x) && Gain(c, p, ref, x) > 0
  }

  /** The states below n (in increasing order) that p reaches from s and strictly prefers to ref. */
  function UIsBelow(c: Conflict, p: nat, s: nat, ref: nat, n: nat): (r: seq<nat>)
    requires ValidConflict(c) && p < |c.parties| && s < |c.feasibles| && ref < |c.feasibles|
    requires n <= |c.feasibles|
    ensures forall x: nat :: x in r <==> x < n && IsUI(c, p, s, ref, x)
    ensures forall k :: 0 <= k < |r| ==> r[k] < n
  {
    if n == 0 then []
    else UIsBelow(c, p, s, ref, n - 1) + (if IsUI(c, p, s, ref, n - 1) then [n - 1] else [])
  }

  /** UIs(dm, s, ref): the states p reaches from s and strictly prefers to ref, in increasing order. */
  function UIList(c: Conflict, p: nat, s: nat, ref: nat): (r: seq<nat>)
    requires ValidConflict(c) && p < |c.parties| && s < |c.feasibles| && ref < |c.feasibles|
    ensures forall x: nat :: x in r <==> x < |c.feasibles| && IsUI(c, p, s, ref, x)
    ensures forall k :: 0 <= k < |r| ==> r[k] < |c.feasibles|
  {
    UIsBelow(c, p, s, ref, |c.feasibles|)
  }

  /** Some party other than p, with index below q, has the unilateral improvement s -> x. */
  predicate OpponentUIBelow(c: Conflict, p: nat, q: nat, s: nat, x: nat)
    requires ValidConflict(c) && q <= |c.parties| && s < |c.feasibles| && x < |c.feasibles|
  {
    q > 0 && (OpponentUIBelow(c, p, q - 1, s, x) || (q - 1 != p && IsUI(c, q - 1, s, s, x)))
  }

  /** Some party other than p, with index below q, can move s -> x. */
  predicate OpponentMoveBelow(c: Conflict, p: nat, q: nat, s: nat, x: nat)
    requires q <= |c.parties| && s < |c.feasibles| && x < |c.feasibles|
  {
    q > 0 && (OpponentMoveBelow(c, p, q - 1, s, x) || (q - 1 != p && Reach(c, q - 1, s, x)))
  }

  /** The opponents' improvements are those of some single party other than p. */
  lemma {:induction false} OpponentUIWitness(c: Conflict, p: nat, q: nat, s: nat, x: nat)
    requires ValidConflict(c) && q <= |c.parties| && s < |c.feasibles| && x < |c.feasibles|
    ensures OpponentUIBelow(c, p, q, s, x) <==> exists o :: 0 <= o < q && o != p && IsUI(c, o, s, s, x)
    decreases q
  {
    if q > 0 {
      OpponentUIWitness(c, p, q - 1, s, x);
    }
  }

  /** The opponents' moves are those of some single party other than p. */
  lemma {:induction false} OpponentMoveWitness(c: Conflict, p: nat, q: nat, s: nat, x: nat)
    requires q <= |c.parties| && s < |c.feasibles| && x < |c.feasibles|
    ensures OpponentMoveBelow(c, p, q, s, x) <==> exists o :: 0 <= o < q && o != p && Reach(c, o, s, x)
    decreases q
  {
    if q > 0 {
      OpponentMoveWitness(c, p, q - 1, s, x);
    }
  }

  predicate OpponentUI(c: Conflict, p: nat, s: nat, x: nat)
    requires ValidConflict(c) && s < |c.feasibles| && x < |c.feasibles|
  {
    OpponentUIBelow(c, p, |c.parties|, s, x)
  }

  predicate OpponentMove(c: Conflict, p: nat, s: nat, x: nat)
    requires s < |c.feasibles| && x < |c.feasibles|
  {
    OpponentMoveBelow(c, p, |c.parties|, s, x)
  }

  /** The moves of every party other than p with index below q: reachable(q', s) concatenated. */
  function MovesOfOthers(c: Conflict, p: nat, s: nat, q: nat): (r: seq<nat>)
    requires q <= |c.parties| && s < |c.feasibles|
    ensures forall x: nat :: x in r <==> x < |c.feasibles| && OpponentMoveBelow(c, p, q, s, x)
    ensures forall k :: 0 <= k < |r| ==> r[k] < |c.feasibles|
  {
    if q == 0 then [] else MovesOfOthers(c, p, s, q - 1) + (if q - 1 != p then ReachList(c, q - 1, s) else [])
  }

  /** The improvements of every party other than p with index below q: UIs(q', s) concatenated. */
  function UIsOfOthers(c: Conflict, p: nat, s: nat, q: nat): (r: seq<nat>)
    requires ValidConflict(c) && q <= |c.parties| && s < |c.feasibles|
    ensures forall x: nat :: x in r <==> x < |c.feasibles| && OpponentUIBelow(c, p, q, s, x)
    ensures forall k :: 0 <= k < |r| ==> r[k] < |c.feasibles|
  {
    if q == 0 then [] else UIsOfOthers(c, p, s, q - 1) + (if q - 1 != p then UIList(c, q - 1, s, s) else [])
  }

  /**
   * The reachability matrices of every effective party, built once from a conflict snapshot;
   * reachable and UIs read their rows. Effective parties are indices into the snapshot's
   * party list.
   */
  class RMGenerator {
    const conflict: Conflict
    /** The finished reachability matrix of each effective party, row by row. */
    const reachability: seq<seq<seq<bool>>>

    ghost predicate Valid() {
      && ValidConflict(conflict)
      && |reachability| == |conflict.parties|
      && (forall p :: 0 <= p < |reachability| ==> |reachability[p]| == |conflict.feasibles|)
      && (forall p, i :: 0 <= p < |reachability| && 0 <= i < |conflict.feasibles| ==>
            |reachability[p][i]| == |conflict.feasibles|)
      && (forall p, i, j {:trigger reachability[p][i][j]} ::
            0 <= p < |reachability| && 0 <= i < |conflict.feasibles| && 0 <= j < |conflict.feasibles| ==>
            reachability[p][i][j] == Reach(conflict, p, i, j))
    }

    constructor (c: Conflict)
      requires ValidConflict(c)
      ensures Valid() && conflict == c
    {
      var N := |c.feasibles|;
      var rms: seq<seq<seq<bool>>> := [];
      for p := 0 to |c.parties|
        invariant |rms| == p
        invariant forall q :: 0 <= q < p ==> |rms[q]| == N
        invariant forall q, i :: 0 <= q < p && 0 <= i < N ==> |rms[q][i]| == N
        invariant forall q, i, j :: 0 <= q < p && 0 <= i < N && 0 <= j < N ==> rms[q][i][j] == Reach(c, q, i, j)
      {
        var rm := BuildReachability(c, p);
        var m := seq(N, i requires 0 <= i < N reads rm => seq(N, j requires 0 <= j < N reads rm => rm[i, j]));
        rms := rms + [m];
      }
      conflict := c;
      reachability := rms;
    }

    /**
     * reachable(dm, stateIdx): the columns of the set entries of row stateIdx, in increasing
     * order; ValueError for a party that is not effective.
     */
    method Reachable(p: nat, s: nat) returns (r: Result<seq<nat>>)
      requires Valid()
      ensures p >= |conflict.parties| ==> r == Err(ValueError("DM or Coalition not valid."))
      ensures p < |conflict.parties| && s >= |conflict.feasibles| ==> r.Err? && r.error.IndexError?
      ensures p < |conflict.parties| && s < |conflict.feasibles| ==> r == Ok(ReachList(conflict, p, s))
    {
      if p >= |reachability| {
        return Err(ValueError("DM or Coalition not valid."));
      }
      if s >= |conflict.feasibles| {
        return Err(IndexError("index out of bounds"));
      }
      var m := reachability[p];
      var row: seq<nat> := [];
      for j := 0 to |conflict.feasibles|
        invariant row == ReachBelow(conflict, p, s, j)
      {
        if m[s][j] {
          row := row + [j];
        }
      }
      return Ok(row);
    }

    /**
     * UIs(dm, stateIdx, refState): the columns where row stateIdx of the reachability matrix
     * times row refState of the payoff matrix is positive; refState defaults to stateIdx.
     */
    method UIs(p: nat, s: nat, refState: Option<nat>) returns (r: Result<seq<nat>>)
      requires Valid()
      ensures p >= |conflict.parties| ==> r == Err(ValueError("DM or Coalition not valid."))
      ensures p < |conflict.parties| && (s >= |conflict.feasibles| || refState.GetOr(s) >= |conflict.feasibles|) ==>
              r.Err? && r.error.IndexError?
      ensures p < |conflict.parties| && s < |conflict.feasibles| && refState.GetOr(s) < |conflict.feasibles| ==>
              r == Ok(UIList(conflict, p, s, refState.GetOr(s)))
    {
      if p >= |reachability| {
        return Err(ValueError("DM or Coalition not valid."));
      }
      var ref := refState.GetOr(s);
      if s >= |conflict.feasibles| || ref >= |conflict.feasibles| {
        return Err(IndexError("index out of bounds"));
      }
      var m := reachability[p];
      var row: seq<nat> := [];
      for j := 0 to |conflict.feasibles|
        invariant row == UIsBelow(conflict, p, s, ref, j)
      {
        if m[s][j] && Gain(conflict, p, ref, j) > 0 {
          row := row + [j];
        }
      }
      return Ok(row);
    }

    /** [x for o in effectiveDMs if o != p for x in reachable(o, s)] */
    method OpponentMoves(p: nat, s: nat) returns (xs: seq<nat>)
      requires Valid() && s < |conflict.feasibles|
      ensures xs == MovesOfOthers(conflict, p, s, |conflict.parties|)
    {
      xs := [];
      for q := 0 to |conflict.parties|
        invariant xs == MovesOfOthers(conflict, p, s, q)
      {
        if q != p {
          var u := Reachable(q, s);
          assert u == Ok(ReachList(conflict, q, s));
          xs := xs + u.value;
        }
      }
    }

    /** [x for o in effectiveDMs if o != p for x in UIs(o, s)] */
    method OpponentUIs(p: nat, s: nat) returns (xs: seq<nat>)
      requires Valid() && s < |conflict.feasibles|
      ensures xs == UIsOfOthers(conflict, p, s, |conflict.parties|)
    {
      xs := [];
      for q := 0 to |conflict.parties|
        invariant xs == UIsOfOthers(conflict, p, s, q)
      {
        if q != p {
          var u := UIs(q, s, None);
          assert u == Ok(UIList(conflict, q, s, s));
          xs := xs + u.value;
        }
      }
    }
  }
}
