/**
 * The inverse solver: given one desired state and a preference ranking per decision maker,
 * with a window of each ranking allowed to vary, it tries every combination of rearranged
 * rankings and records under which of them the desired state is a Nash, SEQ, GMR and SMR
 * equilibrium. Reachability comes from the conflict; payoffs come from each combination.
 * The inverse solver always works with the decision makers, never with coalitions.
 */
module Inverse {
  import opened Wrappers
  import opened Reachability
  import opened Permutations
  import opened Stability
  import opened Rankings
  import opened InverseFlags

  /** Every effective party is a decision maker (the solver is built without coalitions). */
  predicate AllDMs(c: Conflict) {
    forall o :: 0 <= o < |c.parties| ==> c.parties[o].DM?
  }

  /** One payoff row per decision maker, one payoff per feasible state. */
  predicate PayShape(c: Conflict, pay: seq<seq<int>>) {
    |pay| == |c.parties| && forall o :: 0 <= o < |pay| ==> |pay[o]| == |c.feasibles|
  }

  // ---------------------------------------------------------------------------------------
  // Stability under a payoff table

  /** dm reaches nothing it ranks above d. */
  predicate InvNash(c: Conflict, pay: seq<seq<int>>, dm: nat, d: nat)
    requires PayShape(c, pay) && dm < |c.parties| && d < |c.feasibles|
  {
    forall s1 :: 0 <= s1 < |c.feasibles| && Reach(c, dm, d, s1) ==> pay[dm][s1] <= pay[dm][d]
  }

  /** Every improvement s1 of dm can be met by some opponent's move to a state dm ranks below d. */
  predicate InvGmr(c: Conflict, pay: seq<seq<int>>, dm: nat, d: nat)
    requires PayShape(c, pay) && dm < |c.parties| && d < |c.feasibles|
  {
    forall s1 :: 0 <= s1 < |c.feasibles| && Reach(c, dm, d, s1) && pay[dm][d] < pay[dm][s1] ==>
      exists s2 :: 0 <= s2 < |c.feasibles| && OpponentMove(c, dm, s1, s2) && pay[dm][s2] < pay[dm][d]
  }

  /** Some opponent o of dm can move s1 -> s2 and ranks s2 above s1. */
  predicate RankedOpponentUIBelow(c: Conflict, pay: seq<seq<int>>, dm: nat, q: nat, s1: nat, s2: nat)
    requires PayShape(c, pay) && q <= |c.parties| && s1 < |c.feasibles| && s2 < |c.feasibles|
  {
    q > 0 &&
    (RankedOpponentUIBelow(c, pay, dm, q - 1, s1, s2) || (q - 1 != dm && Reach(c, q - 1, s1, s2) && pay[q - 1][s1] < pay[q - 1][s2]))
  }

  /** An opponent's improvement is in particular an opponent's move. */
  lemma {:induction false} RankedUIIsMove(c: Conflict, pay: seq<seq<int>>, dm: nat, q: nat, s1: nat, s2: nat)
    requires PayShape(c, pay) && q <= |c.parties| && s1 < |c.feasibles| && s2 < |c.feasibles|
    requires RankedOpponentUIBelow(c, pay, dm, q, s1, s2)
    ensures OpponentMoveBelow(c, dm, q, s1, s2)
    decreases q
  {
    if RankedOpponentUIBelow(c, pay, dm, q - 1, s1, s2) {
      RankedUIIsMove(c, pay, dm, q - 1, s1, s2);
    }
  }

  predicate RankedOpponentUI(c: Conflict, pay: seq<seq<int>>, dm: nat, s1: nat, s2: nat)
    requires PayShape(c, pay) && s1 < |c.feasibles| && s2 < |c.feasibles|
  {
    RankedOpponentUIBelow(c, pay, dm, |c.parties|, s1, s2)
  }

  /** Every improvement of dm can be met by an opponent's own improvement that dm ranks below d. */
  predicate InvSeq(c: Conflict, pay: seq<seq<int>>, dm: nat, d: nat)
    requires PayShape(c, pay) && dm < |c.parties| && d < |c.feasibles|
  {
    forall s1 :: 0 <= s1 < |c.feasibles| && Reach(c, dm, d, s1) && pay[dm][d] < pay[dm][s1] ==>
      exists s2 :: 0 <= s2 < |c.feasibles| && RankedOpponentUI(c, pay, dm, s1, s2) && pay[dm][s2] < pay[dm][d]
  }

  /** From s2, dm reaches nothing it ranks above d. */
  predicate InvNoCountermove(c: Conflict, pay: seq<seq<int>>, dm: nat, d: nat, s2: nat)
    requires PayShape(c, pay) && dm < |c.parties| && d < |c.feasibles| && s2 < |c.feasibles|
  {
    forall s3 :: 0 <= s3 < |c.feasibles| && Reach(c, dm, s2, s3) ==> pay[dm][s3] <= pay[dm][d]
  }

  /** Every improvement of dm can be met by an opponent's move to a lower state dm cannot escape from. */
  predicate InvSmr(c: Conflict, pay: seq<seq<int>>, dm: nat, d: nat)
    requires PayShape(c, pay) && dm < |c.parties| && d < |c.feasibles|
  {
    forall s1 :: 0 <= s1 < |c.feasibles| && Reach(c, dm, d, s1) && pay[dm][d] < pay[dm][s1] ==>
      exists s2 :: 0 <= s2 < |c.feasibles| && OpponentMove(c, dm, s1, s2) && pay[dm][s2] < pay[dm][d] &&
        InvNoCountermove(c, pay, dm, d, s2)
  }

  /** Nash implies every other inverse concept; SEQ and SMR each imply GMR. */
  lemma InverseInclusions(c: Conflict, pay: seq<seq<int>>, dm: nat, d: nat)
    requires ValidConflict(c) && PayShape(c, pay) && dm < |c.parties| && d < |c.feasibles|
    ensures InvNash(c, pay, dm, d) ==> InvSeq(c, pay, dm, d) && InvGmr(c, pay, dm, d) && InvSmr(c, pay, dm, d)
    ensures InvSeq(c, pay, dm, d) ==> InvGmr(c, pay, dm, d)
    ensures InvSmr(c, pay, dm, d) ==> InvGmr(c, pay, dm, d)
  {
    if InvSeq(c, pay, dm, d) {
      forall s1 | 0 <= s1 < |c.feasibles| && Reach(c, dm, d, s1) && pay[dm][d] < pay[dm][s1]
        ensures exists s2 :: 0 <= s2 < |c.feasibles| && OpponentMove(c, dm, s1, s2) && pay[dm][s2] < pay[dm][d]
      {
        var s2 :| 0 <= s2 < |c.feasibles| && RankedOpponentUI(c, pay, dm, s1, s2) && pay[dm][s2] < pay[dm][d];
        RankedUIIsMove(c, pay, dm, |c.parties|, s1, s2);
      }
    }
  }

  // ---------------------------------------------------------------------------------------
  // Stability as the solver's loops decide it

  /**
   * s1 is the highest-numbered state dm reaches from d and ranks above d: the improvement
   * the solver's loops end on, since reachable lists states in increasing order.
   */
  predicate HighestUI(c: Conflict, pay: seq<seq<int>>, dm: nat, d: nat, s1: nat)
    requires PayShape(c, pay) && dm < |c.parties| && d < |c.feasibles| && s1 < |c.feasibles|
  {
    && Reach(c, dm, d, s1) && pay[dm][d] < pay[dm][s1]
    && forall s' :: s1 < s' < |c.feasibles| && Reach(c, dm, d, s') ==> pay[dm][s'] <= pay[dm][d]
  }

  /** GMR as the loop decides it: the highest improvement can be met by an opponent's move below d. */
  predicate InvGmrAsWritten(c: Conflict, pay: seq<seq<int>>, dm: nat, d: nat)
    requires PayShape(c, pay) && dm < |c.parties| && d < |c.feasibles|
  {
    forall s1 :: 0 <= s1 < |c.feasibles| && HighestUI(c, pay, dm, d, s1) ==>
      exists s2 :: 0 <= s2 < |c.feasibles| && OpponentMove(c, dm, s1, s2) && pay[dm][s2] < pay[dm][d]
  }

  /** SEQ as the loop decides it: the highest improvement can be met by an opponent's improvement below d. */
  predicate InvSeqAsWritten(c: Conflict, pay: seq<seq<int>>, dm: nat, d: nat)
    requires PayShape(c, pay) && dm < |c.parties| && d < |c.feasibles|
  {
    forall s1 :: 0 <= s1 < |c.feasibles| && HighestUI(c, pay, dm, d, s1) ==>
      exists s2 :: 0 <= s2 < |c.feasibles| && RankedOpponentUI(c, pay, dm, s1, s2) && pay[dm][s2] < pay[dm][d]
  }

  /**
   * SMR as the loop decides it: among the opponents' moves from the highest improvement, in
   * the order reachable lists them party by party, the first one below d leaves dm no
   * countermove above d.
   */
  predicate InvSmrAsWritten(c: Conflict, pay: seq<seq<int>>, dm: nat, d: nat)
    requires PayShape(c, pay) && dm < |c.parties| && d < |c.feasibles|
  {
    forall s1 :: 0 <= s1 < |c.feasibles| && HighestUI(c, pay, dm, d, s1) ==>
      var sanc := MovesOfOthers(c, dm, s1, |c.parties|);
      exists w :: 0 <= w < |sanc| && FirstSanction(pay[dm], d, sanc, w) && InvNoCountermove(c, pay, dm, d, sanc[w])
  }

  /**
   * As the loops decide them, too, Nash implies the other three, and SEQ and SMR each imply
   * GMR; and the GMR and SEQ loops accept every decision maker the intended concepts accept.
   */
  lemma AsWrittenInclusions(c: Conflict, pay: seq<seq<int>>, dm: nat, d: nat)
    requires ValidConflict(c) && PayShape(c, pay) && dm < |c.parties| && d < |c.feasibles|
    ensures InvNash(c, pay, dm, d) ==>
      InvSeqAsWritten(c, pay, dm, d) && InvGmrAsWritten(c, pay, dm, d) && InvSmrAsWritten(c, pay, dm, d)
    ensures InvSeqAsWritten(c, pay, dm, d) ==> InvGmrAsWritten(c, pay, dm, d)
    ensures InvSmrAsWritten(c, pay, dm, d) ==> InvGmrAsWritten(c, pay, dm, d)
    ensures InvGmr(c, pay, dm, d) ==> InvGmrAsWritten(c, pay, dm, d)
    ensures InvSeq(c, pay, dm, d) ==> InvSeqAsWritten(c, pay, dm, d)
  {
    if InvSeqAsWritten(c, pay, dm, d) {
      forall s1 | 0 <= s1 < |c.feasibles| && HighestUI(c, pay, dm, d, s1)
        ensures exists s2 :: 0 <= s2 < |c.feasibles| && OpponentMove(c, dm, s1, s2) && pay[dm][s2] < pay[dm][d]
      {
        var s2 :| 0 <= s2 < |c.feasibles| && RankedOpponentUI(c, pay, dm, s1, s2) && pay[dm][s2] < pay[dm][d];
        RankedUIIsMove(c, pay, dm, |c.parties|, s1, s2);
      }
    }
    if InvSmrAsWritten(c, pay, dm, d) {
      forall s1 | 0 <= s1 < |c.feasibles| && HighestUI(c, pay, dm, d, s1)
        ensures exists s2 :: 0 <= s2 < |c.feasibles| && OpponentMove(c, dm, s1, s2) && pay[dm][s2] < pay[dm][d]
      {
        var sanc := MovesOfOthers(c, dm, s1, |c.parties|);
        var w :| 0 <= w < |sanc| && FirstSanction(pay[dm], d, sanc, w) && InvNoCountermove(c, pay, dm, d, sanc[w]);
        assert sanc[w] in sanc;
      }
    }
  }

  // ---------------------------------------------------------------------------------------
  // The lists _mblInit prepares and the SEQ lists of one payoff table

  /** mustBeLowerGMR[y][z]: every opponent's moves from the z-th state y reaches from d. */
  function GmrLists(c: Conflict, y: nat, d: nat): (r: seq<seq<nat>>)
    requires y < |c.parties| && d < |c.feasibles|
    ensures GmrShape(|c.feasibles|, ReachList(c, y, d), r)
  {
    var ups := ReachList(c, y, d);
    seq(|ups|, z requires 0 <= z < |ups| => MovesOfOthers(c, y, ups[z], |c.parties|))
  }

  /** The states y reaches from each of the states xs. */
  function ReachLists(c: Conflict, y: nat, xs: seq<nat>): (r: seq<seq<nat>>)
    requires y < |c.parties| && Below(xs, |c.feasibles|)
    ensures |r| == |xs| && AllBelow(r, |c.feasibles|)
  {
    seq(|xs|, w requires 0 <= w < |xs| => ReachList(c, y, xs[w]))
  }

  /** mustBeLowerSMR[y][z][w]: the states y reaches from the w-th sanction of its z-th move. */
  function CountermoveLists(c: Conflict, y: nat, d: nat): (r: seq<seq<seq<nat>>>)
    requires y < |c.parties| && d < |c.feasibles|
    ensures SmrShape(|c.feasibles|, ReachList(c, y, d), GmrLists(c, y, d), r)
  {
    var g := GmrLists(c, y, d);
    seq(|g|, z requires 0 <= z < |g| => ReachLists(c, y, g[z]))
  }

  /** [x for x in xs if payo[x] > payo[ref]] */
  function RankedUIs(payo: seq<int>, ref: nat, xs: seq<nat>): (r: seq<nat>)
    requires ref < |payo| && Below(xs, |payo|)
    ensures Below(r, |payo|)
    ensures forall x :: x in r <==> x in xs && payo[ref] < payo[x]
  {
    if xs == [] then []
    else
      var rest := RankedUIs(payo, ref, xs[1..]);
      assert xs == [xs[0]] + xs[1..];
      (if payo[ref] < payo[xs[0]] then [xs[0]] else []) + rest
  }

  /** mustBeLowerSEQ[y][z] as far as the opponents below q: their improvements from s1, concatenated. */
  function RankedUIsOfOthers(c: Conflict, pay: seq<seq<int>>, y: nat, s1: nat, q: nat): (r: seq<nat>)
    requires PayShape(c, pay) && q <= |c.parties| && s1 < |c.feasibles|
    ensures Below(r, |c.feasibles|)
  {
    if q == 0 then []
    else
      var mine := if q - 1 != y then RankedUIs(pay[q - 1], s1, ReachList(c, q - 1, s1)) else [];
      RankedUIsOfOthers(c, pay, y, s1, q - 1) + mine
  }

  /** The list holds exactly the improvements from s1 of the opponents below q. */
  lemma {:induction false} RankedUIsOfOthersMembers(c: Conflict, pay: seq<seq<int>>, y: nat, s1: nat, q: nat)
    requires PayShape(c, pay) && q <= |c.parties| && s1 < |c.feasibles|
    ensures forall x: nat :: x in RankedUIsOfOthers(c, pay, y, s1, q) <==>
      x < |c.feasibles| && RankedOpponentUIBelow(c, pay, y, q, s1, x)
    decreases q
  {
    if q > 0 {
      RankedUIsOfOthersMembers(c, pay, y, s1, q - 1);
      var prev := RankedUIsOfOthers(c, pay, y, s1, q - 1);
      var mine := if q - 1 != y then RankedUIs(pay[q - 1], s1, ReachList(c, q - 1, s1)) else [];
      assert RankedUIsOfOthers(c, pay, y, s1, q) == prev + mine;
      forall x: nat
        ensures x in prev + mine <==> x < |c.feasibles| && RankedOpponentUIBelow(c, pay, y, q, s1, x)
      {
        assert x in prev + mine <==> x in prev || x in mine;
        if x < |c.feasibles| {
          if q - 1 != y {
            assert x in mine <==> x in ReachList(c, q - 1, s1) && pay[q - 1][s1] < pay[q - 1][x];
          }
        } else {
          assert x !in prev && x !in mine;
        }
      }
    }
  }

  /** For each of the states xs, the improvements the other decision makers have from it. */
  function RankedUIsFrom(c: Conflict, pay: seq<seq<int>>, y: nat, xs: seq<nat>): (r: seq<seq<nat>>)
    requires PayShape(c, pay) && Below(xs, |c.feasibles|)
    ensures |r| == |xs| && AllBelow(r, |c.feasibles|)
  {
    if xs == [] then []
    else RankedUIsFrom(c, pay, y, xs[..|xs| - 1]) + [RankedUIsOfOthers(c, pay, y, xs[|xs| - 1], |c.parties|)]
  }

  /** Entry z of the lists is the improvements of the others from xs[z]. */
  lemma {:induction false} RankedUIsFromAt(c: Conflict, pay: seq<seq<int>>, y: nat, xs: seq<nat>, z: nat)
    requires PayShape(c, pay) && Below(xs, |c.feasibles|) && z < |xs|
    ensures RankedUIsFrom(c, pay, y, xs)[z] == RankedUIsOfOthers(c, pay, y, xs[z], |c.parties|)
    decreases |xs|
  {
    if z < |xs| - 1 {
      RankedUIsFromAt(c, pay, y, xs[..|xs| - 1], z);
    }
  }
  /** The SEQ flags of the first m decision makers, each judged as written on its own SEQ lists. */
  ghost function SeqFlags(c: Conflict, pay: seq<seq<int>>, ups: seq<seq<nat>>, d: nat, m: nat): (r: seq<bool>)
    requires PayShape(c, pay) && m <= |ups| && AllBelow(ups, |c.feasibles|) && (m > 0 ==> d < |c.feasibles|)
    requires m <= |pay|
    ensures |r| == m
  {
    if m == 0 then []
    else SeqFlags(c, pay, ups, d, m - 1) + [LastUISanctioned(pay[m - 1], d, ups[m - 1], RankedUIsFrom(c, pay, m - 1, ups[m - 1]))]
  }

  lemma {:induction false} SeqFlagsAt(c: Conflict, pay: seq<seq<int>>, ups: seq<seq<nat>>, d: nat, m: nat, dm: nat)
    requires PayShape(c, pay) && m <= |ups| && AllBelow(ups, |c.feasibles|) && (m > 0 ==> d < |c.feasibles|)
    requires m <= |pay| && dm < m
    ensures SeqFlags(c, pay, ups, d, m)[dm] == LastUISanctioned(pay[dm], d, ups[dm], RankedUIsFrom(c, pay, dm, ups[dm]))
    decreases m
  {
    var prev := SeqFlags(c, pay, ups, d, m - 1);
    assert SeqFlags(c, pay, ups, d, m)[dm] == if dm < m - 1 then prev[dm]
      else LastUISanctioned(pay[dm], d, ups[dm], RankedUIsFrom(c, pay, dm, ups[dm]));
    if dm < m - 1 {
      SeqFlagsAt(c, pay, ups, d, m - 1, dm);
    }
  }


  /** mustBeLowerSEQ[y]: for each state y reaches from d, the opponents' improvements from it. */
  function SeqLists(c: Conflict, pay: seq<seq<int>>, y: nat, d: nat): (r: seq<seq<nat>>)
    requires PayShape(c, pay) && y < |c.parties| && d < |c.feasibles|
    ensures GmrShape(|c.feasibles|, ReachList(c, y, d), r)
  {
    RankedUIsFrom(c, pay, y, ReachList(c, y, d))
  }

  // ---------------------------------------------------------------------------------------
  // The checks on those lists are the stability concepts above

  lemma NashListLink(c: Conflict, pay: seq<seq<int>>, dm: nat, d: nat)
    requires PayShape(c, pay) && dm < |c.parties| && d < |c.feasibles|
    ensures NoImprovement(pay[dm], d, ReachList(c, dm, d)) <==> InvNash(c, pay, dm, d)
  {
  }

  /** The GMR sanction search over s1's list finds exactly the opponents' moves below d. */
  lemma GmrSanctionLink(c: Conflict, pay: seq<seq<int>>, dm: nat, d: nat, s1: nat)
    requires PayShape(c, pay) && dm < |c.parties| && d < |c.feasibles| && s1 < |c.feasibles|
    ensures Below(MovesOfOthers(c, dm, s1, |c.parties|), |pay[dm]|)
    ensures SanctionIn(pay[dm], d, MovesOfOthers(c, dm, s1, |c.parties|)) <==>
      exists s2 :: 0 <= s2 < |c.feasibles| && OpponentMove(c, dm, s1, s2) && pay[dm][s2] < pay[dm][d]
  {
    var ms := MovesOfOthers(c, dm, s1, |c.parties|);
    if SanctionIn(pay[dm], d, ms) {
      var x :| x in ms && pay[dm][x] < pay[dm][d];
    }
    if exists s2 :: 0 <= s2 < |c.feasibles| && OpponentMove(c, dm, s1, s2) && pay[dm][s2] < pay[dm][d] {
      var s2 :| 0 <= s2 < |c.feasibles| && OpponentMove(c, dm, s1, s2) && pay[dm][s2] < pay[dm][d];
    }
  }

  lemma GmrListLink(c: Conflict, pay: seq<seq<int>>, dm: nat, d: nat)
    requires PayShape(c, pay) && dm < |c.parties| && d < |c.feasibles|
    ensures EveryUISanctioned(pay[dm], d, ReachList(c, dm, d), GmrLists(c, dm, d)) <==> InvGmr(c, pay, dm, d)
  {
    var ups := ReachList(c, dm, d);
    var g := GmrLists(c, dm, d);
    if EveryUISanctioned(pay[dm], d, ups, g) {
      forall s1 | 0 <= s1 < |c.feasibles| && Reach(c, dm, d, s1) && pay[dm][d] < pay[dm][s1]
        ensures exists s2 :: 0 <= s2 < |c.feasibles| && OpponentMove(c, dm, s1, s2) && pay[dm][s2] < pay[dm][d]
      {
        var z :| 0 <= z < |ups| && ups[z] == s1;
        GmrSanctionLink(c, pay, dm, d, s1);
      }
    }
    if InvGmr(c, pay, dm, d) {
      forall z | 0 <= z < |ups| && pay[dm][d] < pay[dm][ups[z]] ensures SanctionIn(pay[dm], d, g[z]) {
        GmrSanctionLink(c, pay, dm, d, ups[z]);
      }
    }
  }

  lemma SeqSanctionLink(c: Conflict, pay: seq<seq<int>>, dm: nat, d: nat, s1: nat)
    requires PayShape(c, pay) && dm < |c.parties| && d < |c.feasibles| && s1 < |c.feasibles|
    ensures SanctionIn(pay[dm], d, RankedUIsOfOthers(c, pay, dm, s1, |c.parties|)) <==>
      exists s2 :: 0 <= s2 < |c.feasibles| && RankedOpponentUI(c, pay, dm, s1, s2) && pay[dm][s2] < pay[dm][d]
  {
    var ms := RankedUIsOfOthers(c, pay, dm, s1, |c.parties|);
    RankedUIsOfOthersMembers(c, pay, dm, s1, |c.parties|);
    if SanctionIn(pay[dm], d, ms) {
      var x :| x in ms && pay[dm][x] < pay[dm][d];
    }
    if exists s2 :: 0 <= s2 < |c.feasibles| && RankedOpponentUI(c, pay, dm, s1, s2) && pay[dm][s2] < pay[dm][d] {
      var s2 :| 0 <= s2 < |c.feasibles| && RankedOpponentUI(c, pay, dm, s1, s2) && pay[dm][s2] < pay[dm][d];
    }
  }

  lemma SeqListLink(c: Conflict, pay: seq<seq<int>>, dm: nat, d: nat)
    requires PayShape(c, pay) && dm < |c.parties| && d < |c.feasibles|
    ensures EveryUISanctioned(pay[dm], d, ReachList(c, dm, d), SeqLists(c, pay, dm, d)) <==> InvSeq(c, pay, dm, d)
  {
    var ups := ReachList(c, dm, d);
    var g := SeqLists(c, pay, dm, d);
    if EveryUISanctioned(pay[dm], d, ups, g) {
      forall s1 | 0 <= s1 < |c.feasibles| && Reach(c, dm, d, s1) && pay[dm][d] < pay[dm][s1]
        ensures exists s2 :: 0 <= s2 < |c.feasibles| && RankedOpponentUI(c, pay, dm, s1, s2) && pay[dm][s2] < pay[dm][d]
      {
        var z :| 0 <= z < |ups| && ups[z] == s1;
        RankedUIsFromAt(c, pay, dm, ups, z);
        SeqSanctionLink(c, pay, dm, d, s1);
      }
    }
    if InvSeq(c, pay, dm, d) {
      forall z | 0 <= z < |ups| && pay[dm][d] < pay[dm][ups[z]] ensures SanctionIn(pay[dm], d, g[z]) {
        RankedUIsFromAt(c, pay, dm, ups, z);
        SeqSanctionLink(c, pay, dm, d, ups[z]);
      }
    }
  }

  lemma CountermoveLink(c: Conflict, pay: seq<seq<int>>, dm: nat, d: nat, s2: nat)
    requires PayShape(c, pay) && dm < |c.parties| && d < |c.feasibles| && s2 < |c.feasibles|
    ensures NoImprovement(pay[dm], d, ReachList(c, dm, s2)) <==> InvNoCountermove(c, pay, dm, d, s2)
  {
  }

  /** The SMR search over s1's sanctions finds exactly a move to a lower state without escape. */
  lemma SmrSanctionLink(c: Conflict, pay: seq<seq<int>>, dm: nat, d: nat, z: nat)
    requires PayShape(c, pay) && dm < |c.parties| && d < |c.feasibles| && z < |ReachList(c, dm, d)|
    ensures var s1 := ReachList(c, dm, d)[z];
      EscapeFree(pay[dm], d, GmrLists(c, dm, d)[z], CountermoveLists(c, dm, d)[z]) <==>
      exists s2 :: 0 <= s2 < |c.feasibles| && OpponentMove(c, dm, s1, s2) && pay[dm][s2] < pay[dm][d] &&
        InvNoCountermove(c, pay, dm, d, s2)
  {
    var s1 := ReachList(c, dm, d)[z];
    var sanc := GmrLists(c, dm, d)[z];
    var cms := CountermoveLists(c, dm, d)[z];
    assert sanc == MovesOfOthers(c, dm, s1, |c.parties|);
    if EscapeFree(pay[dm], d, sanc, cms) {
      var w :| 0 <= w < |sanc| && pay[dm][sanc[w]] < pay[dm][d] && NoImprovement(pay[dm], d, cms[w]);
      CountermoveLink(c, pay, dm, d, sanc[w]);
    }
    if exists s2 :: 0 <= s2 < |c.feasibles| && OpponentMove(c, dm, s1, s2) && pay[dm][s2] < pay[dm][d] &&
        InvNoCountermove(c, pay, dm, d, s2) {
      var s2 :| 0 <= s2 < |c.feasibles| && OpponentMove(c, dm, s1, s2) && pay[dm][s2] < pay[dm][d] &&
        InvNoCountermove(c, pay, dm, d, s2);
      SmrSanctionFound(c, pay, dm, d, z, s2);
    }
  }

  /** An opponent's move to a lower state without escape is among s1's sanctions, with its countermoves. */
  lemma SmrSanctionFound(c: Conflict, pay: seq<seq<int>>, dm: nat, d: nat, z: nat, s2: nat)
    requires PayShape(c, pay) && dm < |c.parties| && d < |c.feasibles| && z < |ReachList(c, dm, d)| && s2 < |c.feasibles|
    requires OpponentMove(c, dm, ReachList(c, dm, d)[z], s2) && pay[dm][s2] < pay[dm][d] && InvNoCountermove(c, pay, dm, d, s2)
    ensures EscapeFree(pay[dm], d, GmrLists(c, dm, d)[z], CountermoveLists(c, dm, d)[z])
  {
    var s1 := ReachList(c, dm, d)[z];
    var sanc := GmrLists(c, dm, d)[z];
    assert sanc == MovesOfOthers(c, dm, s1, |c.parties|);
    var w :| 0 <= w < |sanc| && sanc[w] == s2;
    CountermoveLink(c, pay, dm, d, s2);
  }

  lemma SmrListLink(c: Conflict, pay: seq<seq<int>>, dm: nat, d: nat)
    requires PayShape(c, pay) && dm < |c.parties| && d < |c.feasibles|
    ensures EveryUISmrSanctioned(pay[dm], d, ReachList(c, dm, d), GmrLists(c, dm, d), CountermoveLists(c, dm, d)) <==>
      InvSmr(c, pay, dm, d)
  {
    var ups := ReachList(c, dm, d);
    if EveryUISmrSanctioned(pay[dm], d, ups, GmrLists(c, dm, d), CountermoveLists(c, dm, d)) {
      forall s1 | 0 <= s1 < |c.feasibles| && Reach(c, dm, d, s1) && pay[dm][d] < pay[dm][s1]
        ensures exists s2 :: 0 <= s2 < |c.feasibles| && OpponentMove(c, dm, s1, s2) && pay[dm][s2] < pay[dm][d] &&
                             InvNoCountermove(c, pay, dm, d, s2)
      {
        var z :| 0 <= z < |ups| && ups[z] == s1;
        SmrSanctionLink(c, pay, dm, d, z);
      }
    }
    if InvSmr(c, pay, dm, d) {
      forall z | 0 <= z < |ups| && pay[dm][d] < pay[dm][ups[z]]
        ensures EscapeFree(pay[dm], d, GmrLists(c, dm, d)[z], CountermoveLists(c, dm, d)[z])
      {
        SmrSanctionLink(c, pay, dm, d, z);
      }
    }
  }

  /** On the list reachable returns, in increasing order, the improvement listed last is the highest. */
  lemma LastUIIsHighest(c: Conflict, pay: seq<seq<int>>, dm: nat, d: nat, z: nat)
    requires PayShape(c, pay) && dm < |c.parties| && d < |c.feasibles| && z < |ReachList(c, dm, d)|
    ensures LastUI(pay[dm], d, ReachList(c, dm, d), z) <==> HighestUI(c, pay, dm, d, ReachList(c, dm, d)[z])
  {
    var ups := ReachList(c, dm, d);
    ReachListIncreasing(c, dm, d);
    var s1 := ups[z];
    assert s1 in ups;
    if LastUI(pay[dm], d, ups, z) {
      forall s' | s1 < s' < |c.feasibles| && Reach(c, dm, d, s') ensures pay[dm][s'] <= pay[dm][d] {
        assert s' in ups;
        var z' :| 0 <= z' < |ups| && ups[z'] == s';
        assert z < z';
      }
    }
    if HighestUI(c, pay, dm, d, s1) {
      forall z' | z < z' < |ups| ensures pay[dm][ups[z']] <= pay[dm][d] {
        assert ups[z'] in ups;
      }
    }
  }

  /** The GMR loop as written, on _mblInit's lists, decides GMR as written. */
  lemma GmrAsWrittenListLink(c: Conflict, pay: seq<seq<int>>, dm: nat, d: nat)
    requires PayShape(c, pay) && dm < |c.parties| && d < |c.feasibles|
    ensures LastUISanctioned(pay[dm], d, ReachList(c, dm, d), GmrLists(c, dm, d)) <==> InvGmrAsWritten(c, pay, dm, d)
  {
    var ups := ReachList(c, dm, d);
    var g := GmrLists(c, dm, d);
    if LastUISanctioned(pay[dm], d, ups, g) {
      forall s1 | 0 <= s1 < |c.feasibles| && HighestUI(c, pay, dm, d, s1)
        ensures exists s2 :: 0 <= s2 < |c.feasibles| && OpponentMove(c, dm, s1, s2) && pay[dm][s2] < pay[dm][d]
      {
        assert s1 in ups;
        var z :| 0 <= z < |ups| && ups[z] == s1;
        LastUIIsHighest(c, pay, dm, d, z);
        GmrSanctionLink(c, pay, dm, d, s1);
      }
    }
    if InvGmrAsWritten(c, pay, dm, d) {
      forall z | 0 <= z < |ups| && LastUI(pay[dm], d, ups, z) ensures SanctionIn(pay[dm], d, g[z]) {
        LastUIIsHighest(c, pay, dm, d, z);
        GmrSanctionLink(c, pay, dm, d, ups[z]);
      }
    }
  }

  /** The SEQ loop as written, on the SEQ lists, decides SEQ as written. */
  lemma SeqAsWrittenListLink(c: Conflict, pay: seq<seq<int>>, dm: nat, d: nat)
    requires PayShape(c, pay) && dm < |c.parties| && d < |c.feasibles|
    ensures LastUISanctioned(pay[dm], d, ReachList(c, dm, d), SeqLists(c, pay, dm, d)) <==> InvSeqAsWritten(c, pay, dm, d)
  {
    var ups := ReachList(c, dm, d);
    var g := SeqLists(c, pay, dm, d);
    if LastUISanctioned(pay[dm], d, ups, g) {
      forall s1 | 0 <= s1 < |c.feasibles| && HighestUI(c, pay, dm, d, s1)
        ensures exists s2 :: 0 <= s2 < |c.feasibles| && RankedOpponentUI(c, pay, dm, s1, s2) && pay[dm][s2] < pay[dm][d]
      {
        assert s1 in ups;
        var z :| 0 <= z < |ups| && ups[z] == s1;
        LastUIIsHighest(c, pay, dm, d, z);
        RankedUIsFromAt(c, pay, dm, ups, z);
        SeqSanctionLink(c, pay, dm, d, s1);
      }
    }
    if InvSeqAsWritten(c, pay, dm, d) {
      forall z | 0 <= z < |ups| && LastUI(pay[dm], d, ups, z) ensures SanctionIn(pay[dm], d, g[z]) {
        LastUIIsHighest(c, pay, dm, d, z);
        RankedUIsFromAt(c, pay, dm, ups, z);
        SeqSanctionLink(c, pay, dm, d, ups[z]);
      }
    }
  }

  /** The countermove lists of the z-th improvement are dm's moves from each of its sanctions. */
  lemma CountermoveListsAt(c: Conflict, pay: seq<seq<int>>, dm: nat, d: nat, z: nat)
    requires PayShape(c, pay) && dm < |c.parties| && d < |c.feasibles| && z < |ReachList(c, dm, d)|
    ensures GmrLists(c, dm, d)[z] == MovesOfOthers(c, dm, ReachList(c, dm, d)[z], |c.parties|)
    ensures forall w :: 0 <= w < |GmrLists(c, dm, d)[z]| ==>
      (NoImprovement(pay[dm], d, CountermoveLists(c, dm, d)[z][w]) <==> InvNoCountermove(c, pay, dm, d, GmrLists(c, dm, d)[z][w]))
  {
    var g := GmrLists(c, dm, d);
    forall w | 0 <= w < |g[z]|
      ensures NoImprovement(pay[dm], d, CountermoveLists(c, dm, d)[z][w]) <==> InvNoCountermove(c, pay, dm, d, g[z][w])
    {
      CountermoveLink(c, pay, dm, d, g[z][w]);
    }
  }

  /** The SMR loop as written, on _mblInit's lists, decides SMR as written. */
  lemma SmrAsWrittenListLink(c: Conflict, pay: seq<seq<int>>, dm: nat, d: nat)
    requires PayShape(c, pay) && dm < |c.parties| && d < |c.feasibles|
    ensures LastUISmrSanctioned(pay[dm], d, ReachList(c, dm, d), GmrLists(c, dm, d), CountermoveLists(c, dm, d)) <==>
      InvSmrAsWritten(c, pay, dm, d)
  {
    var ups := ReachList(c, dm, d);
    var g := GmrLists(c, dm, d);
    var cm := CountermoveLists(c, dm, d);
    if LastUISmrSanctioned(pay[dm], d, ups, g, cm) {
      forall s1 | 0 <= s1 < |c.feasibles| && HighestUI(c, pay, dm, d, s1)
        ensures var sanc := MovesOfOthers(c, dm, s1, |c.parties|);
          exists w :: 0 <= w < |sanc| && FirstSanction(pay[dm], d, sanc, w) && InvNoCountermove(c, pay, dm, d, sanc[w])
      {
        assert s1 in ups;
        var z :| 0 <= z < |ups| && ups[z] == s1;
        LastUIIsHighest(c, pay, dm, d, z);
        CountermoveListsAt(c, pay, dm, d, z);
        var w :| 0 <= w < |g[z]| && FirstSanction(pay[dm], d, g[z], w) && NoImprovement(pay[dm], d, cm[z][w]);
      }
    }
    if InvSmrAsWritten(c, pay, dm, d) {
      forall z | 0 <= z < |ups| && LastUI(pay[dm], d, ups, z)
        ensures exists w :: 0 <= w < |g[z]| && FirstSanction(pay[dm], d, g[z], w) && NoImprovement(pay[dm], d, cm[z][w])
      {
        LastUIIsHighest(c, pay, dm, d, z);
        CountermoveListsAt(c, pay, dm, d, z);
        var sanc := MovesOfOthers(c, dm, ups[z], |c.parties|);
        var w :| 0 <= w < |sanc| && FirstSanction(pay[dm], d, sanc, w) && InvNoCountermove(c, pay, dm, d, sanc[w]);
      }
    }
  }

  // ---------------------------------------------------------------------------------------
  // The verdicts of one combination of rankings

  /**
   * Flag k of decision maker dm at d, as the solver's loops decide it, in the order the
   * solver stacks them: Nash, SEQ, GMR, SMR.
   */
  predicate Flag(k: nat, c: Conflict, pay: seq<seq<int>>, dm: nat, d: nat)
    requires PayShape(c, pay) && dm < |c.parties| && d < |c.feasibles|
  {
    if k == 0 then InvNash(c, pay, dm, d)
    else if k == 1 then InvSeqAsWritten(c, pay, dm, d)
    else if k == 2 then InvGmrAsWritten(c, pay, dm, d)
    else InvSmrAsWritten(c, pay, dm, d)
  }

  /** The four verdicts of one payoff table: verdict k holds when flag k holds for every decision maker. */
  function Verdicts(c: Conflict, pay: seq<seq<int>>, d: nat): (r: seq<bool>)
    requires PayShape(c, pay) && (|c.parties| > 0 ==> d < |c.feasibles|)
    ensures |r| == 4
    ensures forall k :: 0 <= k < 4 ==> (r[k] <==> forall dm :: 0 <= dm < |c.parties| ==> Flag(k, c, pay, dm, d))
  {
    seq(4, k requires 0 <= k < 4 => forall dm :: 0 <= dm < |c.parties| ==> Flag(k, c, pay, dm, d))
  }

  /** Nash implies the other three verdicts; SEQ and SMR each imply GMR. */
  predicate Ordered(v: seq<bool>)
    requires |v| == 4
  {
    (v[0] ==> v[1] && v[3]) && (v[1] ==> v[2]) && (v[3] ==> v[2])
  }

  /**
   * As the loops decide them, a Nash equilibrium is an equilibrium under every concept, and
   * SEQ and SMR equilibria are GMR ones.
   */
  lemma VerdictsOrdered(c: Conflict, pay: seq<seq<int>>, d: nat)
    requires ValidConflict(c) && PayShape(c, pay) && (|c.parties| > 0 ==> d < |c.feasibles|)
    ensures |Verdicts(c, pay, d)| == 4 && Ordered(Verdicts(c, pay, d))
  {
    forall dm | 0 <= dm < |c.parties|
      ensures Flag(0, c, pay, dm, d) ==> Flag(1, c, pay, dm, d) && Flag(3, c, pay, dm, d)
      ensures Flag(1, c, pay, dm, d) ==> Flag(2, c, pay, dm, d)
      ensures Flag(3, c, pay, dm, d) ==> Flag(2, c, pay, dm, d)
    {
      AsWrittenInclusions(c, pay, dm, d);
    }
  }

  /** Every combination holds one ranking per decision maker. */
  predicate Shaped(c: Conflict, combos: seq<seq<Ranking>>) {
    forall i :: 0 <= i < |combos| ==> |combos[i]| == |c.parties|
  }

  /** Every combination prefPermGen yields has one ranking per decision maker. */
  lemma PrefPermGenShaped<T>(prefVecs: seq<seq<T>>, vary: Option<seq<Option<Span>>>)
    requires PrefPermGen(prefVecs, vary).Ok?
    ensures forall i :: 0 <= i < |PrefPermGen(prefVecs, vary).value| ==> |PrefPermGen(prefVecs, vary).value[i]| == |prefVecs|
  {
    var combos := PrefPermGen(prefVecs, vary).value;
    forall i | 0 <= i < |combos| ensures |combos[i]| == |prefVecs| {
      if vary.Some? {
        assert combos[i] in combos;
        PrefPermGenMembers(prefVecs, vary.value, combos[i]);
      }
    }
  }

  /** Flag k of every decision maker under one payoff table. */
  ghost function FlagRow(c: Conflict, pay: seq<seq<int>>, k: nat, d: nat): (r: seq<bool>)
    requires PayShape(c, pay) && (|c.parties| > 0 ==> d < |c.feasibles|)
    ensures |r| == |c.parties| && forall dm :: 0 <= dm < |c.parties| ==> r[dm] == Flag(k, c, pay, dm, d)
  {
    seq(|c.parties|, dm requires 0 <= dm < |c.parties| => Flag(k, c, pay, dm, d))
  }

  /** The flag table of concept k: a row per combination of rankings, a flag per decision maker. */
  ghost function FlagRows(c: Conflict, d: nat, combos: seq<seq<Ranking>>, k: nat): (r: seq<seq<bool>>)
    requires Shaped(c, combos) && (|c.parties| > 0 ==> d < |c.feasibles|)
    ensures |r| == |combos|
    ensures forall i :: 0 <= i < |combos| ==> r[i] == FlagRow(c, PayoffTable(combos[i], |c.feasibles|), k, d)
  {
    seq(|combos|, i requires 0 <= i < |combos| => FlagRow(c, PayoffTable(combos[i], |c.feasibles|), k, d))
  }

  /** numpy.vstack of the four rows all(axis=1): row k says whether concept k holds for every decision maker. */
  function Stacked(t: seq<seq<seq<bool>>>): (r: seq<seq<bool>>)
    requires |t| == 4
    ensures |r| == 4 && forall k :: 0 <= k < 4 ==> |r[k]| == |t[k]|
  {
    [AllColumns(t[0]), AllColumns(t[1]), AllColumns(t[2]), AllColumns(t[3])]
  }

  /** The four flag tables of every combination, Nash, SEQ, GMR, SMR. */
  ghost function Tables(c: Conflict, d: nat, combos: seq<seq<Ranking>>): (r: seq<seq<seq<bool>>>)
    requires Shaped(c, combos) && (|c.parties| > 0 ==> d < |c.feasibles|)
    ensures |r| == 4 && forall k :: 0 <= k < 4 ==> |r[k]| == |combos|
  {
    [FlagRows(c, d, combos, 0), FlagRows(c, d, combos, 1), FlagRows(c, d, combos, 2), FlagRows(c, d, combos, 3)]
  }

  /** Column i of the stacked tables is the verdicts of combination i. */
  lemma StackedColumn(c: Conflict, d: nat, combos: seq<seq<Ranking>>, i: nat)
    requires Shaped(c, combos) && (|c.parties| > 0 ==> d < |c.feasibles|) && i < |combos|
    ensures Column(Stacked(Tables(c, d, combos)), i) == Verdicts(c, PayoffTable(combos[i], |c.feasibles|), d)
  {
    var t, pay := Tables(c, d, combos), PayoffTable(combos[i], |c.feasibles|);
    forall k | 0 <= k < 4
      ensures Column(Stacked(t), i)[k] == Verdicts(c, pay, d)[k]
    {
      assert t[k][i] == FlagRow(c, pay, k, d);
    }
  }

  /** Stacking the flag tables gives each combination its verdicts, in the order of the inclusions. */
  lemma StackedVerdicts(c: Conflict, d: nat, combos: seq<seq<Ranking>>)
    requires ValidConflict(c) && Shaped(c, combos) && (|c.parties| > 0 ==> d < |c.feasibles|)
    ensures forall i :: 0 <= i < |combos| ==>
      Column(Stacked(Tables(c, d, combos)), i) == Verdicts(c, PayoffTable(combos[i], |c.feasibles|), d)
    ensures forall i :: 0 <= i < |combos| ==> Ordered(Column(Stacked(Tables(c, d, combos)), i))
  {
    forall i | 0 <= i < |combos|
      ensures Column(Stacked(Tables(c, d, combos)), i) == Verdicts(c, PayoffTable(combos[i], |c.feasibles|), d)
      ensures Ordered(Column(Stacked(Tables(c, d, combos)), i))
    {
      StackedColumn(c, d, combos, i);
      VerdictsOrdered(c, PayoffTable(combos[i], |c.feasibles|), d);
    }
  }

  /** The Nash loop's row on _mblInit's lists is the Nash row. */
  lemma NashRowLink(c: Conflict, pay: seq<seq<int>>, d: nat, n: seq<bool>)
    requires PayShape(c, pay) && (|c.parties| > 0 ==> d < |c.feasibles|) && |n| == |c.parties|
    requires forall dm :: 0 <= dm < |c.parties| ==> n[dm] == NoImprovement(pay[dm], d, ReachList(c, dm, d))
    ensures n == FlagRow(c, pay, 0, d)
  {
    forall dm | 0 <= dm < |c.parties| ensures n[dm] == Flag(0, c, pay, dm, d) {
      NashListLink(c, pay, dm, d);
    }
  }

  /** The GMR loop's row, as written, on _mblInit's lists is the GMR row. */
  lemma GmrRowLink(c: Conflict, pay: seq<seq<int>>, d: nat, g: seq<bool>)
    requires PayShape(c, pay) && (|c.parties| > 0 ==> d < |c.feasibles|) && |g| == |c.parties|
    requires forall dm :: 0 <= dm < |c.parties| ==> g[dm] == LastUISanctioned(pay[dm], d, ReachList(c, dm, d), GmrLists(c, dm, d))
    ensures g == FlagRow(c, pay, 2, d)
  {
    forall dm | 0 <= dm < |c.parties| ensures g[dm] == Flag(2, c, pay, dm, d) {
      GmrAsWrittenListLink(c, pay, dm, d);
    }
  }

  /** The SEQ loop's row, as written, on the SEQ lists is the SEQ row. */
  lemma SeqRowLink(c: Conflict, pay: seq<seq<int>>, d: nat, ups: seq<seq<nat>>, sq: seq<bool>)
    requires PayShape(c, pay) && (|c.parties| > 0 ==> d < |c.feasibles|) && |ups| == |c.parties|
    requires forall dm :: 0 <= dm < |c.parties| ==> ups[dm] == ReachList(c, dm, d)
    requires AllBelow(ups, |c.feasibles|) && sq == SeqFlags(c, pay, ups, d, |ups|)
    ensures sq == FlagRow(c, pay, 1, d)
  {
    forall dm | 0 <= dm < |c.parties| ensures sq[dm] == Flag(1, c, pay, dm, d) {
      SeqFlagsAt(c, pay, ups, d, |ups|, dm);
      SeqAsWrittenListLink(c, pay, dm, d);
    }
  }

  /** The SMR loop's row, as written, on _mblInit's lists is the SMR row. */
  lemma SmrRowLink(c: Conflict, pay: seq<seq<int>>, d: nat, sm: seq<bool>)
    requires PayShape(c, pay) && (|c.parties| > 0 ==> d < |c.feasibles|) && |sm| == |c.parties|
    requires forall dm :: 0 <= dm < |c.parties| ==>
      sm[dm] == LastUISmrSanctioned(pay[dm], d, ReachList(c, dm, d), GmrLists(c, dm, d), CountermoveLists(c, dm, d))
    ensures sm == FlagRow(c, pay, 3, d)
  {
    forall dm | 0 <= dm < |c.parties| ensures sm[dm] == Flag(3, c, pay, dm, d) {
      SmrAsWrittenListLink(c, pay, dm, d);
    }
  }

  /** Every ranking of every combination gives each state it names a slot. */
  predicate AllSlotted(combos: seq<seq<Ranking>>, n: nat) {
    forall i, dm :: 0 <= i < |combos| && 0 <= dm < |combos[i]| ==> Slotted(combos[i][dm], n)
  }

  /** numpy's all(axis=1): per row of a table, whether every entry holds. */
  function AllColumns(t: seq<seq<bool>>): (r: seq<bool>)
    ensures |r| == |t| && forall i :: 0 <= i < |t| ==> (r[i] <==> forall j :: 0 <= j < |t[i]| ==> t[i][j])
  {
    seq(|t|, i requires 0 <= i < |t| => forall j :: 0 <= j < |t[i]| ==> t[i][j])
  }

  // ---------------------------------------------------------------------------------------
  // filter

  /** One row filter returns: a combination of rankings followed by its four verdicts. */
  datatype FilteredRow = FilteredRow(rankings: seq<Ranking>, verdicts: seq<bool>)

  /**
   * numpy.greater_equal(eqms, filt).all() on booleans: every concept the filter asks for
   * holds. A one-entry filter is broadcast to all four concepts.
   */
  predicate Passes(eqms: seq<bool>, filt: seq<bool>)
    requires |eqms| == 4 && (|filt| == 1 || |filt| == 4)
  {
    forall k :: 0 <= k < 4 ==> (filt[if |filt| == 1 then 0 else k] ==> eqms[k])
  }

  /** The verdicts of combination i: column i of the stacked rows. */
  function Column(eq: seq<seq<bool>>, i: nat): (r: seq<bool>)
    requires |eq| == 4 && forall k :: 0 <= k < 4 ==> i < |eq[k]|
    ensures |r| == 4 && forall k :: 0 <= k < 4 ==> r[k] == eq[k][i]
  {
    [eq[0][i], eq[1][i], eq[2][i], eq[3][i]]
  }

  /** The rows filter keeps among the first m combinations, in order. */
  function Selected(pv: seq<seq<Ranking>>, eq: seq<seq<bool>>, filt: seq<bool>, m: nat): (r: seq<FilteredRow>)
    requires m <= |pv| && |eq| == 4 && (forall k :: 0 <= k < 4 ==> |eq[k]| == |pv|) && (|filt| == 1 || |filt| == 4)
    ensures |r| <= m
  {
    if m == 0 then []
    else
      var rest := Selected(pv, eq, filt, m - 1);
      if Passes(Column(eq, m - 1), filt) then rest + [FilteredRow(pv[m - 1], Column(eq, m - 1))] else rest
  }

  /** filter keeps exactly the combinations whose verdicts pass, each with its verdicts. */
  lemma {:induction false} SelectedMembers(pv: seq<seq<Ranking>>, eq: seq<seq<bool>>, filt: seq<bool>, m: nat)
    requires m <= |pv| && |eq| == 4 && (forall k :: 0 <= k < 4 ==> |eq[k]| == |pv|) && (|filt| == 1 || |filt| == 4)
    ensures forall i :: 0 <= i < m && Passes(Column(eq, i), filt) ==> FilteredRow(pv[i], Column(eq, i)) in Selected(pv, eq, filt, m)
    ensures forall row :: row in Selected(pv, eq, filt, m) ==>
      && |row.verdicts| == 4 && Passes(row.verdicts, filt)
      && exists i :: 0 <= i < m && row == FilteredRow(pv[i], Column(eq, i))
    decreases m
  {
    if m > 0 {
      SelectedMembers(pv, eq, filt, m - 1);
    }
  }

  /** The number of true entries: one count of numpy's sum(axis=1). */
  function Count(row: seq<bool>): (r: nat)
    ensures r <= |row|
  {
    if row == [] then 0 else Count(row[..|row| - 1]) + (if row[|row| - 1] then 1 else 0)
  }

  /** A row that holds wherever another holds counts at least as many entries. */
  lemma {:induction false} CountMonotone(a: seq<bool>, b: seq<bool>)
    requires |a| == |b| && forall i :: 0 <= i < |a| && a[i] ==> b[i]
    ensures Count(a) <= Count(b)
    decreases |a|
  {
    if a != [] {
      CountMonotone(a[..|a| - 1], b[..|b| - 1]);
    }
  }

  /** Nash counts no more than SEQ and SMR, and each of those no more than GMR. */
  lemma CountsOrdered(eq: seq<seq<bool>>, m: nat)
    requires |eq| == 4 && (forall k :: 0 <= k < 4 ==> |eq[k]| == m)
    requires forall i :: 0 <= i < m ==> Ordered(Column(eq, i))
    ensures Count(eq[0]) <= Count(eq[1]) <= Count(eq[2]) && Count(eq[0]) <= Count(eq[3]) <= Count(eq[2])
  {
    forall i | 0 <= i < m
      ensures (eq[0][i] ==> eq[1][i] && eq[3][i]) && (eq[1][i] ==> eq[2][i]) && (eq[3][i] ==> eq[2][i])
    {
      assert Ordered(Column(eq, i));
    }
    CountMonotone(eq[0], eq[1]);
    CountMonotone(eq[1], eq[2]);
    CountMonotone(eq[0], eq[3]);
    CountMonotone(eq[3], eq[2]);
  }

  // ---------------------------------------------------------------------------------------
  // Reading vary

  /** The states a run of ranking entries names, in order, as the constructor collects them. */
  function EntryStates(es: seq<RankEntry>): (r: seq<nat>)
    ensures forall z :: z in r <==> exists i :: 0 <= i < |es| && z in Members(es[i])
  {
    if es == [] then []
    else
      var rest := EntryStates(es[1..]);
      assert forall i :: 0 < i < |es| ==> es[i] == es[1..][i - 1];
      Members(es[0]) + rest
  }

  /**
   * The states window sp of ranking rk varies (variedStates before one is subtracted from
   * each): every state named by an entry of preferenceVector[lo:hi].
   */
  function VariedStates(rk: Ranking, sp: Span): seq<nat> {
    EntryStates(Slice(rk, sp.lo, sp.hi))
  }

  /**
   * Marking the varied states of a window as unordered in an n x n matrix writes entry
   * [s0 - 1, s1 - 1] for every two distinct varied states s0 and s1, and raises IndexError
   * when one of the two has no slot (Slot is Python's index s - 1, with -1 the last).
   */
  predicate MarkingFails(vs: seq<nat>, n: nat) {
    exists i, j :: 0 <= i < |vs| && 0 <= j < |vs| && vs[i] != vs[j] && (Slot(vs[i], n).None? || Slot(vs[j], n).None?)
  }

  /** Marking fails exactly when the window names a state without a slot and two distinct states. */
  lemma MarkingFailsMeaning(vs: seq<nat>, n: nat)
    ensures MarkingFails(vs, n) <==>
      (exists k :: 0 <= k < |vs| && Slot(vs[k], n).None?) && exists i, j :: 0 <= i < |vs| && 0 <= j < |vs| && vs[i] != vs[j]
  {
  }

  /** The constructor's double loop over the varied states: true when every write lands in the matrix. */
  method MarkUnordered(vs: seq<nat>, n: nat) returns (fits: bool)
    ensures fits <==> !MarkingFails(vs, n)
  {
    for i := 0 to |vs|
      invariant forall i', j :: 0 <= i' < i && 0 <= j < |vs| && vs[i'] != vs[j] ==> Slot(vs[i'], n).Some? && Slot(vs[j], n).Some?
    {
      for j := 0 to |vs|
        invariant forall j' :: 0 <= j' < j && vs[i] != vs[j'] ==> Slot(vs[i], n).Some? && Slot(vs[j'], n).Some?
      {
        if vs[i] != vs[j] && (Slot(vs[i], n).None? || Slot(vs[j], n).None?) {
          return false;
        }
      }
    }
    return true;
  }

  /**
   * What the constructor raises for decision maker x, if anything: vary[x] is missing or None,
   * or marking the states of its window fails in an m x m matrix.
   */
  function WindowError(spans: seq<Option<Span>>, prefVecs: seq<Ranking>, m: nat, x: nat): Option<Error>
    requires x < |prefVecs|
  {
    if x >= |spans| then Some(IndexError("list index out of range"))
    else if spans[x].None? then Some(TypeError("'NoneType' object is not subscriptable"))
    else if MarkingFails(VariedStates(prefVecs[x], spans[x].value), m) then Some(IndexError("index out of bounds"))
    else None
  }

  /**
   * The constructor's pass over the decision makers from idx on: it raises the error of the
   * first decision maker whose window cannot be read or marked.
   */
  function VaryOutcomeFrom(spans: seq<Option<Span>>, prefVecs: seq<Ranking>, m: nat, n: nat, idx: nat): (r: Outcome)
    requires n <= |prefVecs|
    ensures r.Fail? <==> exists x :: idx <= x < n && WindowError(spans, prefVecs, m, x).Some?
    ensures r.Fail? ==> exists x :: (idx <= x < n && WindowError(spans, prefVecs, m, x) == Some(r.error) &&
      forall y :: idx <= y < x ==> WindowError(spans, prefVecs, m, y).None?)
    ensures r.Fail? ==> r.error.IndexError? || r.error.TypeError?
    ensures idx < n && |spans| < n && (forall x :: idx <= x < |spans| ==> WindowError(spans, prefVecs, m, x).None?) ==>
      r == Fail(IndexError("list index out of range"))
    decreases n - idx
  {
    if idx >= n then Pass
    else match WindowError(spans, prefVecs, m, idx)
      case Some(e) => Fail(e)
      case None => VaryOutcomeFrom(spans, prefVecs, m, n, idx + 1)
  }

  /**
   * What InverseSolver(conflict, vary, ...) raises for n decision makers with rankings prefVecs
   * over m feasible states, if anything.
   */
  function VaryOutcome(vary: Option<seq<Option<Span>>>, prefVecs: seq<Ranking>, m: nat, n: nat): (r: Outcome)
    requires n <= |prefVecs|
    ensures r.Fail? <==> vary.Some? && exists x :: 0 <= x < n && WindowError(vary.value, prefVecs, m, x).Some?
    ensures r.Fail? ==> exists x :: (0 <= x < n && WindowError(vary.value, prefVecs, m, x) == Some(r.error) &&
      forall y :: 0 <= y < x ==> WindowError(vary.value, prefVecs, m, y).None?)
    ensures vary.Some? && |vary.value| < n && (forall x :: 0 <= x < |vary.value| ==> WindowError(vary.value, prefVecs, m, x).None?) ==>
      r == Fail(IndexError("list index out of range"))
  {
    match vary
    case None => Pass
    case Some(spans) =>
      VaryOutcomeFrom(spans, prefVecs, m, n, 0)
  }

  /**
   * Two feasible states, one decision maker ranking [3, 1] with the whole ranking varied: the
   * varied states 3 and 1 are distinct and 3 has no slot, so construction raises IndexError.
   */
  lemma VariedStateWithoutSlot()
    ensures VaryOutcome(Some([Some(Span(0, 2))]), [[Single(3), Single(1)]], 2, 1) == Fail(IndexError("index out of bounds"))
  {
    var rk: Ranking := [Single(3), Single(1)];
    var vs := VariedStates(rk, Span(0, 2));
    assert Slice(rk, 0, 2) == rk;
    assert EntryStates(rk[1..]) == [1];
    assert vs == [3, 1];
    assert vs[0] != vs[1] && Slot(vs[0], 2).None?;
  }

  // ---------------------------------------------------------------------------------------
  // The solver

  class InverseSolver {
    /** The reachability of the decision makers, built without coalitions. */
    const rm: RMGenerator
    /** The desired equilibrium state. */
    const desEq: nat
    /** Each decision maker's window of its ranking allowed to vary. */
    const vary: Option<seq<Option<Span>>>
    /** Each decision maker's preference ranking. */
    const prefVecs: seq<Ranking>

    var mustBeLowerNash: seq<seq<nat>>
    var mustBeLowerGMR: seq<seq<seq<nat>>>
    var mustBeLowerSMR: seq<seq<seq<seq<nat>>>>
    var preferenceVectors: seq<seq<Ranking>>
    /** Per combination of rankings (row) and decision maker (column), the four stability flags. */
    var nash: seq<seq<bool>>
    var gmr: seq<seq<bool>>
    var seqFlags: seq<seq<bool>>
    var smr: seq<seq<bool>>
    /** The rows Nash, SEQ, GMR and SMR, one column per combination, once findEquilibria has run. */
    var equilibriums: seq<seq<bool>>
    /** findEquilibria has completed. */
    var solved: bool

    ghost predicate Valid() {
      rm.Valid() && AllDMs(rm.conflict) && |prefVecs| == |rm.conflict.parties|
    }

    /** The desired state indexes a feasible state whenever some decision maker needs it. */
    ghost predicate DesiredInRange() {
      |rm.conflict.parties| > 0 ==> desEq < |rm.conflict.feasibles|
    }

    /** _mblInit has filled the must-be-lower lists. */
    ghost predicate Prepared()
      reads this`mustBeLowerNash, this`mustBeLowerGMR, this`mustBeLowerSMR
    {
      && DesiredInRange()
      && |mustBeLowerNash| == |rm.conflict.parties|
      && |mustBeLowerGMR| == |rm.conflict.parties|
      && |mustBeLowerSMR| == |rm.conflict.parties|
      && forall y :: 0 <= y < |rm.conflict.parties| ==>
           && mustBeLowerNash[y] == ReachList(rm.conflict, y, desEq)
           && mustBeLowerGMR[y] == GmrLists(rm.conflict, y, desEq)
           && mustBeLowerSMR[y] == CountermoveLists(rm.conflict, y, desEq)
    }

    constructor (c: Conflict, vary: Option<seq<Option<Span>>>, desEq: nat, prefVecs: seq<Ranking>)
      requires ValidConflict(c) && AllDMs(c) && |prefVecs| == |c.parties|
      ensures Valid() && rm.conflict == c && this.desEq == desEq && this.vary == vary && this.prefVecs == prefVecs
      ensures !solved
    {
      rm := new RMGenerator(c);
      this.desEq := desEq;
      this.vary := vary;
      this.prefVecs := prefVecs;
      mustBeLowerNash, mustBeLowerGMR, mustBeLowerSMR := [], [], [];
      preferenceVectors := [];
      nash, gmr, seqFlags, smr := [], [], [], [];
      equilibriums := [];
      solved := false;
    }

    /** mustBeLowerGMR[y]: for each state y reaches from the desired state, the opponents' moves from it. */
    method SanctionLists(y: nat, ups: seq<nat>) returns (g: seq<seq<nat>>)
      requires Valid() && y < |rm.conflict.parties| && desEq < |rm.conflict.feasibles|
      requires ups == ReachList(rm.conflict, y, desEq)
      ensures g == GmrLists(rm.conflict, y, desEq)
    {
      var c := rm.conflict;
      g := [];
      for z := 0 to |ups|
        invariant g == GmrLists(c, y, desEq)[..z]
      {
        var ms := rm.OpponentMoves(y, ups[z]);
        g := g + [ms];
      }
    }

    /** The decision maker's moves from each sanction of one improvement. */
    method CountermovesOf(y: nat, sanc: seq<nat>) returns (row: seq<seq<nat>>)
      requires Valid() && y < |rm.conflict.parties| && Below(sanc, |rm.conflict.feasibles|)
      ensures row == ReachLists(rm.conflict, y, sanc)
    {
      row := [];
      for w := 0 to |sanc|
        invariant row == ReachLists(rm.conflict, y, sanc)[..w]
      {
        var u := rm.Reachable(y, sanc[w]);
        row := row + [u.value];
      }
    }

    /** mustBeLowerSMR[y]: for each sanction of each move, the states y reaches from the sanction. */
    method CountermoveListsOf(y: nat, g: seq<seq<nat>>) returns (cm: seq<seq<seq<nat>>>)
      requires Valid() && y < |rm.conflict.parties| && desEq < |rm.conflict.feasibles|
      requires g == GmrLists(rm.conflict, y, desEq)
      ensures cm == CountermoveLists(rm.conflict, y, desEq)
    {
      cm := [];
      for z := 0 to |g|
        invariant |cm| == z
        invariant forall z' :: 0 <= z' < z ==> cm[z'] == ReachLists(rm.conflict, y, g[z'])
      {
        var row := CountermovesOf(y, g[z]);
        cm := cm + [row];
      }
    }

    /**
     * _mblInit: the states each decision maker reaches from the desired state, the opponents'
     * moves from each, and the decision maker's moves from each of those. A desired state
     * outside the feasible states fails on the first decision maker.
     */
    method MblInit() returns (o: Outcome)
      requires Valid()
      modifies this
      ensures o.Fail? <==> !DesiredInRange()
      ensures o.Fail? ==> o.error.IndexError? && unchanged(this)
      ensures o.Pass? ==> Valid() && Prepared()
      ensures o.Pass? ==> solved == old(solved) && preferenceVectors == old(preferenceVectors) && equilibriums == old(equilibriums)
    {
      var c := rm.conflict;
      var nashL: seq<seq<nat>> := [];
      for y := 0 to |c.parties|
        invariant |nashL| == y && (y > 0 ==> desEq < |c.feasibles|)
        invariant forall y' :: 0 <= y' < y ==> nashL[y'] == ReachList(c, y', desEq)
        invariant unchanged(this)
      {
        var u := rm.Reachable(y, desEq);
        if u.Err? {
          return Fail(u.error);
        }
        nashL := nashL + [u.value];
      }
      var gmrL: seq<seq<seq<nat>>> := [];
      var smrL: seq<seq<seq<seq<nat>>>> := [];
      for y := 0 to |c.parties|
        invariant |gmrL| == y && |smrL| == y
        invariant forall y' :: 0 <= y' < y ==> gmrL[y'] == GmrLists(c, y', desEq) && smrL[y'] == CountermoveLists(c, y', desEq)
        invariant unchanged(this)
      {
        var g := SanctionLists(y, nashL[y]);
        var cm := CountermoveListsOf(y, g);
        gmrL := gmrL + [g];
        smrL := smrL + [cm];
      }
      mustBeLowerNash, mustBeLowerGMR, mustBeLowerSMR := nashL, gmrL, smrL;
      return Pass;
    }

    /**
     * [x for x in reachable(o, s1) if payoffs[o][x] > payoffs[o][s1]] over every opponent o
     * of y; reachable(o, s1) is ReachList, the row RMGenerator.Reachable returns.
     */
    method OpponentRankedUIs(pay: seq<seq<int>>, y: nat, s1: nat) returns (xs: seq<nat>)
      requires PayShape(rm.conflict, pay) && s1 < |rm.conflict.feasibles|
      ensures xs == RankedUIsOfOthers(rm.conflict, pay, y, s1, |rm.conflict.parties|)
    {
      var c := rm.conflict;
      xs := [];
      for dm2 := 0 to |c.parties|
        invariant xs == RankedUIsOfOthers(c, pay, y, s1, dm2)
      {
        var mine: seq<nat> := [];
        if y != dm2 {
          var ups := ReachList(c, dm2, s1);
          assert Below(ups, |pay[dm2]|);
          mine := RankedUIs(pay[dm2], s1, ups);
        }
        xs := xs + mine;
      }
    }

    /** mustBeLowerSEQ[y] for one payoff table: the opponents' improvements from each state y reaches. */
    method SeqListsOf(pay: seq<seq<int>>, y: nat, ups: seq<nat>) returns (sl: seq<seq<nat>>)
      requires PayShape(rm.conflict, pay) && Below(ups, |rm.conflict.feasibles|)
      ensures sl == RankedUIsFrom(rm.conflict, pay, y, ups)
    {
      sl := [];
      for z := 0 to |ups|
        invariant sl == RankedUIsFrom(rm.conflict, pay, y, ups[..z])
      {
        var xs := OpponentRankedUIs(pay, y, ups[z]);
        assert ups[..z + 1][..z] == ups[..z];
        sl := sl + [xs];
      }
      assert ups[..|ups|] == ups;
    }

    /**
     * The SEQ loop, each decision maker's SEQ lists (mustBeLowerSEQ) built from the payoffs
     * just before its check, starting from its Nash flag.
     */
    method SeqRow(pay: seq<seq<int>>, ups: seq<seq<nat>>, n: seq<bool>) returns (sq: seq<bool>)
      requires PayShape(rm.conflict, pay) && |ups| == |pay| && |n| == |pay| && (|pay| > 0 ==> desEq < |rm.conflict.feasibles|)
      requires AllBelow(ups, |rm.conflict.feasibles|)
      requires forall dm :: 0 <= dm < |pay| ==> n[dm] == NoImprovement(pay[dm], desEq, ups[dm])
      ensures sq == SeqFlags(rm.conflict, pay, ups, desEq, |pay|)
    {
      sq := [];
      for dm := 0 to |pay|
        invariant sq == SeqFlags(rm.conflict, pay, ups, desEq, dm)
      {
        var sl := SeqListsOf(pay, dm, ups[dm]);
        var b := LastUISanctionedFlag(pay[dm], desEq, ups[dm], sl, n[dm]);
        sq := sq + [b];
      }
    }

    /** One combination's rows of the four flag tables, Nash, SEQ, GMR, SMR. */
    method ComboFlags(pay: seq<seq<int>>) returns (r: seq<seq<bool>>)
      requires Prepared() && PayShape(rm.conflict, pay)
      ensures r == [FlagRow(rm.conflict, pay, 0, desEq), FlagRow(rm.conflict, pay, 1, desEq),
                    FlagRow(rm.conflict, pay, 2, desEq), FlagRow(rm.conflict, pay, 3, desEq)]
    {
      var c, d := rm.conflict, desEq;
      var ups, gmrL, smrL := mustBeLowerNash, mustBeLowerGMR, mustBeLowerSMR;
      var n := NashRow(pay, d, ups);
      NashRowLink(c, pay, d, n);
      var g := SanctionedRow(pay, d, ups, gmrL, n);
      GmrRowLink(c, pay, d, g);
      var sq := SeqRow(pay, ups, n);
      SeqRowLink(c, pay, d, ups, sq);
      var sm := SmrRow(pay, d, ups, gmrL, smrL, n);
      SmrRowLink(c, pay, d, sm);
      return [n, sq, g, sm];
    }

    /**
     * The loop over the combinations: each one's payoff table (an IndexError for a ranking
     * naming a state without a slot) and a row of each flag table.
     */
    method CheckCombos(combos: seq<seq<Ranking>>) returns (r: Result<seq<seq<seq<bool>>>>)
      requires Prepared() && Shaped(rm.conflict, combos)
      ensures r.Ok? <==> AllSlotted(combos, |rm.conflict.feasibles|)
      ensures r.Err? ==> r.error.IndexError?
      ensures r.Ok? ==> r.value == Tables(rm.conflict, desEq, combos)
    {
      var c, d, N := rm.conflict, desEq, |rm.conflict.feasibles|;
      var nashT: seq<seq<bool>>, seqT: seq<seq<bool>>, gmrT: seq<seq<bool>>, smrT: seq<seq<bool>> := [], [], [], [];
      for i := 0 to |combos|
        invariant forall i', dm :: 0 <= i' < i && 0 <= dm < |combos[i']| ==> Slotted(combos[i'][dm], N)
        invariant nashT == FlagRows(c, d, combos, 0)[..i]
        invariant seqT == FlagRows(c, d, combos, 1)[..i]
        invariant gmrT == FlagRows(c, d, combos, 2)[..i]
        invariant smrT == FlagRows(c, d, combos, 3)[..i]
      {
        var pay := ComboPayoffs(combos[i], N);
        if pay.Err? {
          return Err(pay.error);
        }
        var row := ComboFlags(pay.value);
        nashT, seqT, gmrT, smrT := nashT + [row[0]], seqT + [row[1]], gmrT + [row[2]], smrT + [row[3]];
      }
      assert nashT == FlagRows(c, d, combos, 0) && seqT == FlagRows(c, d, combos, 1);
      assert gmrT == FlagRows(c, d, combos, 2) && smrT == FlagRows(c, d, combos, 3);
      return Ok([nashT, seqT, gmrT, smrT]);
    }

    /** findEquilibria has run to completion: the stacked rows cover every combination, Nash first. */
    ghost predicate Solved()
      reads this`equilibriums, this`preferenceVectors
    {
      && |equilibriums| == 4
      && (forall k :: 0 <= k < 4 ==> |equilibriums[k]| == |preferenceVectors|)
      && forall i :: 0 <= i < |preferenceVectors| ==> Ordered(Column(equilibriums, i))
    }

    /** Results are only claimed once findEquilibria has completed. */
    ghost predicate Consistent()
      reads this`solved, this`equilibriums, this`preferenceVectors
    {
      solved ==> Solved()
    }

    /**
     * The tables hold what findEquilibria computes for the current preference vectors: per
     * combination and decision maker the four flags, and per combination the four verdicts.
     */
    ghost predicate Results()
      reads this
    {
      && Shaped(rm.conflict, preferenceVectors) && DesiredInRange()
      && [nash, seqFlags, gmr, smr] == Tables(rm.conflict, desEq, preferenceVectors)
      && equilibriums == Stacked([nash, seqFlags, gmr, smr])
      && forall i :: 0 <= i < |preferenceVectors| ==>
           Column(equilibriums, i) == Verdicts(rm.conflict, PayoffTable(preferenceVectors[i], |rm.conflict.feasibles|), desEq)
    }

    /**
     * findEquilibria: _mblInit, then every combination of rankings prefPermGen yields; for
     * each, its payoff table and the four flags of every decision maker at the desired
     * state. The stacked rows are Nash, SEQ, GMR, SMR, each true for a combination when
     * every decision maker is stable under it.
     */
    method FindEquilibria() returns (o: Outcome)
      requires Valid()
      modifies this
      ensures Consistent()
      ensures o.Pass? <==> solved
      ensures !DesiredInRange() ==> o.Fail? && o.error.IndexError?
      ensures DesiredInRange() && PrefPermGen(prefVecs, vary).Err? ==> o == Fail(PrefPermGen(prefVecs, vary).error)
      ensures DesiredInRange() && PrefPermGen(prefVecs, vary).Ok? ==>
        && (o.Pass? <==> AllSlotted(PrefPermGen(prefVecs, vary).value, |rm.conflict.feasibles|))
        && (o.Fail? ==> o.error.IndexError?)
      ensures o.Pass? ==> Prepared() && Results() && preferenceVectors == PrefPermGen(prefVecs, vary).value
    {
      solved := false;
      o := MblInit();
      if o.Fail? {
        return;
      }
      o := Solve();
    }

    /** The part of findEquilibria after _mblInit. */
    method Solve() returns (o: Outcome)
      requires Prepared() && ValidConflict(rm.conflict) && |prefVecs| == |rm.conflict.parties| && !solved
      modifies this`preferenceVectors, this`nash, this`seqFlags, this`gmr, this`smr, this`equilibriums, this`solved
      ensures Consistent()
      ensures o.Pass? <==> solved
      ensures PrefPermGen(prefVecs, vary).Err? ==> o == Fail(PrefPermGen(prefVecs, vary).error)
      ensures PrefPermGen(prefVecs, vary).Ok? ==>
        && (o.Pass? <==> AllSlotted(PrefPermGen(prefVecs, vary).value, |rm.conflict.feasibles|))
        && (o.Fail? ==> o.error.IndexError?)
      ensures o.Pass? ==> Results() && preferenceVectors == PrefPermGen(prefVecs, vary).value
    {
      var pv := PrefPermGen(prefVecs, vary);
      if pv.Err? {
        return Fail(pv.error);
      }
      var c, d, combos := rm.conflict, desEq, pv.value;
      PrefPermGenShaped(prefVecs, vary);
      preferenceVectors := combos;
      var tables := CheckCombos(combos);
      if tables.Err? {
        return Fail(tables.error);
      }
      var t := tables.value;
      nash, seqFlags, gmr, smr := t[0], t[1], t[2], t[3];
      equilibriums := Stacked(t);
      StackedVerdicts(c, d, combos);
      solved := true;
      return Pass;
    }

    /**
     * filter(filt): the combinations whose verdicts meet the filter, each followed by its
     * verdicts, and the number of combinations at which each concept holds. Without a
     * completed run there is no equilibriums attribute; a filter of neither one nor four
     * entries cannot be broadcast against the four verdicts.
     */
    method Filter(filt: seq<bool>) returns (r: Result<(seq<FilteredRow>, seq<nat>)>)
      requires Consistent()
      ensures !solved ==> r.Err? && r.error.AttributeError?
      ensures solved && |preferenceVectors| > 0 && |filt| != 1 && |filt| != 4 ==> r.Err? && r.error.ValueError?
      ensures solved && (|filt| == 1 || |filt| == 4) ==>
        r == Ok((Selected(preferenceVectors, equilibriums, filt, |preferenceVectors|),
                 [Count(equilibriums[0]), Count(equilibriums[1]), Count(equilibriums[2]), Count(equilibriums[3])]))
      ensures r.Ok? ==> |r.value.1| == 4 && forall k :: 0 <= k < 4 ==> r.value.1[k] <= |preferenceVectors|
      ensures r.Ok? ==> r.value.1[0] <= r.value.1[1] <= r.value.1[2] && r.value.1[0] <= r.value.1[3] <= r.value.1[2]
    {
      if !solved {
        return Err(AttributeError("'InverseSolver' object has no attribute 'equilibriums'"));
      }
      var pv, eq := preferenceVectors, equilibriums;
      if |pv| > 0 && |filt| != 1 && |filt| != 4 {
        return Err(ValueError("operands could not be broadcast together"));
      }
      var values: seq<FilteredRow> := [];
      if |filt| == 1 || |filt| == 4 {
        for i := 0 to |pv|
          invariant values == Selected(pv, eq, filt, i)
        {
          var eqms := Column(eq, i);
          if Passes(eqms, filt) {
            values := values + [FilteredRow(pv[i], eqms)];
          }
        }
      }
      var counts := [Count(eq[0]), Count(eq[1]), Count(eq[2]), Count(eq[3])];
      CountsOrdered(eq, |pv|);
      return Ok((values, counts));
    }
  }

  /**
   * InverseSolver(conflict, vary, desiredEquilibria): the solver, or the exception its pass
   * over vary raises for the first decision maker whose window cannot be read or marked.
   */
  method NewInverseSolver(c: Conflict, vary: Option<seq<Option<Span>>>, desEq: nat, prefVecs: seq<Ranking>)
    returns (r: Result<InverseSolver>)
    requires ValidConflict(c) && AllDMs(c) && |prefVecs| == |c.parties|
    ensures VaryOutcome(vary, prefVecs, |c.feasibles|, |c.parties|).Fail? ==>
      r == Err(VaryOutcome(vary, prefVecs, |c.feasibles|, |c.parties|).error)
    ensures VaryOutcome(vary, prefVecs, |c.feasibles|, |c.parties|).Pass? ==>
      && r.Ok? && fresh(r.value) && r.value.Valid() && r.value.rm.conflict == c
      && r.value.desEq == desEq && r.value.vary == vary && r.value.prefVecs == prefVecs && !r.value.solved
  {
    if vary.Some? {
      var spans := vary.value;
      for idx := 0 to |c.parties|
        invariant VaryOutcomeFrom(spans, prefVecs, |c.feasibles|, |c.parties|, idx) ==
          VaryOutcomeFrom(spans, prefVecs, |c.feasibles|, |c.parties|, 0)
      {
        if idx >= |spans| {
          return Err(IndexError("list index out of range"));
        }
        if spans[idx].None? {
          return Err(TypeError("'NoneType' object is not subscriptable"));
        }
        var fits := MarkUnordered(VariedStates(prefVecs[idx], spans[idx].value), |c.feasibles|);
        if !fits {
          return Err(IndexError("index out of bounds"));
        }
      }
    }
    var solver := new InverseSolver(c, vary, desEq, prefVecs);
    return Ok(solver);
  }
}
