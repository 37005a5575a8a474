/**
 * The logical solver: Nash, sequential (SEQ), simultaneous (SIM), general
 * metarationality (GMR) and symmetric metarationality (SMR) stability of a state for one
 * party, and the equilibria of the whole conflict under each concept.
 *
 * The definitions below are the specification; the methods of LogicalSolver compute the
 * same answers by searching the lists that reachable and UIs return, the way the
 * original's loops do, with early exits.
 */
module Stability {
  import opened Wrappers
  import opened Reachability

  /** Party p and state s exist in the conflict. */
  predicate InRange(c: Conflict, p: nat, s: nat) {
    p < |c.parties| && s < |c.feasibles|
  }

  /** Nash: p has no unilateral improvement from s0. */
  predicate NashStable(c: Conflict, p: nat, s0: nat)
    requires ValidConflict(c) && InRange(c, p, s0)
  {
    forall s1 :: 0 <= s1 < |c.feasibles| ==> !IsUI(c, p, s0, s0, s1)
  }

  /** s2 leaves p no better off than s0. */
  predicate Sanctions(c: Conflict, p: nat, s0: nat, s2: nat)
    requires ValidConflict(c) && InRange(c, p, s0) && s2 < |c.feasibles|
  {
    Gain(c, p, s0, s2) <= 0
  }

  /** SEQ: every improvement s1 is answered by an opponent's improvement that sanctions p. */
  predicate SeqSanctioned(c: Conflict, p: nat, s0: nat, s1: nat)
    requires ValidConflict(c) && InRange(c, p, s0) && s1 < |c.feasibles|
  {
    exists s2 :: 0 <= s2 < |c.feasibles| && OpponentUI(c, p, s1, s2) && Sanctions(c, p, s0, s2)
  }

  predicate SeqStable(c: Conflict, p: nat, s0: nat)
    requires ValidConflict(c) && InRange(c, p, s0)
  {
    forall s1 :: 0 <= s1 < |c.feasibles| && IsUI(c, p, s0, s0, s1) ==> SeqSanctioned(c, p, s0, s1)
  }

  /** GMR: every improvement s1 is answered by any opponent's move that sanctions p. */
  predicate GmrSanctioned(c: Conflict, p: nat, s0: nat, s1: nat)
    requires ValidConflict(c) && InRange(c, p, s0) && s1 < |c.feasibles|
  {
    exists s2 :: 0 <= s2 < |c.feasibles| && OpponentMove(c, p, s1, s2) && Sanctions(c, p, s0, s2)
  }

  predicate GmrStable(c: Conflict, p: nat, s0: nat)
    requires ValidConflict(c) && InRange(c, p, s0)
  {
    forall s1 :: 0 <= s1 < |c.feasibles| && IsUI(c, p, s0, s0, s1) ==> GmrSanctioned(c, p, s0, s1)
  }

  /** From the sanction s2, p has no move to a state better than s0. */
  predicate NoCountermove(c: Conflict, p: nat, s0: nat, s2: nat)
    requires ValidConflict(c) && InRange(c, p, s0) && s2 < |c.feasibles|
  {
    forall s3 :: 0 <= s3 < |c.feasibles| ==> !IsUI(c, p, s2, s0, s3)
  }

  /** SMR: every improvement is answered by a sanction p cannot countermove out of. */
  predicate SmrSanctioned(c: Conflict, p: nat, s0: nat, s1: nat)
    requires ValidConflict(c) && InRange(c, p, s0) && s1 < |c.feasibles|
  {
    exists s2 :: 0 <= s2 < |c.feasibles| && OpponentMove(c, p, s1, s2) && Sanctions(c, p, s0, s2) &&
      NoCountermove(c, p, s0, s2)
  }

  predicate SmrStable(c: Conflict, p: nat, s0: nat)
    requires ValidConflict(c) && InRange(c, p, s0)
  {
    forall s1 :: 0 <= s1 < |c.feasibles| && IsUI(c, p, s0, s0, s1) ==> SmrSanctioned(c, p, s0, s1)
  }

  /**
   * SIM: every improvement s1 meets an opponent's improvement s0 -> s2 made at the same
   * time, whose combined state (decimal s1 + s2 - s0) is feasible and sanctions p.
   */
  predicate SimSanctioned(c: Conflict, p: nat, s0: nat, s1: nat)
    requires ValidConflict(c) && InRange(c, p, s0) && s1 < |c.feasibles|
  {
    exists s2 :: 0 <= s2 < |c.feasibles| && OpponentUI(c, p, s0, s2) && CombinedSanctions(c, p, s0, s1, s2)
  }

  /** The decimal value reached when the moves s0 -> s1 and s0 -> s2 are made together. */
  function Combined(c: Conflict, s0: nat, s1: nat, s2: nat): int
    requires s0 < |c.feasibles| && s1 < |c.feasibles| && s2 < |c.feasibles|
  {
    c.feasibles[s1] as int + c.feasibles[s2] as int - c.feasibles[s0] as int
  }

  /** The combined state of s1 and s2 is feasible and leaves p no better off than s0. */
  predicate CombinedSanctions(c: Conflict, p: nat, s0: nat, s1: nat, s2: nat)
    requires ValidConflict(c) && InRange(c, p, s0) && s1 < |c.feasibles| && s2 < |c.feasibles|
  {
    exists k :: 0 <= k < |c.feasibles| && c.feasibles[k] as int == Combined(c, s0, s1, s2) && Sanctions(c, p, s0, k)
  }

  predicate SimStable(c: Conflict, p: nat, s0: nat)
    requires ValidConflict(c) && InRange(c, p, s0)
  {
    forall s1 :: 0 <= s1 < |c.feasibles| && IsUI(c, p, s0, s0, s1) ==> SimSanctioned(c, p, s0, s1)
  }

  /** The stability concepts, in the order findEquilibria stacks its result rows. */
  datatype Concept = Nash | Gmr | Seq | Sim | Smr

  predicate Stable(k: Concept, c: Conflict, p: nat, s: nat)
    requires ValidConflict(c) && InRange(c, p, s)
  {
    match k
    case Nash => NashStable(c, p, s)
    case Gmr => GmrStable(c, p, s)
    case Seq => SeqStable(c, p, s)
    case Sim => SimStable(c, p, s)
    case Smr => SmrStable(c, p, s)
  }

  /** State s is an equilibrium under k: stable for every effective party. */
  predicate Equilibrium(k: Concept, c: Conflict, s: nat)
    requires ValidConflict(c) && s < |c.feasibles|
  {
    forall p :: 0 <= p < |c.parties| ==> Stable(k, c, p, s)
  }

  /** SEQ + SIM equilibrium: stable under both concepts for every party. */
  predicate SeqSimEquilibrium(c: Conflict, s: nat)
    requires ValidConflict(c) && s < |c.feasibles|
  {
    Equilibrium(Seq, c, s) && Equilibrium(Sim, c, s)
  }

  /**
   * The SEQ + SIM row as findEquilibria fills it: no party is unstable under both SEQ and
   * SIM at s (see SeqSimAsWritten).
   */
  predicate SeqSimRowAsWritten(c: Conflict, s: nat)
    requires ValidConflict(c) && s < |c.feasibles|
  {
    forall p :: 0 <= p < |c.parties| ==> SeqStable(c, p, s) || SimStable(c, p, s)
  }

  // ---------------------------------------------------------------------------------------
  // The SEQ + SIM row as written

  /** A per-party stability table: one row of n flags per effective party. */
  predicate IsTable(t: seq<seq<bool>>, n: nat) {
    forall p :: 0 <= p < |t| ==> |t[p]| == n
  }

  /** Column s of a stability table: no party is unstable at state s. */
  predicate ColumnStable(t: seq<seq<bool>>, s: nat)
    requires forall p :: 0 <= p < |t| ==> s < |t[p]|
  {
    forall p :: 0 <= p < |t| ==> t[p][s]
  }

  /** The equilibrium row of a table: the inverted sum of the inverted flags, state by state. */
  function EquilibriumRow(t: seq<seq<bool>>, n: nat): (r: seq<bool>)
    requires IsTable(t, n)
    ensures |r| == n
  {
    seq(n, s requires 0 <= s < n => ColumnStable(t, s))
  }

  /** t is the stability table of concept k: entry [p][s] says whether s is stable for p. */
  predicate TableOf(k: Concept, c: Conflict, t: seq<seq<bool>>)
    requires ValidConflict(c)
  {
    |t| == |c.parties| && IsTable(t, |c.feasibles|) &&
    forall p, s :: 0 <= p < |t| && 0 <= s < |c.feasibles| ==> t[p][s] == Stable(k, c, p, s)
  }

  /** A stability table's equilibrium row marks exactly the equilibria of its concept. */
  lemma TableRow(k: Concept, c: Conflict, t: seq<seq<bool>>, s: nat)
    requires ValidConflict(c) && TableOf(k, c, t) && s < |c.feasibles|
    ensures EquilibriumRow(t, |c.feasibles|)[s] <==> Equilibrium(k, c, s)
    ensures ColumnStable(t, s) <==> Equilibrium(k, c, s)
  {
  }

  /** The same, for the whole row at once. */
  lemma TableRows(k: Concept, c: Conflict, t: seq<seq<bool>>)
    requires ValidConflict(c) && TableOf(k, c, t)
    ensures forall s :: 0 <= s < |c.feasibles| ==> (EquilibriumRow(t, |c.feasibles|)[s] <==> Equilibrium(k, c, s))
  {
    forall s | 0 <= s < |c.feasibles|
      ensures EquilibriumRow(t, |c.feasibles|)[s] <==> Equilibrium(k, c, s)
    {
      TableRow(k, c, t, s);
    }
  }

  /**
   * The SEQ + SIM row as the original computes it: both tables have already been inverted
   * into "unstable" flags when they are and-ed, so a state is kept unless some party is
   * unstable under both concepts.
   */
  function SeqSimAsWritten(seqStable: seq<seq<bool>>, simStable: seq<seq<bool>>, s: nat): (r: bool)
    requires |seqStable| == |simStable|
    requires forall p :: 0 <= p < |seqStable| ==> s < |seqStable[p]| && s < |simStable[p]|
    ensures r <==> forall p :: 0 <= p < |seqStable| ==> seqStable[p][s] || simStable[p][s]
  {
    !exists p :: 0 <= p < |seqStable| && !seqStable[p][s] && !simStable[p][s]
  }

  /** The intended SEQ + SIM row: the state is in both the SEQ row and the SIM row. */
  function SeqSimCorrected(seqStable: seq<seq<bool>>, simStable: seq<seq<bool>>, s: nat): (r: bool)
    requires |seqStable| == |simStable|
    requires forall p :: 0 <= p < |seqStable| ==> s < |seqStable[p]| && s < |simStable[p]|
    ensures r <==> forall p :: 0 <= p < |seqStable| ==> seqStable[p][s] && simStable[p][s]
  {
    ColumnStable(seqStable, s) && ColumnStable(simStable, s)
  }

  /** Every state the intended row keeps is kept by the row as written. */
  lemma SeqSimAsWrittenIsWeaker(seqStable: seq<seq<bool>>, simStable: seq<seq<bool>>, s: nat)
    requires |seqStable| == |simStable|
    requires forall p :: 0 <= p < |seqStable| ==> s < |seqStable[p]| && s < |simStable[p]|
    ensures SeqSimCorrected(seqStable, simStable, s) ==> SeqSimAsWritten(seqStable, simStable, s)
  {
  }

  /**
   * One party, SEQ-stable but not SIM-stable at the only state: the row as written calls
   * the state a SEQ + SIM equilibrium, the intended row does not.
   */
  lemma SeqSimAsWrittenCounterexample()
    ensures SeqSimAsWritten([[true]], [[false]], 0)
    ensures !SeqSimCorrected([[true]], [[false]], 0)
  {
    var seqStable, simStable := [[true]], [[false]];
    assert seqStable[0][0] && !simStable[0][0];
  }

  /**
   * Filled from the SEQ and SIM tables, the row as written marks exactly the states where
   * no party is unstable under both, and it keeps every SEQ + SIM equilibrium.
   */
  lemma SeqSimRowMeaning(c: Conflict, seqT: seq<seq<bool>>, simT: seq<seq<bool>>, s: nat)
    requires ValidConflict(c) && TableOf(Seq, c, seqT) && TableOf(Sim, c, simT) && s < |c.feasibles|
    ensures SeqSimAsWritten(seqT, simT, s) <==> SeqSimRowAsWritten(c, s)
    ensures SeqSimEquilibrium(c, s) ==> SeqSimRowAsWritten(c, s)
  {
    forall p | 0 <= p < |c.parties|
      ensures seqT[p][s] == SeqStable(c, p, s) && simT[p][s] == SimStable(c, p, s)
    {
    }
    if SeqSimEquilibrium(c, s) {
      forall p | 0 <= p < |c.parties|
        ensures SeqStable(c, p, s)
      {
        assert Stable(Seq, c, p, s);
      }
    }
  }

  // ---------------------------------------------------------------------------------------
  // Relations between the concepts

  /** A Nash-stable state is stable under every other concept. */
  lemma NashImpliesAll(c: Conflict, p: nat, s: nat)
    requires ValidConflict(c) && InRange(c, p, s)
    requires NashStable(c, p, s)
    ensures SeqStable(c, p, s) && SimStable(c, p, s) && GmrStable(c, p, s) && SmrStable(c, p, s)
  {
  }

  /** An opponent's improvement is in particular an opponent's move. */
  lemma {:induction false} OpponentUIIsMove(c: Conflict, p: nat, q: nat, s: nat, x: nat)
    requires ValidConflict(c) && q <= |c.parties| && s < |c.feasibles| && x < |c.feasibles|
    requires OpponentUIBelow(c, p, q, s, x)
    ensures OpponentMoveBelow(c, p, q, s, x)
    decreases q
  {
    if OpponentUIBelow(c, p, q - 1, s, x) {
      OpponentUIIsMove(c, p, q - 1, s, x);
    }
  }

  /** SEQ stability implies GMR stability. */
  lemma {:induction false} SeqImpliesGmr(c: Conflict, p: nat, s: nat)
    requires ValidConflict(c) && InRange(c, p, s)
    requires SeqStable(c, p, s)
    ensures GmrStable(c, p, s)
  {
    forall s1 | 0 <= s1 < |c.feasibles| && IsUI(c, p, s, s, s1) ensures GmrSanctioned(c, p, s, s1) {
      assert SeqSanctioned(c, p, s, s1);
      var s2 :| 0 <= s2 < |c.feasibles| && OpponentUI(c, p, s1, s2) && Sanctions(c, p, s, s2);
      OpponentUIIsMove(c, p, |c.parties|, s1, s2);
    }
  }

  /** SMR stability implies GMR stability. */
  lemma SmrImpliesGmr(c: Conflict, p: nat, s: nat)
    requires ValidConflict(c) && InRange(c, p, s)
    requires SmrStable(c, p, s)
    ensures GmrStable(c, p, s)
  {
  }

  /** The equilibrium sets: Nash within all others, SEQ and SMR within GMR. */
  lemma EquilibriumInclusions(c: Conflict, s: nat)
    requires ValidConflict(c) && s < |c.feasibles|
    ensures Equilibrium(Nash, c, s) ==>
      Equilibrium(Seq, c, s) && Equilibrium(Sim, c, s) && Equilibrium(Gmr, c, s) &&
      Equilibrium(Smr, c, s) && SeqSimEquilibrium(c, s)
    ensures Equilibrium(Seq, c, s) ==> Equilibrium(Gmr, c, s)
    ensures Equilibrium(Smr, c, s) ==> Equilibrium(Gmr, c, s)
  {
    if Equilibrium(Nash, c, s) {
      forall p | 0 <= p < |c.parties| ensures Stable(Seq, c, p, s) && Stable(Sim, c, p, s) &&
        Stable(Gmr, c, p, s) && Stable(Smr, c, p, s) {
        assert Stable(Nash, c, p, s);
        NashImpliesAll(c, p, s);
      }
    }
    if Equilibrium(Seq, c, s) {
      forall p | 0 <= p < |c.parties| ensures Stable(Gmr, c, p, s) {
        assert Stable(Seq, c, p, s);
        SeqImpliesGmr(c, p, s);
      }
    }
    if Equilibrium(Smr, c, s) {
      forall p | 0 <= p < |c.parties| ensures Stable(Gmr, c, p, s) {
        assert Stable(Smr, c, p, s);
        SmrImpliesGmr(c, p, s);
      }
    }
  }

  // ---------------------------------------------------------------------------------------
  // The solver

  class LogicalSolver {
    const rm: RMGenerator
    /** The rows Nash, GMR, SEQ, SIM, SEQ + SIM and SMR, once findEquilibria has run. */
    var allEquilibria: seq<seq<bool>>

    ghost predicate Valid() {
      rm.Valid()
    }

    constructor (c: Conflict)
      requires ValidConflict(c)
      ensures Valid() && rm.conflict == c && allEquilibria == []
    {
      rm := new RMGenerator(c);
      allEquilibria := [];
    }

    /** The improvements other parties have from s, each below the state count. */
    method OpponentUIs(p: nat, s: nat) returns (xs: seq<nat>)
      requires Valid() && InRange(rm.conflict, p, s)
      ensures forall x: nat :: x in xs <==> x < |rm.conflict.feasibles| && OpponentUI(rm.conflict, p, s, x)
      ensures forall i :: 0 <= i < |xs| ==> xs[i] < |rm.conflict.feasibles|
    {
      xs := rm.OpponentUIs(p, s);
      assert forall i :: 0 <= i < |xs| ==> xs[i] in xs;
    }

    /** The moves other parties have from s, each below the state count. */
    method OpponentMoves(p: nat, s: nat) returns (xs: seq<nat>)
      requires Valid() && InRange(rm.conflict, p, s)
      ensures forall x: nat :: x in xs <==> x < |rm.conflict.feasibles| && OpponentMove(rm.conflict, p, s, x)
      ensures forall i :: 0 <= i < |xs| ==> xs[i] < |rm.conflict.feasibles|
    {
      xs := rm.OpponentMoves(p, s);
      assert forall i :: 0 <= i < |xs| ==> xs[i] in xs;
    }

    /** The UIs p has from s0, each member below the state count and a genuine improvement. */
    method FocalUIs(p: nat, s0: nat) returns (r: Result<seq<nat>>)
      requires Valid()
      ensures p >= |rm.conflict.parties| ==> r.Err? && r.error.ValueError?
      ensures p < |rm.conflict.parties| && s0 >= |rm.conflict.feasibles| ==> r.Err? && r.error.IndexError?
      ensures InRange(rm.conflict, p, s0) ==> r.Ok?
      ensures InRange(rm.conflict, p, s0) ==>
        forall x: nat :: x in r.value <==> x < |rm.conflict.feasibles| && IsUI(rm.conflict, p, s0, s0, x)
      ensures InRange(rm.conflict, p, s0) ==> forall i :: 0 <= i < |r.value| ==> r.value[i] < |rm.conflict.feasibles|
    {
      r := rm.UIs(p, s0, None);

    }

    /** nash(dm, state0): stable exactly when p has no UI from s0. */
    method Nash(p: nat, s0: nat) returns (r: Result<bool>)
      requires Valid()
      ensures p >= |rm.conflict.parties| ==> r.Err? && r.error.ValueError?
      ensures p < |rm.conflict.parties| && s0 >= |rm.conflict.feasibles| ==> r.Err? && r.error.IndexError?
      ensures InRange(rm.conflict, p, s0) ==> r == Ok(NashStable(rm.conflict, p, s0))
    {
      var ui :- FocalUIs(p, s0);
      if ui != [] {
        assert ui[0] in ui;
      }
      return Ok(ui == []);
    }

    /** The inner loop of seq and gmr: does some state of xs leave p no better off than s0? */
    method AnySanction(p: nat, s0: nat, xs: seq<nat>) returns (found: bool)
      requires Valid() && InRange(rm.conflict, p, s0)
      requires forall i :: 0 <= i < |xs| ==> xs[i] < |rm.conflict.feasibles|
      ensures found <==> exists i :: 0 <= i < |xs| && Sanctions(rm.conflict, p, s0, xs[i])
    {
      found := false;
      for b := 0 to |xs|
        invariant forall y :: 0 <= y < b ==> !Sanctions(rm.conflict, p, s0, xs[y])
      {
        if Gain(rm.conflict, p, s0, xs[b]) <= 0 {
          found := true;
          break;
        }
      }
    }

    /**
     * The inner loop of sim: does some opponent improvement s2 of xs, made together with
     * p's move to s1, land on a feasible state that leaves p no better off than s0?
     */
    method AnySimSanction(p: nat, s0: nat, s1: nat, xs: seq<nat>) returns (found: bool)
      requires Valid() && InRange(rm.conflict, p, s0) && s1 < |rm.conflict.feasibles|
      requires forall i :: 0 <= i < |xs| ==> xs[i] < |rm.conflict.feasibles|
      ensures found <==> exists i :: 0 <= i < |xs| && CombinedSanctions(rm.conflict, p, s0, s1, xs[i])
    {
      var feas := rm.conflict.feasibles;
      found := false;
      for b := 0 to |xs|
        invariant forall y :: 0 <= y < b ==> !CombinedSanctions(rm.conflict, p, s0, s1, xs[y])
      {
        var combined := Combined(rm.conflict, s0, s1, xs[b]);
        if combined >= 0 && combined as nat in feas {
          var k := IndexOf(feas, combined as nat);
          StrictlyIncreasingIndex(feas, k);
          if Gain(rm.conflict, p, s0, k) <= 0 {
            found := true;
            break;
          }
        }
      }
    }

    /**
     * The inner loop of smr: does some state of xs sanction p without p having a move from
     * it to a state better than s0?
     */
    method AnySmrSanction(p: nat, s0: nat, xs: seq<nat>) returns (found: bool)
      requires Valid() && InRange(rm.conflict, p, s0)
      requires forall i :: 0 <= i < |xs| ==> xs[i] < |rm.conflict.feasibles|
      ensures found <==>
        exists i :: 0 <= i < |xs| && Sanctions(rm.conflict, p, s0, xs[i]) && NoCountermove(rm.conflict, p, s0, xs[i])
    {
      var c := rm.conflict;
      found := false;
      for b := 0 to |xs|
        invariant forall y :: 0 <= y < b ==> !(Sanctions(c, p, s0, xs[y]) && NoCountermove(c, p, s0, xs[y]))
      {
        var s2 := xs[b];
        if Gain(c, p, s0, s2) <= 0 {
          var ui2 := rm.UIs(p, s2, Some(s0));
          if ui2.value == [] {
            found := true;
            break;
          }
          assert ui2.value[0] in ui2.value;
        }
      }
    }

    /** seq(dm, state0) */
    method Seq(p: nat, s0: nat) returns (r: Result<bool>)
      requires Valid()
      ensures p >= |rm.conflict.parties| ==> r.Err? && r.error.ValueError?
      ensures p < |rm.conflict.parties| && s0 >= |rm.conflict.feasibles| ==> r.Err? && r.error.IndexError?
      ensures InRange(rm.conflict, p, s0) ==> r == Ok(SeqStable(rm.conflict, p, s0))
    {
      var c := rm.conflict;
      var ui :- FocalUIs(p, s0);
      for a := 0 to |ui|
        invariant forall x :: 0 <= x < a ==> SeqSanctioned(c, p, s0, ui[x])
      {
        var s1 := ui[a];
        assert s1 in ui;
        var others := OpponentUIs(p, s1);
        if others == [] {
          return Ok(false);
        }
        var stable := AnySanction(p, s0, others);
        if !stable {
          assert !SeqSanctioned(c, p, s0, s1) by {
            forall s2 | 0 <= s2 < |c.feasibles| && OpponentUI(c, p, s1, s2) ensures !Sanctions(c, p, s0, s2) {
              var i :| 0 <= i < |others| && others[i] == s2;
            }
          }
          return Ok(false);
        }
      }
      return Ok(true);
    }

    /** sim(dm, state0) */
    method Sim(p: nat, s0: nat) returns (r: Result<bool>)
      requires Valid()
      ensures p >= |rm.conflict.parties| ==> r.Err? && r.error.ValueError?
      ensures p < |rm.conflict.parties| && s0 >= |rm.conflict.feasibles| ==> r.Err? && r.error.IndexError?
      ensures InRange(rm.conflict, p, s0) ==> r == Ok(SimStable(rm.conflict, p, s0))
    {
      var c := rm.conflict;
      var ui :- FocalUIs(p, s0);
      if ui == [] {
        return Ok(true);
      }
      var others := OpponentUIs(p, s0);
      if others == [] {
        assert ui[0] in ui;
        assert !SimSanctioned(c, p, s0, ui[0]) by {
          forall s2 | 0 <= s2 < |c.feasibles| ensures !OpponentUI(c, p, s0, s2) {
            assert s2 !in others;
          }
        }
        return Ok(false);
      }
      var ok := EverySimSanctioned(p, s0, ui, others);
      assert ok <==> SimStable(c, p, s0) by {
        if ok {
          forall s1 | 0 <= s1 < |c.feasibles| && IsUI(c, p, s0, s0, s1) ensures SimSanctioned(c, p, s0, s1) {
            assert s1 in ui;
          }
        }
        if SimStable(c, p, s0) {
          forall i | 0 <= i < |ui| ensures SimSanctioned(c, p, s0, ui[i]) {
            assert ui[i] in ui;
          }
        }
      }
      return Ok(ok);
    }

    /** The outer loop of sim: every UI in ui is sanctioned by a simultaneous opponent move. */
    method EverySimSanctioned(p: nat, s0: nat, ui: seq<nat>, others: seq<nat>) returns (ok: bool)
      requires Valid() && InRange(rm.conflict, p, s0)
      requires forall i :: 0 <= i < |ui| ==> ui[i] < |rm.conflict.feasibles|
      requires forall i :: 0 <= i < |others| ==> others[i] < |rm.conflict.feasibles|
      requires forall x: nat :: x in others <==> x < |rm.conflict.feasibles| && OpponentUI(rm.conflict, p, s0, x)
      ensures ok <==> forall i :: 0 <= i < |ui| ==> SimSanctioned(rm.conflict, p, s0, ui[i])
    {
      var c := rm.conflict;
      for a := 0 to |ui|
        invariant forall x :: 0 <= x < a ==> SimSanctioned(c, p, s0, ui[x])
      {
        var s1 := ui[a];
        var stable := AnySimSanction(p, s0, s1, others);
        if !stable {
          assert !SimSanctioned(c, p, s0, s1) by {
            forall s2 | 0 <= s2 < |c.feasibles| && OpponentUI(c, p, s0, s2)
              ensures !CombinedSanctions(c, p, s0, s1, s2)
            {
              var i :| 0 <= i < |others| && others[i] == s2;
            }
          }
          return false;
        }
      }
      return true;
    }

    /** gmr(dm, state0) */
    method Gmr(p: nat, s0: nat) returns (r: Result<bool>)
      requires Valid()
      ensures p >= |rm.conflict.parties| ==> r.Err? && r.error.ValueError?
      ensures p < |rm.conflict.parties| && s0 >= |rm.conflict.feasibles| ==> r.Err? && r.error.IndexError?
      ensures InRange(rm.conflict, p, s0) ==> r == Ok(GmrStable(rm.conflict, p, s0))
    {
      var c := rm.conflict;
      var ui :- FocalUIs(p, s0);
      for a := 0 to |ui|
        invariant forall x :: 0 <= x < a ==> GmrSanctioned(c, p, s0, ui[x])
      {
        var s1 := ui[a];
        assert s1 in ui;
        var others := OpponentMoves(p, s1);
        if others == [] {
          return Ok(false);
        }
        var stable := AnySanction(p, s0, others);
        if !stable {
          assert !GmrSanctioned(c, p, s0, s1) by {
            forall s2 | 0 <= s2 < |c.feasibles| && OpponentMove(c, p, s1, s2) ensures !Sanctions(c, p, s0, s2) {
              var i :| 0 <= i < |others| && others[i] == s2;
            }
          }
          return Ok(false);
        }
      }
      return Ok(true);
    }

    /** smr(dm, state0) */
    method Smr(p: nat, s0: nat) returns (r: Result<bool>)
      requires Valid()
      ensures p >= |rm.conflict.parties| ==> r.Err? && r.error.ValueError?
      ensures p < |rm.conflict.parties| && s0 >= |rm.conflict.feasibles| ==> r.Err? && r.error.IndexError?
      ensures InRange(rm.conflict, p, s0) ==> r == Ok(SmrStable(rm.conflict, p, s0))
    {
      var c := rm.conflict;
      var ui :- FocalUIs(p, s0);
      for a := 0 to |ui|
        invariant forall x :: 0 <= x < a ==> SmrSanctioned(c, p, s0, ui[x])
      {
        var s1 := ui[a];
        assert s1 in ui;
        var others := OpponentMoves(p, s1);
        if others == [] {
          return Ok(false);
        }
        var stable := AnySmrSanction(p, s0, others);
        if !stable {
          assert !SmrSanctioned(c, p, s0, s1) by {
            forall s2 | 0 <= s2 < |c.feasibles| && OpponentMove(c, p, s1, s2)
              ensures !(Sanctions(c, p, s0, s2) && NoCountermove(c, p, s0, s2))
            {
              var i :| 0 <= i < |others| && others[i] == s2;
            }
          }
          return Ok(false);
        }
      }
      return Ok(true);
    }

    /** The stability method for concept k. */
    method Evaluate(k: Concept, p: nat, s: nat) returns (r: Result<bool>)
      requires Valid() && InRange(rm.conflict, p, s)
      ensures r == Ok(Stable(k, rm.conflict, p, s))
    {
      match k
      case Nash => r := Nash(p, s);
      case Gmr => r := Gmr(p, s);
      case Seq => r := Seq(p, s);
      case Sim => r := Sim(p, s);
      case Smr => r := Smr(p, s);
    }

    /** The per-party stability table of concept k, filled party by party and state by state. */
    method StabilityTable(k: Concept) returns (t: seq<seq<bool>>)
      requires Valid()
      ensures TableOf(k, rm.conflict, t)
    {
      var c := rm.conflict;
      t := [];
      for p := 0 to |c.parties|
        invariant |t| == p && IsTable(t, |c.feasibles|)
        invariant forall q, s :: 0 <= q < p && 0 <= s < |c.feasibles| ==> t[q][s] == Stable(k, c, q, s)
      {
        var row: seq<bool> := [];
        for s := 0 to |c.feasibles|
          invariant |row| == s
          invariant forall x :: 0 <= x < s ==> row[x] == Stable(k, c, p, x)
        {
          var r := Evaluate(k, p, s);
          row := row + [r.value];
        }
        t := t + [row];
      }
    }

    /**
     * findEquilibria: the equilibrium row of every concept. With no effective party the
     * original's column sum is the integer 0, which has no astype, and the call fails.
     */
    method FindEquilibria() returns (o: Outcome)
      requires Valid()
      modifies this
      ensures |rm.conflict.parties| == 0 ==> o.Fail? && o.error.AttributeError? && allEquilibria == old(allEquilibria)
      ensures |rm.conflict.parties| > 0 ==> o == Pass && |allEquilibria| == 6 && IsTable(allEquilibria, |rm.conflict.feasibles|)
      ensures |rm.conflict.parties| > 0 ==> forall s :: 0 <= s < |rm.conflict.feasibles| ==>
        && (allEquilibria[0][s] <==> Equilibrium(Concept.Nash, rm.conflict, s))
        && (allEquilibria[1][s] <==> Equilibrium(Concept.Gmr, rm.conflict, s))
        && (allEquilibria[2][s] <==> Equilibrium(Concept.Seq, rm.conflict, s))
        && (allEquilibria[3][s] <==> Equilibrium(Concept.Sim, rm.conflict, s))
        && (allEquilibria[4][s] <==> SeqSimRowAsWritten(rm.conflict, s))
        && (allEquilibria[5][s] <==> Equilibrium(Concept.Smr, rm.conflict, s))
    {
      var c := rm.conflict;
      var n := |c.feasibles|;
      var nashT := StabilityTable(Concept.Nash);
      if |c.parties| == 0 {
        return Fail(AttributeError("'int' object has no attribute 'astype'"));
      }
      var seqT := StabilityTable(Concept.Seq);
      var simT := StabilityTable(Concept.Sim);
      var seqSim := seq(n, s requires 0 <= s < n => SeqSimAsWritten(seqT, simT, s));
      var gmrT := StabilityTable(Concept.Gmr);
      var smrT := StabilityTable(Concept.Smr);
      allEquilibria := [EquilibriumRow(nashT, n), EquilibriumRow(gmrT, n), EquilibriumRow(seqT, n),
                        EquilibriumRow(simT, n), seqSim, EquilibriumRow(smrT, n)];
      TableRows(Concept.Nash, c, nashT);
      TableRows(Concept.Gmr, c, gmrT);
      TableRows(Concept.Seq, c, seqT);
      TableRows(Concept.Sim, c, simT);
      TableRows(Concept.Smr, c, smrT);
      forall s | 0 <= s < n
        ensures seqSim[s] <==> SeqSimRowAsWritten(c, s)
      {
        SeqSimRowMeaning(c, seqT, simT, s);
      }
      return Pass;
    }
  }

  /** Strictly increasing sequences have no repeated value. */
  lemma StrictlyIncreasingIndex(s: seq<nat>, k: nat)
    requires StrictlyIncreasing(s) && k < |s|
    ensures forall j :: 0 <= j < |s| && s[j] == s[k] ==> j == k
  {
  }
}
