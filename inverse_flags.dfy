/**
 * The per-decision-maker stability checks of the inverse solver, on the lists _mblInit
 * prepares: the states the decision maker reaches from the desired state (ups), for each of
 * them the states opponents can sanction it to (sancs), and for each sanction the states the
 * decision maker can countermove to (cmss). `pay` is the decision maker's payoff row under one
 * combination of rankings and d the desired state; sanctions are strict (pay[s2] < pay[d]).
 */
module InverseFlags {

  predicate Below(xs: seq<nat>, n: nat) {
    forall k :: 0 <= k < |xs| ==> xs[k] < n
  }

  predicate AllBelow(xss: seq<seq<nat>>, n: nat) {
    forall z :: 0 <= z < |xss| ==> Below(xss[z], n)
  }

  /** One sanction list per reachable state, all within the payoff row. */
  predicate GmrShape(n: nat, ups: seq<nat>, sancs: seq<seq<nat>>) {
    Below(ups, n) && |sancs| == |ups| && AllBelow(sancs, n)
  }

  /** In addition, one countermove list per sanction. */
  predicate SmrShape(n: nat, ups: seq<nat>, sancs: seq<seq<nat>>, cmss: seq<seq<seq<nat>>>) {
    GmrShape(n, ups, sancs) && |cmss| == |ups| &&
    forall z :: 0 <= z < |cmss| ==> |cmss[z]| == |sancs[z]| && AllBelow(cmss[z], n)
  }

  /** No listed state pays more than d. */
  predicate NoImprovement(pay: seq<int>, d: nat, ups: seq<nat>)
    requires d < |pay| && Below(ups, |pay|)
  {
    forall x :: x in ups ==> pay[x] <= pay[d]
  }

  /** Some listed state pays strictly less than d. */
  predicate SanctionIn(pay: seq<int>, d: nat, sanc: seq<nat>)
    requires d < |pay| && Below(sanc, |pay|)
  {
    exists x :: x in sanc && pay[x] < pay[d]
  }

  /** Every improvement ups[z] over d can be answered by a sanction from sancs[z]. */
  predicate EveryUISanctioned(pay: seq<int>, d: nat, ups: seq<nat>, sancs: seq<seq<nat>>)
    requires d < |pay| && GmrShape(|pay|, ups, sancs)
  {
    forall z :: 0 <= z < |ups| && pay[d] < pay[ups[z]] ==> SanctionIn(pay, d, sancs[z])
  }

  /** Some sanction sanc[w] leaves no countermove in cms[w] to a state better than d. */
  predicate EscapeFree(pay: seq<int>, d: nat, sanc: seq<nat>, cms: seq<seq<nat>>)
    requires d < |pay| && Below(sanc, |pay|) && |cms| == |sanc| && AllBelow(cms, |pay|)
  {
    exists w :: 0 <= w < |sanc| && pay[sanc[w]] < pay[d] && NoImprovement(pay, d, cms[w])
  }

  /** Every improvement is answered by a sanction without countermove. */
  predicate EveryUISmrSanctioned(pay: seq<int>, d: nat, ups: seq<nat>, sancs: seq<seq<nat>>, cmss: seq<seq<seq<nat>>>)
    requires d < |pay| && SmrShape(|pay|, ups, sancs, cmss)
  {
    forall z :: 0 <= z < |ups| && pay[d] < pay[ups[z]] ==> EscapeFree(pay, d, sancs[z], cmss[z])
  }

  /** ups[z] improves on d and no later listed state does: the improvement the original's loops end on. */
  predicate LastUI(pay: seq<int>, d: nat, ups: seq<nat>, z: nat)
    requires d < |pay| && Below(ups, |pay|)
  {
    z < |ups| && pay[d] < pay[ups[z]] && forall z' :: z < z' < |ups| ==> pay[ups[z']] <= pay[d]
  }

  /**
   * The GMR (and, on the SEQ lists, the SEQ) verdict of the original's loop: the last
   * improvement listed can be answered by a sanction; earlier improvements do not count.
   */
  predicate LastUISanctioned(pay: seq<int>, d: nat, ups: seq<nat>, sancs: seq<seq<nat>>)
    requires d < |pay| && GmrShape(|pay|, ups, sancs)
  {
    forall z :: 0 <= z < |ups| && LastUI(pay, d, ups, z) ==> SanctionIn(pay, d, sancs[z])
  }

  /** sanc[w] is the first listed sanction: it pays less than d and no earlier entry does. */
  predicate FirstSanction(pay: seq<int>, d: nat, sanc: seq<nat>, w: nat)
    requires d < |pay| && Below(sanc, |pay|)
  {
    w < |sanc| && pay[sanc[w]] < pay[d] && forall w' :: 0 <= w' < w ==> pay[d] <= pay[sanc[w']]
  }

  /**
   * The SMR verdict of the original's loop: the first sanction listed for the last
   * improvement leaves no countermove to a state better than d.
   */
  predicate LastUISmrSanctioned(pay: seq<int>, d: nat, ups: seq<nat>, sancs: seq<seq<nat>>, cmss: seq<seq<seq<nat>>>)
    requires d < |pay| && SmrShape(|pay|, ups, sancs, cmss)
  {
    forall z :: 0 <= z < |ups| && LastUI(pay, d, ups, z) ==>
      exists w :: 0 <= w < |sancs[z]| && FirstSanction(pay, d, sancs[z], w) && NoImprovement(pay, d, cmss[z][w])
  }

  // ---------------------------------------------------------------------------------------
  // The checks

  /** The Nash check: the flag drops at the first reachable state paying more than d. */
  method NashFlag(pay: seq<int>, d: nat, ups: seq<nat>) returns (b: bool)
    requires d < |pay| && Below(ups, |pay|)
    ensures b == NoImprovement(pay, d, ups)
  {
    var z := 0;
    while z < |ups|
      invariant 0 <= z <= |ups|
      invariant forall z' :: 0 <= z' < z ==> pay[ups[z']] <= pay[d]
    {
      if pay[d] < pay[ups[z]] {
        assert ups[z] in ups;
        return false;
      }
      z := z + 1;
    }
    return true;
  }

  /** The sanction search: true at the first listed state paying less than d. */
  method SanctionFlag(pay: seq<int>, d: nat, sanc: seq<nat>) returns (b: bool)
    requires d < |pay| && Below(sanc, |pay|)
    ensures b == SanctionIn(pay, d, sanc)
  {
    var w := 0;
    while w < |sanc|
      invariant 0 <= w <= |sanc|
      invariant forall w' :: 0 <= w' < w ==> pay[sanc[w']] >= pay[d]
    {
      if pay[d] > pay[sanc[w]] {
        assert sanc[w] in sanc;
        return true;
      }
      w := w + 1;
    }
    return false;
  }

  /**
   * The intended GMR (and, on the SEQ lists, SEQ) check: a Nash-stable decision maker is
   * stable; otherwise the flag drops at the first improvement that no listed state sanctions.
   */
  method EveryUISanctionedFlag(pay: seq<int>, d: nat, ups: seq<nat>, sancs: seq<seq<nat>>, nash: bool)
    returns (b: bool)
    requires d < |pay| && GmrShape(|pay|, ups, sancs) && nash == NoImprovement(pay, d, ups)
    ensures b == EveryUISanctioned(pay, d, ups, sancs)
  {
    if nash {
      assert forall z :: 0 <= z < |ups| ==> ups[z] in ups;
      return true;
    }
    var z := 0;
    while z < |ups|
      invariant 0 <= z <= |ups|
      invariant forall z' :: 0 <= z' < z && pay[d] < pay[ups[z']] ==> SanctionIn(pay, d, sancs[z'])
    {
      if pay[d] < pay[ups[z]] {
        var s := SanctionFlag(pay, d, sancs[z]);
        if !s {
          return false;
        }
      }
      z := z + 1;
    }
    return true;
  }

  /** The search for a sanction without countermove among the sanctions of one improvement. */
  method EscapeFreeFlag(pay: seq<int>, d: nat, sanc: seq<nat>, cms: seq<seq<nat>>) returns (b: bool)
    requires d < |pay| && Below(sanc, |pay|) && |cms| == |sanc| && AllBelow(cms, |pay|)
    ensures b == EscapeFree(pay, d, sanc, cms)
  {
    var w := 0;
    while w < |sanc|
      invariant 0 <= w <= |sanc|
      invariant forall w' :: 0 <= w' < w && pay[sanc[w']] < pay[d] ==> !NoImprovement(pay, d, cms[w'])
    {
      if pay[d] > pay[sanc[w]] {
        var free := NashFlag(pay, d, cms[w]);
        if free {
          return true;
        }
      }
      w := w + 1;
    }
    return false;
  }

  /** The intended SMR check: the flag drops at the first improvement every sanction of which has a countermove. */
  method SmrFlag(pay: seq<int>, d: nat, ups: seq<nat>, sancs: seq<seq<nat>>, cmss: seq<seq<seq<nat>>>, nash: bool)
    returns (b: bool)
    requires d < |pay| && SmrShape(|pay|, ups, sancs, cmss) && nash == NoImprovement(pay, d, ups)
    ensures b == EveryUISmrSanctioned(pay, d, ups, sancs, cmss)
  {
    if nash {
      assert forall z :: 0 <= z < |ups| ==> ups[z] in ups;
      return true;
    }
    var z := 0;
    while z < |ups|
      invariant 0 <= z <= |ups|
      invariant forall z' :: 0 <= z' < z && pay[d] < pay[ups[z']] ==> EscapeFree(pay, d, sancs[z'], cmss[z'])
    {
      if pay[d] < pay[ups[z]] {
        var s := EscapeFreeFlag(pay, d, sancs[z], cmss[z]);
        if !s {
          return false;
        }
      }
      z := z + 1;
    }
    return true;
  }

  /**
   * The original's GMR loop (on the SEQ lists, its SEQ loop): a Nash-stable decision maker
   * keeps its flag; otherwise each improvement clears the flag and the first sanction found
   * for it sets the flag again, so the last improvement decides.
   */
  method LastUISanctionedFlag(pay: seq<int>, d: nat, ups: seq<nat>, sancs: seq<seq<nat>>, nash: bool)
    returns (b: bool)
    requires d < |pay| && GmrShape(|pay|, ups, sancs) && nash == NoImprovement(pay, d, ups)
    ensures b == LastUISanctioned(pay, d, ups, sancs)
  {
    LastUIFlagMeaning(pay, d, ups, sancs);
    if nash {
      return true;
    }
    b := nash;
    var z := 0;
    while z < |ups|
      invariant 0 <= z <= |ups|
      invariant LastUIFlag(pay, d, ups, sancs, z, b) == LastUIFlag(pay, d, ups, sancs, 0, nash)
    {
      if pay[d] < pay[ups[z]] {
        b := SanctionFlag(pay, d, sancs[z]);
      }
      z := z + 1;
    }
  }

  /**
   * The original's SMR search among the sanctions of one improvement: at the first sanction
   * the flag is set, cleared again if a countermove exists, and the search stops.
   */
  method FirstSanctionFlag(pay: seq<int>, d: nat, sanc: seq<nat>, cms: seq<seq<nat>>) returns (b: bool)
    requires d < |pay| && Below(sanc, |pay|) && |cms| == |sanc| && AllBelow(cms, |pay|)
    ensures b == FirstSanctionVerdict(pay, d, sanc, cms, 0)
    ensures b <==> exists w :: 0 <= w < |sanc| && FirstSanction(pay, d, sanc, w) && NoImprovement(pay, d, cms[w])
  {
    FirstSanctionVerdictMeaning(pay, d, sanc, cms, 0);
    var w := 0;
    while w < |sanc|
      invariant 0 <= w <= |sanc|
      invariant FirstSanctionVerdict(pay, d, sanc, cms, w) == FirstSanctionVerdict(pay, d, sanc, cms, 0)
    {
      if pay[d] > pay[sanc[w]] {
        b := NashFlag(pay, d, cms[w]);
        return;
      }
      w := w + 1;
    }
    return false;
  }

  /** The original's SMR loop: like the GMR loop, the last improvement decides, by its first sanction. */
  method LastUISmrFlag(pay: seq<int>, d: nat, ups: seq<nat>, sancs: seq<seq<nat>>, cmss: seq<seq<seq<nat>>>, nash: bool)
    returns (b: bool)
    requires d < |pay| && SmrShape(|pay|, ups, sancs, cmss) && nash == NoImprovement(pay, d, ups)
    ensures b == LastUISmrSanctioned(pay, d, ups, sancs, cmss)
  {
    SmrLastUIFlagMeaning(pay, d, ups, sancs, cmss);
    if nash {
      return true;
    }
    b := nash;
    var z := 0;
    while z < |ups|
      invariant 0 <= z <= |ups|
      invariant SmrLastUIFlag(pay, d, ups, sancs, cmss, z, b) == SmrLastUIFlag(pay, d, ups, sancs, cmss, 0, nash)
    {
      if pay[d] < pay[ups[z]] {
        b := FirstSanctionFlag(pay, d, sancs[z], cmss[z]);
      }
      z := z + 1;
    }
  }

  // ---------------------------------------------------------------------------------------
  // One row of a flag table: every decision maker under one combination of rankings

  /** The Nash loop over the decision makers, one payoff row and one list of reachable states each. */
  method NashRow(pay: seq<seq<int>>, d: nat, ups: seq<seq<nat>>) returns (n: seq<bool>)
    requires |ups| == |pay| && forall dm :: 0 <= dm < |pay| ==> d < |pay[dm]| && Below(ups[dm], |pay[dm]|)
    ensures |n| == |pay|
    ensures forall dm :: 0 <= dm < |pay| ==> n[dm] == NoImprovement(pay[dm], d, ups[dm])
  {
    n := [];
    for dm := 0 to |pay|
      invariant |n| == dm
      invariant forall dm' :: 0 <= dm' < dm ==> n[dm'] == NoImprovement(pay[dm'], d, ups[dm'])
    {
      var b := NashFlag(pay[dm], d, ups[dm]);
      n := n + [b];
    }
  }

  /** The GMR loop (on the SEQ lists, the SEQ loop) as written, starting from each decision maker's Nash flag. */
  method SanctionedRow(pay: seq<seq<int>>, d: nat, ups: seq<seq<nat>>, sancs: seq<seq<seq<nat>>>, n: seq<bool>)
    returns (g: seq<bool>)
    requires |ups| == |pay| && |sancs| == |pay| && |n| == |pay|
    requires forall dm :: 0 <= dm < |pay| ==>
      && d < |pay[dm]| && GmrShape(|pay[dm]|, ups[dm], sancs[dm])
      && n[dm] == NoImprovement(pay[dm], d, ups[dm])
    ensures |g| == |pay|
    ensures forall dm :: 0 <= dm < |pay| ==> g[dm] == LastUISanctioned(pay[dm], d, ups[dm], sancs[dm])
  {
    g := [];
    for dm := 0 to |pay|
      invariant |g| == dm
      invariant forall dm' :: 0 <= dm' < dm ==> g[dm'] == LastUISanctioned(pay[dm'], d, ups[dm'], sancs[dm'])
    {
      var b := LastUISanctionedFlag(pay[dm], d, ups[dm], sancs[dm], n[dm]);
      g := g + [b];
    }
  }

  /** The SMR loop as written, starting from each decision maker's Nash flag. */
  method SmrRow(pay: seq<seq<int>>, d: nat, ups: seq<seq<nat>>, sancs: seq<seq<seq<nat>>>,
                cmss: seq<seq<seq<seq<nat>>>>, n: seq<bool>) returns (sm: seq<bool>)
    requires |ups| == |pay| && |sancs| == |pay| && |cmss| == |pay| && |n| == |pay|
    requires forall dm :: 0 <= dm < |pay| ==>
      && d < |pay[dm]| && SmrShape(|pay[dm]|, ups[dm], sancs[dm], cmss[dm])
      && n[dm] == NoImprovement(pay[dm], d, ups[dm])
    ensures |sm| == |pay|
    ensures forall dm :: 0 <= dm < |pay| ==> sm[dm] == LastUISmrSanctioned(pay[dm], d, ups[dm], sancs[dm], cmss[dm])
  {
    sm := [];
    for dm := 0 to |pay|
      invariant |sm| == dm
      invariant forall dm' :: 0 <= dm' < dm ==> sm[dm'] == LastUISmrSanctioned(pay[dm'], d, ups[dm'], sancs[dm'], cmss[dm'])
    {
      var b := LastUISmrFlag(pay[dm], d, ups[dm], sancs[dm], cmss[dm], n[dm]);
      sm := sm + [b];
    }
  }

  // ---------------------------------------------------------------------------------------
  // How the concepts relate

  /** Without improvements every check passes, as intended and as written. */
  lemma NashPassesAll(pay: seq<int>, d: nat, ups: seq<nat>, sancs: seq<seq<nat>>, cmss: seq<seq<seq<nat>>>)
    requires d < |pay| && SmrShape(|pay|, ups, sancs, cmss) && NoImprovement(pay, d, ups)
    ensures EveryUISanctioned(pay, d, ups, sancs)
    ensures EveryUISmrSanctioned(pay, d, ups, sancs, cmss)
    ensures LastUISanctioned(pay, d, ups, sancs)
    ensures LastUISmrSanctioned(pay, d, ups, sancs, cmss)
  {
    assert forall z :: 0 <= z < |ups| ==> ups[z] in ups;
  }

  /** A sanction without countermove is a sanction: the SMR check implies the GMR check. */
  lemma SmrPassesGmr(pay: seq<int>, d: nat, ups: seq<nat>, sancs: seq<seq<nat>>, cmss: seq<seq<seq<nat>>>)
    requires d < |pay| && SmrShape(|pay|, ups, sancs, cmss) && EveryUISmrSanctioned(pay, d, ups, sancs, cmss)
    ensures EveryUISanctioned(pay, d, ups, sancs)
  {
    forall z | 0 <= z < |ups| && pay[d] < pay[ups[z]] ensures SanctionIn(pay, d, sancs[z]) {
      var w :| 0 <= w < |sancs[z]| && pay[sancs[z][w]] < pay[d] && NoImprovement(pay, d, cmss[z][w]);
      assert sancs[z][w] in sancs[z];
    }
  }

  /** Sanctions drawn from a sublist are sanctions of the full list (SEQ lists lie inside GMR lists). */
  lemma SubListSanctions(pay: seq<int>, d: nat, ups: seq<nat>, small: seq<seq<nat>>, large: seq<seq<nat>>)
    requires d < |pay| && GmrShape(|pay|, ups, small) && GmrShape(|pay|, ups, large)
    requires forall z, x :: 0 <= z < |ups| && x in small[z] ==> x in large[z]
    requires EveryUISanctioned(pay, d, ups, small)
    ensures EveryUISanctioned(pay, d, ups, large)
  {
    forall z | 0 <= z < |ups| && pay[d] < pay[ups[z]] ensures SanctionIn(pay, d, large[z]) {
      var x :| x in small[z] && pay[x] < pay[d];
    }
  }

  /** As written too, the SMR verdict implies the GMR verdict: a first sanction is a sanction. */
  lemma LastSmrPassesGmr(pay: seq<int>, d: nat, ups: seq<nat>, sancs: seq<seq<nat>>, cmss: seq<seq<seq<nat>>>)
    requires d < |pay| && SmrShape(|pay|, ups, sancs, cmss) && LastUISmrSanctioned(pay, d, ups, sancs, cmss)
    ensures LastUISanctioned(pay, d, ups, sancs)
  {
    forall z | 0 <= z < |ups| && LastUI(pay, d, ups, z) ensures SanctionIn(pay, d, sancs[z]) {
      var w :| 0 <= w < |sancs[z]| && FirstSanction(pay, d, sancs[z], w) && NoImprovement(pay, d, cmss[z][w]);
      assert sancs[z][w] in sancs[z];
    }
  }

  /** As written too, sanctions drawn from a sublist (the SEQ lists) pass on to the full list (the GMR lists). */
  lemma SubListLastUI(pay: seq<int>, d: nat, ups: seq<nat>, small: seq<seq<nat>>, large: seq<seq<nat>>)
    requires d < |pay| && GmrShape(|pay|, ups, small) && GmrShape(|pay|, ups, large)
    requires forall z, x :: 0 <= z < |ups| && x in small[z] ==> x in large[z]
    requires LastUISanctioned(pay, d, ups, small)
    ensures LastUISanctioned(pay, d, ups, large)
  {
    forall z | 0 <= z < |ups| && LastUI(pay, d, ups, z) ensures SanctionIn(pay, d, large[z]) {
      var x :| x in small[z] && pay[x] < pay[d];
    }
  }

  /** The verdict as written passes whenever the intended one does: only the last improvement is asked. */
  lemma IntendedPassesLastUI(pay: seq<int>, d: nat, ups: seq<nat>, sancs: seq<seq<nat>>)
    requires d < |pay| && GmrShape(|pay|, ups, sancs) && EveryUISanctioned(pay, d, ups, sancs)
    ensures LastUISanctioned(pay, d, ups, sancs)
  {
    forall z | 0 <= z < |ups| && LastUI(pay, d, ups, z) ensures SanctionIn(pay, d, sancs[z]) {
      assert pay[d] < pay[ups[z]];
    }
  }

  // ---------------------------------------------------------------------------------------
  // The loops as the original writes them

  /**
   * The original's GMR and SEQ loops: each improvement first clears the flag and sets it
   * again if one of its sanctions exists, so an earlier unsanctioned improvement is
   * forgotten. `flag` starts as the Nash verdict.
   */
  function LastUIFlag(pay: seq<int>, d: nat, ups: seq<nat>, sancs: seq<seq<nat>>, z: nat, flag: bool): bool
    requires d < |pay| && GmrShape(|pay|, ups, sancs) && z <= |ups|
    decreases |ups| - z
  {
    if z == |ups| then flag
    else LastUIFlag(pay, d, ups, sancs, z + 1, if pay[d] < pay[ups[z]] then SanctionIn(pay, d, sancs[z]) else flag)
  }

  /** As written, the verdict on the last improvement is the flag; earlier ones do not count. */
  lemma {:induction false} LastUIDecides(pay: seq<int>, d: nat, ups: seq<nat>, sancs: seq<seq<nat>>, z: nat, flag: bool, last: nat)
    requires d < |pay| && GmrShape(|pay|, ups, sancs) && z <= last < |ups|
    requires pay[d] < pay[ups[last]] && forall z' :: last < z' < |ups| ==> pay[ups[z']] <= pay[d]
    ensures LastUIFlag(pay, d, ups, sancs, z, flag) == SanctionIn(pay, d, sancs[last])
    decreases |ups| - z
  {
    if z < last {
      LastUIDecides(pay, d, ups, sancs, z + 1, if pay[d] < pay[ups[z]] then SanctionIn(pay, d, sancs[z]) else flag, last);
    } else {
      LastUIFlagKeeps(pay, d, ups, sancs, z + 1, SanctionIn(pay, d, sancs[last]));
    }
  }

  lemma {:induction false} LastUIFlagKeeps(pay: seq<int>, d: nat, ups: seq<nat>, sancs: seq<seq<nat>>, z: nat, flag: bool)
    requires d < |pay| && GmrShape(|pay|, ups, sancs) && z <= |ups|
    requires forall z' :: z <= z' < |ups| ==> pay[ups[z']] <= pay[d]
    ensures LastUIFlag(pay, d, ups, sancs, z, flag) == flag
    decreases |ups| - z
  {
    if z < |ups| {
      LastUIFlagKeeps(pay, d, ups, sancs, z + 1, flag);
    }
  }

  /** Two improvements, the first unsanctioned: as written the decision maker still counts as stable. */
  lemma LastUIFlagCounterexample()
    ensures LastUIFlag([1, 2, 2, 0], 0, [1, 2], [[], [3]], 0, NoImprovement([1, 2, 2, 0], 0, [1, 2]))
    ensures LastUISanctioned([1, 2, 2, 0], 0, [1, 2], [[], [3]])
    ensures !EveryUISanctioned([1, 2, 2, 0], 0, [1, 2], [[], [3]])
  {
    var pay, ups, sancs := [1, 2, 2, 0], [1, 2], [[], [3]];
    assert ups[1] in ups && pay[ups[1]] > pay[0];
    assert sancs[1][0] in sancs[1];
    LastUIDecides(pay, 0, ups, sancs, 0, NoImprovement(pay, 0, ups), 1);
    LastUIFlagMeaning(pay, 0, ups, sancs);
    assert !SanctionIn(pay, 0, sancs[0]);
  }

  /** Some improvement is listed last: the one the original's loops end on. */
  lemma {:induction false} FindLastUI(pay: seq<int>, d: nat, ups: seq<nat>, n: nat) returns (last: nat)
    requires d < |pay| && Below(ups, |pay|) && n <= |ups|
    requires exists z :: 0 <= z < n && pay[d] < pay[ups[z]]
    requires forall z' :: n <= z' < |ups| ==> pay[ups[z']] <= pay[d]
    ensures LastUI(pay, d, ups, last)
    decreases n
  {
    if pay[d] < pay[ups[n - 1]] {
      last := n - 1;
    } else {
      last := FindLastUI(pay, d, ups, n - 1);
    }
  }

  /** Run from the Nash verdict, the GMR loop as written reaches exactly LastUISanctioned. */
  lemma LastUIFlagMeaning(pay: seq<int>, d: nat, ups: seq<nat>, sancs: seq<seq<nat>>)
    requires d < |pay| && GmrShape(|pay|, ups, sancs)
    ensures LastUIFlag(pay, d, ups, sancs, 0, NoImprovement(pay, d, ups)) == LastUISanctioned(pay, d, ups, sancs)
  {
    var nash := NoImprovement(pay, d, ups);
    assert forall z :: 0 <= z < |ups| ==> ups[z] in ups;
    if nash {
      LastUIFlagKeeps(pay, d, ups, sancs, 0, nash);
    } else {
      var x :| x in ups && pay[d] < pay[x];
      var z :| 0 <= z < |ups| && ups[z] == x;
      var last := FindLastUI(pay, d, ups, |ups|);
      LastUIDecides(pay, d, ups, sancs, 0, nash, last);
    }
  }

  /**
   * The original's SMR search among the sanctions of one improvement: it stops at the first
   * sanction, judging by that sanction's countermoves alone.
   */
  function FirstSanctionVerdict(pay: seq<int>, d: nat, sanc: seq<nat>, cms: seq<seq<nat>>, w: nat): bool
    requires d < |pay| && Below(sanc, |pay|) && |cms| == |sanc| && AllBelow(cms, |pay|) && w <= |sanc|
    decreases |sanc| - w
  {
    if w == |sanc| then false
    else if pay[d] > pay[sanc[w]] then NoImprovement(pay, d, cms[w])
    else FirstSanctionVerdict(pay, d, sanc, cms, w + 1)
  }

  /** The original's SMR loop: the last improvement decides, by its first sanction. */
  function SmrLastUIFlag(pay: seq<int>, d: nat, ups: seq<nat>, sancs: seq<seq<nat>>, cmss: seq<seq<seq<nat>>>, z: nat, flag: bool): bool
    requires d < |pay| && SmrShape(|pay|, ups, sancs, cmss) && z <= |ups|
    decreases |ups| - z
  {
    if z == |ups| then flag
    else SmrLastUIFlag(pay, d, ups, sancs, cmss, z + 1,
      if pay[d] < pay[ups[z]] then FirstSanctionVerdict(pay, d, sancs[z], cmss[z], 0) else flag)
  }

  lemma {:induction false} SmrLastUIFlagKeeps(pay: seq<int>, d: nat, ups: seq<nat>, sancs: seq<seq<nat>>, cmss: seq<seq<seq<nat>>>, z: nat, flag: bool)
    requires d < |pay| && SmrShape(|pay|, ups, sancs, cmss) && z <= |ups|
    requires forall z' :: z <= z' < |ups| ==> pay[ups[z']] <= pay[d]
    ensures SmrLastUIFlag(pay, d, ups, sancs, cmss, z, flag) == flag
    decreases |ups| - z
  {
    if z < |ups| {
      SmrLastUIFlagKeeps(pay, d, ups, sancs, cmss, z + 1, flag);
    }
  }

  /** As written, the SMR flag is the verdict on the last improvement's first sanction. */
  lemma {:induction false} SmrLastUIDecides(pay: seq<int>, d: nat, ups: seq<nat>, sancs: seq<seq<nat>>, cmss: seq<seq<seq<nat>>>, z: nat, flag: bool, last: nat)
    requires d < |pay| && SmrShape(|pay|, ups, sancs, cmss) && z <= last && LastUI(pay, d, ups, last)
    ensures SmrLastUIFlag(pay, d, ups, sancs, cmss, z, flag) == FirstSanctionVerdict(pay, d, sancs[last], cmss[last], 0)
    decreases |ups| - z
  {
    if z < last {
      SmrLastUIDecides(pay, d, ups, sancs, cmss, z + 1,
        if pay[d] < pay[ups[z]] then FirstSanctionVerdict(pay, d, sancs[z], cmss[z], 0) else flag, last);
    } else {
      SmrLastUIFlagKeeps(pay, d, ups, sancs, cmss, z + 1, FirstSanctionVerdict(pay, d, sancs[last], cmss[last], 0));
    }
  }

  /** The search from w decides by the first sanction at or after w. */
  lemma {:induction false} FirstSanctionVerdictMeaning(pay: seq<int>, d: nat, sanc: seq<nat>, cms: seq<seq<nat>>, w: nat)
    requires d < |pay| && Below(sanc, |pay|) && |cms| == |sanc| && AllBelow(cms, |pay|) && w <= |sanc|
    requires forall w' :: 0 <= w' < w ==> pay[d] <= pay[sanc[w']]
    ensures FirstSanctionVerdict(pay, d, sanc, cms, w) <==>
      exists v :: 0 <= v < |sanc| && FirstSanction(pay, d, sanc, v) && NoImprovement(pay, d, cms[v])
    decreases |sanc| - w
  {
    if w < |sanc| {
      if pay[d] > pay[sanc[w]] {
        assert FirstSanction(pay, d, sanc, w);
      } else {
        FirstSanctionVerdictMeaning(pay, d, sanc, cms, w + 1);
      }
    }
  }

  /** Run from the Nash verdict, the SMR loop as written reaches exactly LastUISmrSanctioned. */
  lemma SmrLastUIFlagMeaning(pay: seq<int>, d: nat, ups: seq<nat>, sancs: seq<seq<nat>>, cmss: seq<seq<seq<nat>>>)
    requires d < |pay| && SmrShape(|pay|, ups, sancs, cmss)
    ensures SmrLastUIFlag(pay, d, ups, sancs, cmss, 0, NoImprovement(pay, d, ups)) == LastUISmrSanctioned(pay, d, ups, sancs, cmss)
  {
    var nash := NoImprovement(pay, d, ups);
    assert forall z :: 0 <= z < |ups| ==> ups[z] in ups;
    if nash {
      SmrLastUIFlagKeeps(pay, d, ups, sancs, cmss, 0, nash);
    } else {
      var x :| x in ups && pay[d] < pay[x];
      var z :| 0 <= z < |ups| && ups[z] == x;
      var last := FindLastUI(pay, d, ups, |ups|);
      SmrLastUIDecides(pay, d, ups, sancs, cmss, 0, nash, last);
      FirstSanctionVerdictMeaning(pay, d, sancs[last], cmss[last], 0);
    }
  }

  /** One improvement with two sanctions, only the second free of countermoves: as written not SMR. */
  lemma SmrFirstSanctionCounterexample()
    ensures !SmrLastUIFlag([1, 2, 0, 0, 3], 0, [1], [[2, 3]], [[[4], []]], 0, NoImprovement([1, 2, 0, 0, 3], 0, [1]))
    ensures !LastUISmrSanctioned([1, 2, 0, 0, 3], 0, [1], [[2, 3]], [[[4], []]])
    ensures EveryUISmrSanctioned([1, 2, 0, 0, 3], 0, [1], [[2, 3]], [[[4], []]])
  {
    var pay: seq<int>, ups: seq<nat>, sancs: seq<seq<nat>>, cmss: seq<seq<seq<nat>>> := [1, 2, 0, 0, 3], [1], [[2, 3]], [[[4], []]];
    assert cmss[0][0][0] in cmss[0][0] && pay[cmss[0][0][0]] > pay[0];
    assert !NoImprovement(pay, 0, cmss[0][0]);
    assert FirstSanctionVerdict(pay, 0, sancs[0], cmss[0], 0) == false;
    SmrLastUIFlagMeaning(pay, 0, ups, sancs, cmss);
    assert NoImprovement(pay, 0, cmss[0][1]);
    assert EscapeFree(pay, 0, sancs[0], cmss[0]);
  }
}
