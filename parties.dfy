/**
 * Decision makers, coalitions and the lists that hold them (DecisionMaker,
 * DecisionMakerList, Coalition, CoalitionList).
 *
 * A decision maker controls a list of options and states its preferences as a list of
 * conditions; a coalition joins decision makers and controls every option any of them does.
 */
module Parties {
  import Wrappers
  import opened Seqs
  import opened YesNo
  import opened Options
  import opened Conditions

  // ---------------------------------------------------------------------------------------
  // Decision makers

  /** A decision maker: its name, the options it controls and its preference statements. */
  class DecisionMaker {
    const name: string
    const options: OptionList
    const preferences: ConditionList

    /** DecisionMaker(conflict, name): no options yet and no preferences. */
    constructor(master: OptionList, name: string)
      requires master.master == null && NoDup(master.items)
      ensures this.name == name
      ensures fresh(options) && options.Valid() && options.master == master && options.items == []
      ensures fresh(preferences) && preferences.items == []
    {
      this.name := name;
      options := new OptionList(master);
      preferences := new ConditionList();
    }

    /**
     * weightPreferences: the statement at position i of n gets weight 2^(n-i-1), so the first
     * statement weighs most. Append never lists a condition twice, so every statement gets
     * the weight of its own position.
     */
    method WeightPreferences()
      requires NoDup(preferences.items)
      modifies set i | 0 <= i < |preferences.items| :: preferences.items[i]
      ensures forall i :: 0 <= i < |preferences.items| ==>
        preferences.items[i].weight == Pow2(|preferences.items| - i - 1)
    {
      var ps := preferences.items;
      for idx := 0 to |ps|
        invariant forall i :: 0 <= i < idx ==> ps[i].weight == Pow2(|ps| - i - 1)
      {
        ps[idx].weight := Pow2(|ps| - idx - 1);
      }
    }
  }

  /** The weights 2^(n-1), ..., 2^0 that weightPreferences gives, summed from position i on. */
  function WeightsFrom(n: nat, i: nat): (r: nat)
    requires i <= n
    decreases n - i
  {
    if i == n then 0 else Pow2(n - i - 1) + WeightsFrom(n, i + 1)
  }

  /** The weights from position i on add up to 2^(n-i) - 1. */
  lemma {:induction false} WeightsFromSum(n: nat, i: nat)
    requires i <= n
    ensures WeightsFrom(n, i) + 1 == Pow2(n - i)
    decreases n - i
  {
    if i < n {
      WeightsFromSum(n, i + 1);
    }
  }

  /**
   * A statement outweighs all the statements after it together, so a state that satisfies
   * it is preferred to every state that does not, whatever the later statements say.
   */
  lemma WeightDominates(n: nat, i: nat)
    requires i < n
    ensures Pow2(n - i - 1) > WeightsFrom(n, i + 1)
  {
    WeightsFromSum(n, i + 1);
  }

  /** Earlier statements weigh strictly more than later ones. */
  lemma WeightsDecrease(n: nat, i: nat, j: nat)
    requires i < j < n
    ensures Pow2(n - i - 1) > Pow2(n - j - 1)
  {
    Pow2Monotonic(n - j - 1, n - i - 1);
  }

  /** What DecisionMakerList.append is handed: a decision maker, a name, or anything else. */
  datatype DecisionMakerItem = DecisionMakerObject(dm: DecisionMaker) | DecisionMakerName(name: string) | NotADecisionMaker

  /** The conflict's decision makers. */
  class DecisionMakerList {
    var items: seq<DecisionMaker>
    const master: OptionList

    constructor(master: OptionList)
      ensures items == [] && this.master == master
    {
      items := [];
      this.master := master;
    }

    /**
     * append: a decision maker not yet listed is added at the end; a name becomes a new
     * decision maker of the conflict; anything else, or one already listed, is ignored.
     */
    method Append(item: DecisionMakerItem)
      requires master.master == null && NoDup(master.items)
      modifies this
      ensures item.DecisionMakerObject? && item.dm !in old(items) ==> items == old(items) + [item.dm]
      ensures item.DecisionMakerObject? && item.dm in old(items) ==> items == old(items)
      ensures item.NotADecisionMaker? ==> items == old(items)
      ensures item.DecisionMakerName? ==>
        && |items| == |old(items)| + 1 && items[..|old(items)|] == old(items)
        && var dm := items[|old(items)|];
           && fresh(dm) && dm.name == item.name
           && dm.options.master == master && dm.options.items == [] && dm.preferences.items == []
      ensures NoDup(old(items)) ==> NoDup(items)
    {
      if item.DecisionMakerObject? {
        if item.dm !in items {
          items := items + [item.dm];
        }
      } else if item.DecisionMakerName? {
        var dm := new DecisionMaker(master, item.name);
        items := items + [dm];
      }
    }
  }

  /** The names of the decision makers, in order. */
  function DecisionMakerNames(dms: seq<DecisionMaker>): (r: seq<string>)
    ensures |r| == |dms| && forall i :: 0 <= i < |dms| ==> r[i] == dms[i].name
  {
    if dms == [] then [] else [dms[0].name] + DecisionMakerNames(dms[1..])
  }

  // ---------------------------------------------------------------------------------------
  // Coalitions

  /** The options of each decision maker, one decision maker after the other. */
  function MemberOptions(dms: seq<DecisionMaker>): seq<Option>
    reads set i | 0 <= i < |dms| :: dms[i].options
  {
    if dms == [] then [] else MemberOptions(dms[..|dms| - 1]) + dms[|dms| - 1].options.items
  }

  /** An option is gathered exactly when some member controls it. */
  lemma {:induction false} MemberOptionsMember(dms: seq<DecisionMaker>, o: Option)
    ensures o in MemberOptions(dms) <==> exists i :: 0 <= i < |dms| && o in dms[i].options.items
  {
    if dms != [] {
      var init := dms[..|dms| - 1];
      MemberOptionsMember(init, o);
      if o in MemberOptions(dms) && o !in dms[|dms| - 1].options.items {
        var i :| 0 <= i < |init| && o in init[i].options.items;
        assert dms[i] == init[i];
      }
      if exists i :: 0 <= i < |dms| && o in dms[i].options.items {
        var i :| 0 <= i < |dms| && o in dms[i].options.items;
        if i < |init| {
          assert init[i] == dms[i];
        }
      }
    }
  }

  /** A coalition: its members, the name and options refresh derives from them. */
  class Coalition {
    var members: seq<DecisionMaker>
    var name: string
    var options: OptionList
    const master: OptionList

    /** Coalition(conflict, dms): the members are kept and refresh derives the rest. */
    constructor(master: OptionList, dms: seq<DecisionMaker>)
      requires master.Valid() && master.master == null
      modifies master, set o | o in MemberOptions(dms)
      ensures members == dms && this.master == master && fresh(options)
      ensures name == Join(DecisionMakerNames(dms), ", ")
      ensures options.master == master && options.Valid() && master.Valid()
      ensures options.items == Extend([], old(MemberOptions(dms)))
      ensures master.items == Extend(old(master.items), old(MemberOptions(dms)))
    {
      var xs := MemberOptions(dms);
      assert forall i :: 0 <= i < |xs| ==> xs[i] in xs;
      var list := Gather(master, xs);
      members := dms;
      this.master := master;
      name := Join(DecisionMakerNames(dms), ", ");
      options := list;
    }

    /**
     * refresh: the name joins the members' names with ", "; the options are gathered into a
     * fresh list over the master list, each member's options in turn, each listed once.
     */
    method Refresh()
      requires master.Valid() && master.master == null
      modifies this, master, set o | o in MemberOptions(members)
      ensures members == old(members)
      ensures name == Join(DecisionMakerNames(members), ", ")
      ensures fresh(options) && options.master == master && options.Valid() && master.Valid()
      ensures options.items == Extend([], old(MemberOptions(members)))
      ensures master.items == Extend(old(master.items), old(MemberOptions(members)))
    {
      name := Join(DecisionMakerNames(members), ", ");
      var xs := MemberOptions(members);
      assert forall i :: 0 <= i < |xs| ==> xs[i] in xs;
      options := Gather(master, xs);
    }
  }

  /** The coalition's options are those of its members, each listed once. */
  lemma RefreshedOptions(dms: seq<DecisionMaker>, o: Option)
    ensures o in Extend([], MemberOptions(dms)) <==> exists i :: 0 <= i < |dms| && o in dms[i].options.items
    ensures NoDup(Extend([], MemberOptions(dms)))
  {
    ExtendMember([], MemberOptions(dms), o);
    MemberOptionsMember(dms, o);
    ExtendNoDup([], MemberOptions(dms));
  }

  // ---------------------------------------------------------------------------------------
  // Coalition lists

  /** An entry of the coalition list: a coalition, or a decision maker on its own. */
  datatype Party = Alone(dm: DecisionMaker) | Joined(co: Coalition)

  /** The decision makers an entry stands for. */
  function PartyMembers(p: Party): seq<DecisionMaker>
    reads if p.Joined? then {p.co} else {}
  {
    if p.Joined? then p.co.members else [p.dm]
  }

  /** The decision makers of every entry, entry after entry. */
  function AllMembers(ps: seq<Party>): seq<DecisionMaker>
    reads set i | 0 <= i < |ps| && ps[i].Joined? :: ps[i].co
  {
    if ps == [] then [] else AllMembers(ps[..|ps| - 1]) + PartyMembers(ps[|ps| - 1])
  }

  /**
   * Removing each of xs in turn from w, as list.remove does: the rest, or None as soon as one
   * is missing (list.remove raises ValueError).
   */
  function RemoveEach(w: seq<DecisionMaker>, xs: seq<DecisionMaker>): Wrappers.Option<seq<DecisionMaker>>
  {
    if xs == [] then Wrappers.Some(w)
    else match RemoveEach(w, xs[..|xs| - 1])
      case None => Wrappers.None
      case Some(r) => if xs[|xs| - 1] in r then Wrappers.Some(Without(r, xs[|xs| - 1])) else Wrappers.None
  }

  /** Removing xs and then ys is removing ys from what xs left. */
  lemma {:induction false} RemoveEachAppend(w: seq<DecisionMaker>, xs: seq<DecisionMaker>, ys: seq<DecisionMaker>)
    ensures RemoveEach(w, xs + ys) ==
      match RemoveEach(w, xs)
      case None => Wrappers.None
      case Some(r) => RemoveEach(r, ys)
    decreases |ys|
  {
    if ys == [] {
      assert xs + ys == xs;
    } else {
      RemoveEachAppend(w, xs, ys[..|ys| - 1]);
      assert (xs + ys)[..|xs + ys| - 1] == xs + ys[..|ys| - 1];
    }
  }

  /** The members of the first k entries come first. */
  lemma {:induction false} AllMembersSplit(ps: seq<Party>, k: nat)
    requires k <= |ps|
    ensures AllMembers(ps) == AllMembers(ps[..k]) + AllMembers(ps[k..])
    decreases |ps|
  {
    if k < |ps| {
      var init := ps[..|ps| - 1];
      AllMembersSplit(init, k);
      assert init[..k] == ps[..k];
      assert ps[k..][..|ps[k..]| - 1] == init[k..];
    } else {
      assert ps[..k] == ps;
    }
  }

  /** When every removal succeeds, xs takes each decision maker at most as often as w lists it, and w less xs is left. */
  lemma {:induction false} RemoveEachSome(w: seq<DecisionMaker>, xs: seq<DecisionMaker>)
    requires RemoveEach(w, xs).Some?
    ensures multiset(xs) <= multiset(w)
    ensures multiset(RemoveEach(w, xs).value) == multiset(w) - multiset(xs)
  {
    if xs != [] {
      var init, x := xs[..|xs| - 1], xs[|xs| - 1];
      assert xs == init + [x];
      RemoveEachSome(w, init);
      var r := RemoveEach(w, init).value;
      assert x in r;
      WithoutMultiset(r, x);
      assert multiset(r)[x] > 0;
      assert multiset(xs) == multiset(init) + multiset{x};
    }
  }

  /** When some removal fails, xs takes some decision maker more often than w lists it. */
  lemma {:induction false} RemoveEachNone(w: seq<DecisionMaker>, xs: seq<DecisionMaker>)
    requires RemoveEach(w, xs).None?
    ensures !(multiset(xs) <= multiset(w))
  {
    var init, x := xs[..|xs| - 1], xs[|xs| - 1];
    assert xs == init + [x];
    assert multiset(xs) == multiset(init) + multiset{x};
    if RemoveEach(w, init).None? {
      RemoveEachNone(w, init);
      var y :| multiset(init)[y] > multiset(w)[y];
      assert multiset(xs)[y] > multiset(w)[y];
    } else {
      RemoveEachSome(w, init);
      var r := RemoveEach(w, init).value;
      assert x !in r;
      assert multiset(r)[x] == 0;
      assert multiset(xs)[x] > multiset(w)[x];
    }
  }

  /** What CoalitionList.append is handed: a coalition, a decision maker, or anything else. */
  datatype CoalitionItem = CoalitionObject(co: Coalition) | DecisionMakerEntry(dm: DecisionMaker) | NotAParty(text: string)

  /** The parties of the conflict: coalitions and decision makers acting alone. */
  class CoalitionList {
    var items: seq<Party>

    constructor()
      ensures items == []
    {
      items := [];
    }

    /**
     * append: a coalition not yet listed, or any decision maker, is added at the end; anything
     * else raises TypeError naming it, and so does a coalition already listed.
     */
    method Append(item: CoalitionItem) returns (r: Wrappers.Outcome)
      modifies this
      ensures item.CoalitionObject? && Joined(item.co) !in old(items) ==>
        r == Wrappers.Pass && items == old(items) + [Joined(item.co)]
      ensures item.DecisionMakerEntry? ==> r == Wrappers.Pass && items == old(items) + [Alone(item.dm)]
      ensures item.CoalitionObject? && Joined(item.co) in old(items) ==>
        r == Wrappers.Fail(Wrappers.TypeError(item.co.name + " is not a Coalition")) && items == old(items)
      ensures item.NotAParty? ==>
        r == Wrappers.Fail(Wrappers.TypeError(item.text + " is not a Coalition")) && items == old(items)
    {
      if item.CoalitionObject? && Joined(item.co) !in items {
        items := items + [Joined(item.co)];
        r := Wrappers.Pass;
      } else if item.DecisionMakerEntry? {
        items := items + [Alone(item.dm)];
        r := Wrappers.Pass;
      } else if item.CoalitionObject? {
        r := Wrappers.Fail(Wrappers.TypeError(item.co.name + " is not a Coalition"));
      } else {
        r := Wrappers.Fail(Wrappers.TypeError(item.text + " is not a Coalition"));
      }
    }

    /**
     * validate: a working copy of the conflict's decision makers loses each member of each
     * entry in turn; ValueError when one is missing, otherwise whether nothing is left.
     */
    method Validate(dms: seq<DecisionMaker>) returns (r: Wrappers.Result<bool>)
      ensures RemoveEach(dms, AllMembers(items)).None? ==>
        r == Wrappers.Err(Wrappers.ValueError("list.remove(x): x not in list"))
      ensures RemoveEach(dms, AllMembers(items)).Some? ==>
        r == Wrappers.Ok(RemoveEach(dms, AllMembers(items)).value == [])
    {
      var w := dms;
      for i := 0 to |items|
        invariant RemoveEach(dms, AllMembers(items[..i])) == Wrappers.Some(w)
      {
        var ms := PartyMembers(items[i]);
        assert items[..i + 1][..i] == items[..i] && items[..i + 1][i] == items[i];
        assert AllMembers(items[..i + 1]) == AllMembers(items[..i]) + ms;
        RemoveEachAppend(dms, AllMembers(items[..i]), ms);
        var rest := RemoveMembers(w, ms);
        if rest.None? {
          RemoveEachPrefix(dms, items, i + 1);
          return Wrappers.Err(Wrappers.ValueError("list.remove(x): x not in list"));
        }
        w := rest.value;
      }
      assert items[..|items|] == items;
      return Wrappers.Ok(|w| == 0);
    }
  }

  /** for dm in co: dms.remove(dm) -- the rest, or None where list.remove would raise. */
  method RemoveMembers(w: seq<DecisionMaker>, xs: seq<DecisionMaker>) returns (r: Wrappers.Option<seq<DecisionMaker>>)
    ensures r == RemoveEach(w, xs)
  {
    var rest := w;
    for j := 0 to |xs|
      invariant RemoveEach(w, xs[..j]) == Wrappers.Some(rest)
    {
      assert xs[..j + 1][..j] == xs[..j];
      if xs[j] !in rest {
        RemoveEachAppend(w, xs[..j + 1], xs[j + 1..]);
        assert xs[..j + 1] + xs[j + 1..] == xs;
        return Wrappers.None;
      }
      rest := Without(rest, xs[j]);
    }
    assert xs[..|xs|] == xs;
    return Wrappers.Some(rest);
  }

  /** Once a removal fails, the removals of the whole list fail. */
  lemma RemoveEachPrefix(w: seq<DecisionMaker>, ps: seq<Party>, k: nat)
    requires k <= |ps| && RemoveEach(w, AllMembers(ps[..k])).None?
    ensures RemoveEach(w, AllMembers(ps)).None?
  {
    AllMembersSplit(ps, k);
    RemoveEachAppend(w, AllMembers(ps[..k]), AllMembers(ps[k..]));
  }

  /**
   * validate returns True exactly when the entries together take every decision maker of the
   * conflict exactly once, and raises exactly when they take one more often than it is listed.
   */
  lemma ValidateCovers(dms: seq<DecisionMaker>, ps: seq<Party>)
    ensures RemoveEach(dms, AllMembers(ps)).None? <==> !(multiset(AllMembers(ps)) <= multiset(dms))
    ensures RemoveEach(dms, AllMembers(ps)) == Wrappers.Some([]) <==> multiset(AllMembers(ps)) == multiset(dms)
  {
    var xs := AllMembers(ps);
    var r := RemoveEach(dms, xs);
    if r.None? {
      RemoveEachNone(dms, xs);
    } else {
      RemoveEachSome(dms, xs);
      if multiset(xs) == multiset(dms) {
        assert multiset(r.value) == multiset{};
      }
    }
  }
}
