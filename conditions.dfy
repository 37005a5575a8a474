/**
 * Conditions on states and the lists that hold them (Condition, CompoundCondition,
 * ConditionList).
 *
 * A simple condition pairs options with the value 'Y' or 'N' each must take; a compound
 * condition is the union of simple ones. Both compute option positions from the master
 * option list (what set_indexes writes into masterIndex), so they are modelled as functions
 * of that list.
 */
module Conditions {
  import Wrappers
  import opened Seqs
  import opened YesNo
  import opened Options

  /** What a simple condition holds: its options (listed once each) and the values given. */
  datatype Simple = Simple(options: seq<Option>, taken: seq<char>)

  /** cond() pairs options with values position by position and stops at the shorter list. */
  function PairCount(c: Simple): nat {
    if |c.options| <= |c.taken| then |c.options| else |c.taken|
  }

  /** Every option of c is in the master list (what isValid checks). */
  predicate Listed(master: seq<Option>, c: Simple) {
    forall j :: 0 <= j < |c.options| ==> c.options[j] in master
  }

  // ---------------------------------------------------------------------------------------
  // Yes/No/Dash notation and matching

  /** ynd() after the first n pairs: '-' everywhere, then each value at its option's index. */
  function YnDAfter(master: seq<Option>, c: Simple, n: nat): (r: string)
    requires Listed(master, c) && n <= PairCount(c)
    ensures |r| == |master|
  {
    if n == 0 then seq(|master|, _ => '-')
    else YnDAfter(master, c, n - 1)[IndexOf(master, c.options[n - 1]) := c.taken[n - 1]]
  }

  /** ynd(): the condition in Yes/No/Dash notation, one character per master option. */
  function YnD(master: seq<Option>, c: Simple): (r: string)
    requires Listed(master, c)
    ensures |r| == |master|
  {
    YnDAfter(master, c, PairCount(c))
  }

  /** Position k of the notation holds the value paired with option k, or '-' for none. */
  lemma {:induction false} YnDAfterAt(master: seq<Option>, c: Simple, n: nat, k: nat)
    requires Listed(master, c) && n <= PairCount(c) && NoDup(master) && NoDup(c.options) && k < |master|
    ensures YnDAfter(master, c, n)[k] ==
      if master[k] in c.options[..n] then c.taken[IndexOf(c.options, master[k])] else '-'
  {
    if n > 0 {
      YnDAfterAt(master, c, n - 1, k);
      var o := c.options[n - 1];
      var i := IndexOf(master, o);
      assert c.options[..n] == c.options[..n - 1] + [o];
      if i == k {
        assert IndexOf(c.options, o) == n - 1;
      } else {
        assert master[k] != o;
      }
    }
  }

  /** test(state) from pair j on: each paired option's character in yn equals its value. */
  function TestFrom(master: seq<Option>, c: Simple, yn: string, j: nat): (r: bool)
    requires Listed(master, c) && |yn| == |master| && j <= PairCount(c)
    ensures r <==> forall i :: j <= i < PairCount(c) ==> yn[IndexOf(master, c.options[i])] == c.taken[i]
    decreases PairCount(c) - j
  {
    if j == PairCount(c) then true
    else if yn[IndexOf(master, c.options[j])] != c.taken[j] then false
    else TestFrom(master, c, yn, j + 1)
  }

  /**
   * test(state): the state, written as dec2yn(state) over the master options, has each
   * paired option at its value.
   */
  function Test(master: seq<Option>, c: Simple, state: nat): (r: bool)
    requires Listed(master, c)
    ensures r <==> forall i :: 0 <= i < PairCount(c) ==>
      DecToYN(state, |master|)[IndexOf(master, c.options[i])] == c.taken[i]
  {
    TestFrom(master, c, DecToYN(state, |master|), 0)
  }

  /**
   * A state satisfies a condition exactly when it matches the condition's Yes/No/Dash
   * pattern: every position of the pattern is '-' or the state's own character.
   */
  lemma TestMatchesPattern(master: seq<Option>, c: Simple, state: nat)
    requires Listed(master, c) && NoDup(master) && NoDup(c.options) && IsYN(c.taken)
    ensures Test(master, c, state) <==>
      forall k :: 0 <= k < |master| ==> YnD(master, c)[k] == '-' || YnD(master, c)[k] == DecToYN(state, |master|)[k]
  {
    if Test(master, c, state) {
      TestGivesPattern(master, c, state);
    }
    if forall k :: 0 <= k < |master| ==> YnD(master, c)[k] == '-' || YnD(master, c)[k] == DecToYN(state, |master|)[k] {
      PatternGivesTest(master, c, state);
    }
  }

  lemma TestGivesPattern(master: seq<Option>, c: Simple, state: nat)
    requires Listed(master, c) && NoDup(master) && NoDup(c.options) && IsYN(c.taken)
    requires Test(master, c, state)
    ensures forall k :: 0 <= k < |master| ==> YnD(master, c)[k] == '-' || YnD(master, c)[k] == DecToYN(state, |master|)[k]
  {
    var yn := DecToYN(state, |master|);
    var p := YnD(master, c);
    var n := PairCount(c);
    forall k | 0 <= k < |master|
      ensures p[k] == '-' || p[k] == yn[k]
    {
      YnDAfterAt(master, c, n, k);
      if master[k] in c.options[..n] {
        var j := IndexOf(c.options, master[k]);
        assert j < n by {
          var j' :| 0 <= j' < n && c.options[..n][j'] == master[k];
          assert c.options[j'] == master[k];
        }
        assert IndexOf(master, c.options[j]) == k;
      }
    }
  }

  lemma PatternGivesTest(master: seq<Option>, c: Simple, state: nat)
    requires Listed(master, c) && NoDup(master) && NoDup(c.options) && IsYN(c.taken)
    requires forall k :: 0 <= k < |master| ==> YnD(master, c)[k] == '-' || YnD(master, c)[k] == DecToYN(state, |master|)[k]
    ensures Test(master, c, state)
  {
    var yn := DecToYN(state, |master|);
    var p := YnD(master, c);
    var n := PairCount(c);
    forall i | 0 <= i < n
      ensures yn[IndexOf(master, c.options[i])] == c.taken[i]
    {
      var k := IndexOf(master, c.options[i]);
      YnDAfterAt(master, c, n, k);
      assert c.options[..n][i] == master[k];
      assert IndexOf(c.options, master[k]) == i;
    }
  }

  /** CompoundCondition.test: some member condition holds (so an empty union never does). */
  function AnyTest(master: seq<Option>, ms: seq<Simple>, state: nat): (r: bool)
    requires forall i :: 0 <= i < |ms| ==> Listed(master, ms[i])
    ensures r <==> exists i :: 0 <= i < |ms| && Test(master, ms[i], state)
  {
    if ms == [] then false
    else
      assert forall i :: 1 <= i < |ms| ==> ms[1..][i - 1] == ms[i];
      Test(master, ms[0], state) || AnyTest(master, ms[1..], state)
  }

  // ---------------------------------------------------------------------------------------
  // Names

  /** Python's string order: character by character, a proper prefix first. */
  predicate StrLe(a: string, b: string) {
    a == [] || (b != [] && (a[0] < b[0] || (a[0] == b[0] && StrLe(a[1..], b[1..]))))
  }

  lemma {:induction false} StrLeTotal(a: string, b: string)
    ensures StrLe(a, b) || StrLe(b, a)
  {
    if a != [] && b != [] && a[0] == b[0] {
      StrLeTotal(a[1..], b[1..]);
    }
  }

  lemma {:induction false} StrLeAntisymmetric(a: string, b: string)
    requires StrLe(a, b) && StrLe(b, a)
    ensures a == b
  {
    if a != [] && b != [] {
      StrLeAntisymmetric(a[1..], b[1..]);
      assert a == [a[0]] + a[1..] && b == [b[0]] + b[1..];
    }
  }

  lemma {:induction false} StrLeTransitive(a: string, b: string, c: string)
    requires StrLe(a, b) && StrLe(b, c)
    ensures StrLe(a, c)
  {
    if a != [] && b != [] && c != [] && a[0] == b[0] && b[0] == c[0] {
      StrLeTransitive(a[1..], b[1..], c[1..]);
    }
  }

  /** Each string is at most the next. */
  predicate SortedStrings(xs: seq<string>) {
    forall i :: 0 <= i < |xs| - 1 ==> StrLe(xs[i], xs[i + 1])
  }

  /** One step of insertion sort: x goes before the first string it does not exceed. */
  function InsertString(x: string, xs: seq<string>): seq<string> {
    if xs == [] || StrLe(x, xs[0]) then [x] + xs else [xs[0]] + InsertString(x, xs[1..])
  }

  /** Inserting into a sorted list keeps it sorted; the result starts with x or with xs[0]. */
  lemma {:induction false} InsertStringSorted(x: string, xs: seq<string>)
    requires SortedStrings(xs)
    ensures var r := InsertString(x, xs);
      SortedStrings(r) && r != [] && (r[0] == x || (xs != [] && r[0] == xs[0]))
  {
    if xs != [] && !StrLe(x, xs[0]) {
      StrLeTotal(x, xs[0]);
      InsertStringSorted(x, xs[1..]);
    }
  }

  /** Inserting adds exactly one copy of x. */
  lemma {:induction false} InsertStringMultiset(x: string, xs: seq<string>)
    ensures multiset(InsertString(x, xs)) == multiset(xs) + multiset{x}
  {
    if xs != [] && !StrLe(x, xs[0]) {
      InsertStringMultiset(x, xs[1..]);
      assert xs == [xs[0]] + xs[1..];
    }
  }

  /** sorted(xs): the strings in increasing order. */
  function SortStrings(xs: seq<string>): seq<string> {
    if xs == [] then [] else InsertString(xs[0], SortStrings(xs[1..]))
  }

  /** sorted(xs) is in order. */
  lemma {:induction false} SortStringsSorted(xs: seq<string>)
    ensures SortedStrings(SortStrings(xs))
  {
    if xs != [] {
      SortStringsSorted(xs[1..]);
      InsertStringSorted(xs[0], SortStrings(xs[1..]));
    }
  }

  /** sorted(xs) holds the same strings as xs, each as often. */
  lemma {:induction false} SortStringsPermutes(xs: seq<string>)
    ensures multiset(SortStrings(xs)) == multiset(xs)
  {
    if xs != [] {
      SortStringsPermutes(xs[1..]);
      InsertStringMultiset(xs[0], SortStrings(xs[1..]));
      assert xs == [xs[0]] + xs[1..];
    }
  }

  /** The first string of a sorted list is at most every string of it. */
  lemma {:induction false} SortedFirst(xs: seq<string>, k: nat)
    requires SortedStrings(xs) && k < |xs|
    ensures StrLe(xs[0], xs[k])
  {
    if k == 0 {
      StrLeTotal(xs[0], xs[0]);
    } else {
      SortedFirst(xs, k - 1);
      StrLeTransitive(xs[0], xs[k - 1], xs[k]);
    }
  }

  lemma SortedTail(xs: seq<string>)
    requires SortedStrings(xs) && xs != []
    ensures SortedStrings(xs[1..])
  {
    forall i | 0 <= i < |xs| - 2
      ensures StrLe(xs[1..][i], xs[1..][i + 1])
    {
      assert xs[1..][i] == xs[i + 1] && xs[1..][i + 1] == xs[i + 2];
    }
  }

  /** Two sorted lists holding the same strings are the same list. */
  lemma {:induction false} SortedUnique(xs: seq<string>, ys: seq<string>)
    requires SortedStrings(xs) && SortedStrings(ys) && multiset(xs) == multiset(ys)
    ensures xs == ys
  {
    if xs == [] {
      assert |ys| == |multiset(ys)| == 0;
    } else {
      assert |ys| == |multiset(ys)| == |xs|;
      assert xs[0] in multiset(ys) && ys[0] in multiset(xs);
      var i :| 0 <= i < |ys| && ys[i] == xs[0];
      var j :| 0 <= j < |xs| && xs[j] == ys[0];
      SortedFirst(ys, i);
      SortedFirst(xs, j);
      StrLeAntisymmetric(xs[0], ys[0]);
      SameTails(xs, ys);
      SortedTail(xs);
      SortedTail(ys);
      SortedUnique(xs[1..], ys[1..]);
    }
  }

  /** Lists with the same first element and the same elements have tails with the same elements. */
  lemma SameTails(xs: seq<string>, ys: seq<string>)
    requires xs != [] && ys != [] && xs[0] == ys[0] && multiset(xs) == multiset(ys)
    ensures multiset(xs[1..]) == multiset(ys[1..])
  {
    assert xs == [xs[0]] + xs[1..] && ys == [ys[0]] + ys[1..];
    assert multiset(xs[1..]) == multiset(xs) - multiset{xs[0]};
    assert multiset(ys[1..]) == multiset(ys) - multiset{ys[0]};
  }

  /** CompoundCondition.ynd(): the notation of each member. */
  function YnDs(master: seq<Option>, ms: seq<Simple>): (r: seq<string>)
    requires forall i :: 0 <= i < |ms| ==> Listed(master, ms[i])
    ensures |r| == |ms|
  {
    if ms == [] then [] else [YnD(master, ms[0])] + YnDs(master, ms[1..])
  }

  /** Entry i of the compound notation is the notation of member i. */
  lemma {:induction false} YnDsAt(master: seq<Option>, ms: seq<Simple>, i: nat)
    requires forall i :: 0 <= i < |ms| ==> Listed(master, ms[i])
    requires i < |ms|
    ensures YnDs(master, ms)[i] == YnD(master, ms[i])
  {
    if i > 0 {
      YnDsAt(master, ms[1..], i - 1);
    }
  }

  /** CompoundCondition.updateName: the members' notations in sorted order, joined by ", ". */
  function CompoundName(master: seq<Option>, ms: seq<Simple>): (r: string)
    requires forall i :: 0 <= i < |ms| ==> Listed(master, ms[i])
  {
    Join(SortStrings(YnDs(master, ms)), ", ")
  }

  /**
   * The compound name ignores the order of the members: members whose notations are the same,
   * each as often, in any order, give the same name.
   */
  lemma CompoundNameOrderFree(master: seq<Option>, ms1: seq<Simple>, ms2: seq<Simple>)
    requires forall i :: 0 <= i < |ms1| ==> Listed(master, ms1[i])
    requires forall i :: 0 <= i < |ms2| ==> Listed(master, ms2[i])
    requires multiset(YnDs(master, ms1)) == multiset(YnDs(master, ms2))
    ensures CompoundName(master, ms1) == CompoundName(master, ms2)
  {
    var a, b := YnDs(master, ms1), YnDs(master, ms2);
    SortStringsSorted(a);
    SortStringsSorted(b);
    SortStringsPermutes(a);
    SortStringsPermutes(b);
    SortedUnique(SortStrings(a), SortStrings(b));
  }

  // ---------------------------------------------------------------------------------------
  // Condition objects

  /**
   * A Condition or CompoundCondition object: a simple one has exactly one member. The name
   * and the weight (set by weightPreferences) change in place.
   */
  class Condition {
    const isCompound: bool
    const members: seq<Simple>
    var name: string
    var weight: int

    predicate Valid() {
      isCompound || |members| == 1
    }

    /** Every option of every member is in the master list. */
    predicate ListedIn(master: seq<Option>) {
      forall i :: 0 <= i < |members| ==> Listed(master, members[i])
    }

    /** test(state) of either kind. */
    function Matches(master: seq<Option>, state: nat): (r: bool)
      requires Valid() && ListedIn(master)
      ensures r <==> exists i :: 0 <= i < |members| && Test(master, members[i], state)
    {
      if isCompound then AnyTest(master, members, state) else Test(master, members[0], state)
    }

    /** The name updateName gives, for either kind. */
    function NameIn(master: seq<Option>): string
      requires Valid() && ListedIn(master)
    {
      if isCompound then CompoundName(master, members) else YnD(master, members[0])
    }

    /**
     * Condition(conflict, pairs): the options go through a fresh OptionList over the master
     * list (so each is listed once and registered with the master list), the values are
     * kept as given, and the name is the notation.
     */
    constructor FromPairs(master: OptionList, pairs: seq<(Option, char)>)
      requires master.Valid() && master.master == null
      modifies master, set i | 0 <= i < |pairs| :: pairs[i].0
      ensures Valid() && !isCompound
      ensures members == [Built(pairs)]
      ensures master.Valid() && master.items == Extend(old(master.items), Firsts(pairs))
      ensures ListedIn(master.items) && name == BuiltName(old(master.items), pairs)
    {
      var opts := Collect(master, pairs);
      var taken := Seconds(pairs);
      forall j | 0 <= j < |opts| ensures opts[j] in master.items {
        ExtendMember([], Firsts(pairs), opts[j]);
        ExtendMember(old(master.items), Firsts(pairs), opts[j]);
      }
      isCompound := false;
      members := [Simple(opts, taken)];
      name := YnD(master.items, Simple(opts, taken));
      weight := 0;
    }

    /**
     * CompoundCondition(conflict, members): each member is built as Condition(conflict, pairs)
     * would build it, one after the other, and the name is the sorted member notations.
     */
    constructor FromMembers(master: OptionList, data: seq<seq<(Option, char)>>)
      requires master.Valid() && master.master == null
      modifies master, set i, j | 0 <= i < |data| && 0 <= j < |data[i]| :: data[i][j].0
      ensures Valid() && isCompound
      ensures |members| == |data|
      ensures members == Builts(data)
      ensures master.Valid() && master.items == Extend(old(master.items), AllFirsts(data))
      ensures ListedIn(master.items) && name == BuiltsName(old(master.items), data)
    {
      var ms := BuildMembers(master, data);
      isCompound := true;
      members := ms;
      name := CompoundName(master.items, ms);
      weight := 0;
    }

    /**
     * isValid(): false when some option of the condition is no longer in the master list;
     * otherwise the name is brought up to date.
     */
    method IsValid(master: seq<Option>) returns (r: bool)
      requires Valid()
      modifies this
      ensures r <==> ListedIn(master)
      ensures r ==> name == NameIn(master)
      ensures !r ==> name == old(name)
      ensures weight == old(weight)
    {
      for i := 0 to |members|
        invariant forall i' :: 0 <= i' < i ==> Listed(master, members[i'])
      {
        for j := 0 to |members[i].options|
          invariant forall j' :: 0 <= j' < j ==> members[i].options[j'] in master
        {
          if members[i].options[j] !in master {
            return false;
          }
        }
      }
      name := NameIn(master);
      return true;
    }
  }

  /**
   * The loop of Condition(conflict, pairs): each option is appended to a fresh OptionList
   * over the master list; the values are kept as given.
   */
  method Collect(master: OptionList, pairs: seq<(Option, char)>) returns (opts: seq<Option>)
    requires master.Valid() && master.master == null
    modifies master, set i | 0 <= i < |pairs| :: pairs[i].0
    ensures master.Valid()
    ensures opts == Extend([], Firsts(pairs))
    ensures master.items == Extend(old(master.items), Firsts(pairs))
  {
    var list := Gather(master, Firsts(pairs));
    opts := list.items;
  }

  /**
   * The simple condition Condition(conflict, pairs) holds: its options listed once each, in
   * order of first appearance, and the values as given.
   */
  function Built(pairs: seq<(Option, char)>): Simple {
    Simple(Extend([], Firsts(pairs)), Seconds(pairs))
  }

  /** A condition built against the master list extended by its options is listed there. */
  lemma BuiltListed(master: seq<Option>, pairs: seq<(Option, char)>)
    ensures Listed(Extend(master, Firsts(pairs)), Built(pairs))
  {
    var c := Built(pairs);
    forall j | 0 <= j < |c.options| ensures c.options[j] in Extend(master, Firsts(pairs)) {
      ExtendMember([], Firsts(pairs), c.options[j]);
      ExtendMember(master, Firsts(pairs), c.options[j]);
    }
  }

  /** Conditions listed in a master list stay listed when the list is extended. */
  lemma ListedGrows(master: seq<Option>, xs: seq<Option>, ms: seq<Simple>)
    requires forall k :: 0 <= k < |ms| ==> Listed(master, ms[k])
    ensures forall k :: 0 <= k < |ms| ==> Listed(Extend(master, xs), ms[k])
  {
    forall k, j | 0 <= k < |ms| && 0 <= j < |ms[k].options|
      ensures ms[k].options[j] in Extend(master, xs)
    {
      ExtendMember(master, xs, ms[k].options[j]);
    }
  }

  /** The simple conditions the members of CompoundCondition(conflict, data) hold. */
  function Builts(data: seq<seq<(Option, char)>>): (r: seq<Simple>)
    ensures |r| == |data|
  {
    if data == [] then [] else Builts(data[..|data| - 1]) + [Built(data[|data| - 1])]
  }

  /** Member i of the compound condition is the simple condition built from its data. */
  lemma {:induction false} BuiltsAt(data: seq<seq<(Option, char)>>, i: nat)
    requires i < |data|
    ensures Builts(data)[i] == Built(data[i])
  {
    if i < |data| - 1 {
      BuiltsAt(data[..|data| - 1], i);
    }
  }

  /**
   * The loop of CompoundCondition(conflict, members): each member is built in turn, growing
   * the master list as it goes.
   */
  method BuildMembers(master: OptionList, data: seq<seq<(Option, char)>>) returns (ms: seq<Simple>)
    requires master.Valid() && master.master == null
    modifies master, set i, j | 0 <= i < |data| && 0 <= j < |data[i]| :: data[i][j].0
    ensures master.Valid() && master.items == Extend(old(master.items), AllFirsts(data))
    ensures ms == Builts(data)
    ensures forall k :: 0 <= k < |ms| ==> Listed(master.items, ms[k])
  {
    ms := [];
    for i := 0 to |data|
      invariant master.Valid() && master.master == null
      invariant master.items == Extend(old(master.items), AllFirsts(data[..i]))
      invariant ms == Builts(data[..i])
      invariant forall k :: 0 <= k < i ==> Listed(master.items, ms[k])
    {
      assert data[..i + 1][..i] == data[..i];
      ExtendAppend(old(master.items), AllFirsts(data[..i]), Firsts(data[i]));
      ms := AddMember(master, ms, data[i]);
    }
    assert data[..|data|] == data;
  }

  /**
   * One round of the CompoundCondition loop: the member built from pairs (as Collect
   * builds it) joins the members, all of them listed in the grown master list.
   */
  method AddMember(master: OptionList, ms: seq<Simple>, pairs: seq<(Option, char)>) returns (ms': seq<Simple>)
    requires master.Valid() && master.master == null
    requires forall k :: 0 <= k < |ms| ==> Listed(master.items, ms[k])
    modifies master, set i | 0 <= i < |pairs| :: pairs[i].0
    ensures master.Valid() && master.items == Extend(old(master.items), Firsts(pairs))
    ensures ms' == ms + [Built(pairs)]
    ensures forall k :: 0 <= k < |ms'| ==> Listed(master.items, ms'[k])
  {
    ListedGrows(master.items, Firsts(pairs), ms);
    BuiltListed(master.items, pairs);
    var opts := Collect(master, pairs);
    ms' := ms + [Simple(opts, Seconds(pairs))];
  }

  /** The name of the condition built from pairs against the master list ms. */
  function BuiltName(ms: seq<Option>, pairs: seq<(Option, char)>): string {
    BuiltListed(ms, pairs);
    YnD(Extend(ms, Firsts(pairs)), Built(pairs))
  }

  /** Every member of a compound condition is listed in the master list it grew. */
  lemma {:induction false} BuiltsListed(ms: seq<Option>, data: seq<seq<(Option, char)>>)
    ensures forall k :: 0 <= k < |data| ==> Listed(Extend(ms, AllFirsts(data)), Builts(data)[k])
  {
    if data != [] {
      var init := data[..|data| - 1];
      var last := data[|data| - 1];
      BuiltsListed(ms, init);
      ExtendAppend(ms, AllFirsts(init), Firsts(last));
      ListedGrows(Extend(ms, AllFirsts(init)), Firsts(last), Builts(init));
      BuiltListed(Extend(ms, AllFirsts(init)), last);
    }
  }

  /** The name of the compound condition built from data against the master list ms. */
  function BuiltsName(ms: seq<Option>, data: seq<seq<(Option, char)>>): string {
    BuiltsListed(ms, data);
    CompoundName(Extend(ms, AllFirsts(data)), Builts(data))
  }

  /** The options of every member, member after member. */
  function AllFirsts(data: seq<seq<(Option, char)>>): seq<Option> {
    if data == [] then [] else AllFirsts(data[..|data| - 1]) + Firsts(data[|data| - 1])
  }

  /** The options of the (option, value) pairs, in order. */
  function Firsts(pairs: seq<(Option, char)>): (r: seq<Option>)
    ensures |r| == |pairs| && forall i :: 0 <= i < |pairs| ==> r[i] == pairs[i].0
  {
    if pairs == [] then [] else [pairs[0].0] + Firsts(pairs[1..])
  }

  /** The values of the (option, value) pairs, in order. */
  function Seconds(pairs: seq<(Option, char)>): (r: seq<char>)
    ensures |r| == |pairs| && forall i :: 0 <= i < |pairs| ==> r[i] == pairs[i].1
  {
    if pairs == [] then [] else [pairs[0].1] + Seconds(pairs[1..])
  }

  // ---------------------------------------------------------------------------------------
  // Condition lists

  /** What ConditionList.append is handed: a condition object, the data of one, or neither. */
  datatype ConditionItem =
    | ConditionObject(condition: Condition)
    | ConditionData(pairs: seq<(Option, char)>)
    | CompoundData(data: seq<seq<(Option, char)>>)
    | NotACondition

  /** The options a condition built from item would count and register. */
  function ItemOptions(item: ConditionItem): set<Option> {
    match item
    case ConditionData(pairs) => set i | 0 <= i < |pairs| :: pairs[i].0
    case CompoundData(data) => set i, j | 0 <= i < |data| && 0 <= j < |data[i]| :: data[i][j].0
    case _ => {}
  }

  /** The names of the conditions, in order. */
  function NamesOf(cs: seq<Condition>): (r: seq<string>)
    reads set i | 0 <= i < |cs| :: cs[i]
    ensures |r| == |cs| && forall i :: 0 <= i < |cs| ==> r[i] == cs[i].name
  {
    if cs == [] then [] else [cs[0].name] + NamesOf(cs[1..])
  }

  /** validate(): the conditions whose options are all still listed, in their order. */
  function KeepListed(master: seq<Option>, cs: seq<Condition>): (r: seq<Condition>)
  {
    if cs == [] then []
    else (if cs[0].ListedIn(master) then [cs[0]] else []) + KeepListed(master, cs[1..])
  }

  /** A condition survives validation exactly when it was listed and is still listed. */
  lemma {:induction false} KeepListedMember(master: seq<Option>, cs: seq<Condition>, c: Condition)
    ensures c in KeepListed(master, cs) <==> c in cs && c.ListedIn(master)
  {
    if cs != [] {
      assert cs == [cs[0]] + cs[1..];
      KeepListedMember(master, cs[1..], c);
    }
  }

  /** Filtering a list piecewise is filtering it whole, so relative order is kept. */
  lemma {:induction false} KeepListedAppend(master: seq<Option>, a: seq<Condition>, b: seq<Condition>)
    ensures KeepListed(master, a + b) == KeepListed(master, a) + KeepListed(master, b)
  {
    if a == [] {
      assert a + b == b;
    } else {
      assert (a + b)[0] == a[0] && (a + b)[1..] == a[1..] + b;
      KeepListedAppend(master, a[1..], b);
    }
  }

  /** A run of listed conditions passes through unchanged. */
  lemma KeepListedRun(master: seq<Option>, s: seq<Condition>, a: nat, b: nat)
    requires a <= b <= |s| && forall k :: a <= k < b ==> s[k].ListedIn(master)
    ensures KeepListed(master, s[a..]) == s[a..b] + KeepListed(master, s[b..])
    decreases b - a
  {
    if a < b {
      assert s[a..][1..] == s[a + 1..];
      KeepListedRun(master, s, a + 1, b);
      assert s[a..b] == [s[a]] + s[a + 1..b];
    }
  }

  /** Strictly increasing positions. */
  predicate Increasing(xs: seq<nat>) {
    forall a, b :: 0 <= a < b < |xs| ==> xs[a] < xs[b]
  }

  /** The positions below i whose conditions are not listed, in increasing order. */
  function UnlistedPositions(master: seq<Option>, s: seq<Condition>, i: nat): (r: seq<nat>)
    requires i <= |s|
    ensures forall m :: 0 <= m < |r| ==> r[m] < i && !s[r[m]].ListedIn(master)
  {
    if i == 0 then []
    else UnlistedPositions(master, s, i - 1) + (if s[i - 1].ListedIn(master) then [] else [i - 1])
  }

  /** The unlisted positions are strictly increasing. */
  lemma {:induction false} UnlistedPositionsIncreasing(master: seq<Option>, s: seq<Condition>, i: nat)
    requires i <= |s|
    ensures Increasing(UnlistedPositions(master, s, i))
  {
    if i > 0 {
      var p := UnlistedPositions(master, s, i - 1);
      UnlistedPositionsIncreasing(master, s, i - 1);
      if !s[i - 1].ListedIn(master) {
        var r := p + [i - 1];
        forall a, b | 0 <= a < b < |r|
          ensures r[a] < r[b]
        {
          assert r[a] == p[a];
          if b < |p| {
            assert r[b] == p[b];
          }
        }
      }
    }
  }

  /** Every unlisted position below i is among the unlisted positions. */
  lemma {:induction false} UnlistedPositionsComplete(master: seq<Option>, s: seq<Condition>, i: nat, k: nat)
    requires i <= |s| && k < i && !s[k].ListedIn(master)
    ensures k in UnlistedPositions(master, s, i)
  {
    if k < i - 1 {
      UnlistedPositionsComplete(master, s, i - 1, k);
    }
  }

  /**
   * Between the unlisted position j and the next one (or the end of the list) every
   * condition is listed; for j = -1 the same holds below the first unlisted position.
   */
  lemma UnlistedPositionsGap(master: seq<Option>, s: seq<Condition>, j: int)
    requires -1 <= j < |UnlistedPositions(master, s, |s|)|
    ensures var ps := UnlistedPositions(master, s, |s|);
      && (j >= 0 ==> ps[j] < Bound(ps, j + 1, |s|))
      && forall k :: (if j >= 0 then ps[j] else -1) < k < Bound(ps, j + 1, |s|) ==> s[k].ListedIn(master)
  {
    var ps := UnlistedPositions(master, s, |s|);
    UnlistedPositionsIncreasing(master, s, |s|);
    forall m | 0 <= m < |ps|
      ensures ps[m] <= (if j >= 0 then ps[j] else -1) || Bound(ps, j + 1, |s|) <= ps[m]
    {
      if m < j {
        assert ps[m] < ps[j];
      } else if m > j + 1 {
        assert ps[j + 1] < ps[m];
      }
    }
    forall k | (if j >= 0 then ps[j] else -1) < k < Bound(ps, j + 1, |s|)
      ensures s[k].ListedIn(master)
    {
      if !s[k].ListedIn(master) {
        UnlistedPositionsComplete(master, s, |s|, k);
      }
      assert k !in ps;
    }
  }

  /** Where the part of the list still to be filtered starts once toRemove[j..] is deleted. */
  function Bound(toRemove: seq<nat>, j: nat, n: nat): nat {
    if j < |toRemove| then toRemove[j] else n
  }

  /** The list once the unlisted positions from the j-th on have been deleted. */
  ghost function Kept(master: seq<Option>, s: seq<Condition>, j: nat): seq<Condition>
    requires j <= |UnlistedPositions(master, s, |s|)|
  {
    var b := Bound(UnlistedPositions(master, s, |s|), j, |s|);
    s[..b] + KeepListed(master, s[b..])
  }

  /** Before any deletion the list is whole. */
  lemma KeptAll(master: seq<Option>, s: seq<Condition>)
    ensures Kept(master, s, |UnlistedPositions(master, s, |s|)|) == s
  {
    assert s[..|s|] == s;
  }

  /** After every deletion the list is filtered. */
  lemma KeptNone(master: seq<Option>, s: seq<Condition>)
    ensures Kept(master, s, 0) == KeepListed(master, s)
  {
    var ps := UnlistedPositions(master, s, |s|);
    UnlistedPositionsGap(master, s, -1);
    KeepListedRun(master, s, 0, Bound(ps, 0, |s|));
    assert s[0..] == s;
  }

  /** Deleting the j-th unlisted position takes one more step of the filter. */
  lemma DeleteStep(master: seq<Option>, s: seq<Condition>, j: nat)
    requires j < |UnlistedPositions(master, s, |s|)|
    ensures var t, x := UnlistedPositions(master, s, |s|)[j], Kept(master, s, j + 1);
      t < |x| && x[..t] + x[t + 1..] == Kept(master, s, j)
  {
    var ps := UnlistedPositions(master, s, |s|);
    var t := ps[j];
    var b := Bound(ps, j + 1, |s|);
    var x := Kept(master, s, j + 1);
    UnlistedPositionsGap(master, s, j);
    KeepListedRun(master, s, t + 1, b);
    assert s[t..][1..] == s[t + 1..];
    assert KeepListed(master, s[t..]) == KeepListed(master, s[t + 1..]);
    assert x[..t] == s[..t];
    assert x[t + 1..] == s[t + 1..b] + KeepListed(master, s[b..]);
    assert Bound(ps, j, |s|) == t;
  }

  /** The name isValid gives each listed condition ("" for the others). */
  ghost function NamesIn(master: seq<Option>, s: seq<Condition>): (r: seq<string>)
    requires forall k :: 0 <= k < |s| ==> s[k].Valid()
    ensures |r| == |s|
  {
    if s == [] then []
    else [if s[0].ListedIn(master) then s[0].NameIn(master) else ""] + NamesIn(master, s[1..])
  }

  lemma {:induction false} NamesInAt(master: seq<Option>, s: seq<Condition>, k: nat)
    requires forall k :: 0 <= k < |s| ==> s[k].Valid()
    requires k < |s| && s[k].ListedIn(master)
    ensures NamesIn(master, s)[k] == s[k].NameIn(master)
  {
    if k > 0 {
      NamesInAt(master, s[1..], k - 1);
    }
  }

  /** A ConditionList: infeasible states or a decision maker's preference statements. */
  class ConditionList {
    var items: seq<Condition>

    constructor()
      ensures items == []
    {
      items := [];
    }

    /** Every item is a well-formed simple or compound condition. */
    predicate Valid()
      reads this
    {
      forall i :: 0 <= i < |items| ==> items[i].Valid()
    }

    /** No two conditions share a name (what append maintains). */
    predicate DistinctNames()
      reads this, set i | 0 <= i < |items| :: items[i]
    {
      NoDup(NamesOf(items))
    }

    /**
     * The end of append: the condition joins the list at the end unless one of the same name
     * is already there, in which case the list is left as it was.
     */
    method Add(c: Condition)
      requires c.Valid()
      modifies this
      ensures c.name in NamesOf(old(items)) ==> items == old(items)
      ensures c.name !in NamesOf(old(items)) ==> items == old(items) + [c]
      ensures old(Valid()) ==> Valid()
      ensures old(DistinctNames()) ==> DistinctNames()
    {
      if c.name !in NamesOf(items) {
        ghost var ns := NamesOf(items);
        items := items + [c];
        assert NamesOf(items) == ns + [c.name];
      }
    }

    /**
     * append(item): a condition object is added as it is; condition data (pairs) or compound
     * data (member lists) is first built into a new condition against the master option
     * list; anything else raises TypeError. The result is then added as Add describes.
     */
    method Append(master: OptionList, item: ConditionItem) returns (r: Wrappers.Outcome)
      requires master.Valid() && master.master == null
      requires item.ConditionObject? ==> item.condition.Valid()
      modifies this, master, ItemOptions(item)
      ensures item.NotACondition? <==> r.Fail?
      ensures r.Fail? ==> r == Wrappers.Fail(Wrappers.TypeError("Not a valid Condition Object")) && items == old(items)
      ensures item.ConditionObject? ==>
        var c := item.condition;
        items == if c.name in NamesOf(old(items)) then old(items) else old(items) + [c]
      ensures item.ConditionData? ==>
        && master.items == Extend(old(master.items), Firsts(item.pairs))
        && var n := BuiltName(old(master.items), item.pairs);
           if n in NamesOf(old(items)) then items == old(items)
           else |items| == |old(items)| + 1 && items[..|old(items)|] == old(items)
                && fresh(items[|old(items)|]) && items[|old(items)|].members == [Built(item.pairs)]
                && items[|old(items)|].name == n
      ensures item.CompoundData? ==>
        && master.items == Extend(old(master.items), AllFirsts(item.data))
        && var n := BuiltsName(old(master.items), item.data);
           if n in NamesOf(old(items)) then items == old(items)
           else |items| == |old(items)| + 1 && items[..|old(items)|] == old(items)
                && fresh(items[|old(items)|]) && items[|old(items)|].members == Builts(item.data)
                && items[|old(items)|].name == n
      ensures old(Valid()) ==> Valid()
    {
      if item.NotACondition? {
        return Wrappers.Fail(Wrappers.TypeError("Not a valid Condition Object"));
      }
      if item.ConditionObject? {
        Add(item.condition);
      } else if item.ConditionData? {
        var c := AppendPairs(master, item.pairs);
      } else {
        var c := AppendMembers(master, item.data);
      }
      r := Wrappers.Pass;
    }

    /** append(pairs): a new simple condition is built from the pairs and added. */
    method AppendPairs(master: OptionList, pairs: seq<(Option, char)>) returns (c: Condition)
      requires master.Valid() && master.master == null
      modifies this, master, set i | 0 <= i < |pairs| :: pairs[i].0
      ensures master.items == Extend(old(master.items), Firsts(pairs))
      ensures fresh(c) && c.members == [Built(pairs)] && c.name == BuiltName(old(master.items), pairs)
      ensures items == if c.name in NamesOf(old(items)) then old(items) else old(items) + [c]
      ensures old(Valid()) ==> Valid()
    {
      c := new Condition.FromPairs(master, pairs);
      Add(c);
    }

    /** append(data): a new compound condition is built from the member data and added. */
    method AppendMembers(master: OptionList, data: seq<seq<(Option, char)>>) returns (c: Condition)
      requires master.Valid() && master.master == null
      modifies this, master, set i, j | 0 <= i < |data| && 0 <= j < |data[i]| :: data[i][j].0
      ensures master.items == Extend(old(master.items), AllFirsts(data))
      ensures fresh(c) && c.members == Builts(data) && c.name == BuiltsName(old(master.items), data)
      ensures items == if c.name in NamesOf(old(items)) then old(items) else old(items) + [c]
      ensures old(Valid()) ==> Valid()
    {
      ghost var ns := NamesOf(items);
      ghost var valid := Valid();
      c := new Condition.FromMembers(master, data);
      assert NamesOf(items) == ns && Valid() == valid;
      Add(c);
    }

    /**
     * moveCondition(idx, targ): pop the condition at idx and insert it at targ; IndexError
     * when idx is past the end.
     */
    method MoveCondition(idx: nat, targ: nat) returns (r: Wrappers.Outcome)
      modifies this
      ensures idx >= |old(items)| ==>
        r == Wrappers.Fail(Wrappers.IndexError("pop index out of range")) && items == old(items)
      ensures idx < |old(items)| ==> r == Wrappers.Pass && items == PopInsert(old(items), idx, targ)
    {
      if idx >= |items| {
        return Wrappers.Fail(Wrappers.IndexError("pop index out of range"));
      }
      var j := items[idx];
      var rest := items[..idx] + items[idx + 1..];
      var t := InsertPos(targ, |rest|);
      items := rest[..t] + [j] + rest[t..];
      r := Wrappers.Pass;
    }

    /**
     * validate(): every condition is checked with isValid (which renames the ones that pass),
     * the positions of those that fail are collected, and they are deleted from the back.
     */
    method Validate(master: seq<Option>)
      requires Valid()
      modifies this, set c | c in items
      ensures items == KeepListed(master, old(items))
      ensures forall k :: 0 <= k < |old(items)| && old(items)[k].ListedIn(master) ==>
        old(items)[k].name == old(items)[k].NameIn(master)
      ensures forall k :: 0 <= k < |old(items)| && !old(items)[k].ListedIn(master) ==>
        old(items)[k].name == old(items[k].name)
    {
      var toRemove := CheckAll(master);
      forall k | 0 <= k < |items| && items[k].ListedIn(master)
        ensures items[k].name == items[k].NameIn(master)
      {
        NamesInAt(master, items, k);
      }
      DeletePositions(master, toRemove);
    }

    /** The first loop of validate: isValid on every condition, collecting the failures. */
    method CheckAll(master: seq<Option>) returns (toRemove: seq<nat>)
      requires Valid()
      modifies set c | c in items
      ensures toRemove == UnlistedPositions(master, items, |items|)
      ensures forall k :: 0 <= k < |items| && items[k].ListedIn(master) ==>
        items[k].name == NamesIn(master, items)[k]
      ensures forall k :: 0 <= k < |items| && !items[k].ListedIn(master) ==>
        items[k].name == old(items[k].name)
    {
      var s := items;
      ghost var want := NamesIn(master, s);
      toRemove := [];
      for i := 0 to |s|
        invariant toRemove == UnlistedPositions(master, s, i)
        invariant forall k :: 0 <= k < i && s[k].ListedIn(master) ==> s[k].name == want[k]
        invariant forall k :: 0 <= k < |s| && !s[k].ListedIn(master) ==> s[k].name == old(s[k].name)
      {
        var ok := s[i].IsValid(master);
        if ok {
          NamesInAt(master, s, i);
          forall k | 0 <= k < i && s[k] == s[i]
            ensures want[k] == want[i]
          {
            NamesInAt(master, s, k);
          }
        } else {
          toRemove := toRemove + [i];
        }
      }
    }

    /** The second loop of validate: delete the collected positions, the last one first. */
    method DeletePositions(master: seq<Option>, toRemove: seq<nat>)
      requires toRemove == UnlistedPositions(master, items, |items|)
      modifies this
      ensures items == KeepListed(master, old(items))
    {
      ghost var s := items;
      KeptAll(master, s);
      var j := |toRemove|;
      while j > 0
        invariant 0 <= j <= |toRemove|
        invariant items == Kept(master, s, j)
      {
        j := j - 1;
        DeleteStep(master, s, j);
        items := items[..toRemove[j]] + items[toRemove[j] + 1..];
      }
      KeptNone(master, s);
    }
  }
}
