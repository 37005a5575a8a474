/**
 * The goal seeker: for chosen states, each marked to be stable or unstable, the conditions
 * the decision makers' preferences must satisfy, as a tree of requirements (Requirements,
 * PatternAnd, PatternOr, MoreThanFor, LessThanOneOf) with a text rendering.
 *
 * A tree built from one conflict is read against any conflict with the same moves (the
 * same options, directions and feasible states) but possibly different payoffs: that is
 * the sense in which the conditions constrain preferences.
 */
module Goals {
  import opened Wrappers
  import opened Reachability
  import opened Stability
  import opened Seqs

  /** How the children of a Requirements node combine, printed "AND" or "OR". */
  datatype Joiner = And | Or

  function JoinerText(j: Joiner): string {
    match j
    case And => "AND"
    case Or => "OR"
  }

  /**
   * A preference condition. A party is held as its index among the effective parties and
   * its name; states are 0-based indices and are printed as ordered numbers (index + 1).
   */
  datatype Pattern =
    | Requirements(statement: string, between: Joiner, plist: seq<Pattern>)
    | PatternAnd(plist: seq<Pattern>)
    | PatternOr(plist: seq<Pattern>)
    | MoreThanFor(co: nat, name: string, s0: nat, s1: nat)
    | LessThanOneOf(co: nat, name: string, s0: nat, li: seq<nat>)

  /**
   * "a must be more preferred than b for co": moving from b to a improves co (for a
   * coalition, every member strictly gains).
   */
  predicate Prefers(d: Conflict, co: nat, a: nat, b: nat)
    requires ValidConflict(d) && co < |d.parties| && a < |d.feasibles| && b < |d.feasibles|
  {
    Gain(d, co, b, a) > 0
  }

  /**
   * What a condition means for the payoffs of d: an AND node needs every child, an OR node
   * one of them (so an empty AND holds and an empty OR does not).
   */
  predicate Holds(d: Conflict, r: Pattern)
    requires ValidConflict(d)
    decreases r
  {
    match r
    case Requirements(_, And, ps) => AllHold(d, ps)
    case Requirements(_, Or, ps) => AnyHolds(d, ps)
    case PatternAnd(ps) => AllHold(d, ps)
    case PatternOr(ps) => AnyHolds(d, ps)
    case MoreThanFor(co, _, s0, s1) => InRange(d, co, s0) && s1 < |d.feasibles| && Prefers(d, co, s0, s1)
    case LessThanOneOf(co, _, s0, li) =>
      InRange(d, co, s0) && exists k :: 0 <= k < |li| && li[k] < |d.feasibles| && Prefers(d, co, li[k], s0)
  }

  predicate AllHold(d: Conflict, ps: seq<Pattern>)
    requires ValidConflict(d)
    decreases ps
  {
    forall i :: 0 <= i < |ps| ==> Holds(d, ps[i])
  }

  predicate AnyHolds(d: Conflict, ps: seq<Pattern>)
    requires ValidConflict(d)
    decreases ps
  {
    exists i :: 0 <= i < |ps| && Holds(d, ps[i])
  }

  /** Joining two lists of conditions: AND needs both, OR one of them. */
  lemma HoldsConcat(d: Conflict, a: seq<Pattern>, b: seq<Pattern>)
    requires ValidConflict(d)
    ensures AllHold(d, a + b) <==> AllHold(d, a) && AllHold(d, b)
    ensures AnyHolds(d, a + b) <==> AnyHolds(d, a) || AnyHolds(d, b)
  {
    var ab := a + b;
    assert forall i :: 0 <= i < |a| ==> ab[i] == a[i];
    assert forall i :: 0 <= i < |b| ==> ab[|a| + i] == b[i];
    if AllHold(d, a) && AllHold(d, b) {
      forall i | 0 <= i < |ab|
        ensures Holds(d, ab[i])
      {
        if i >= |a| {
          assert ab[i] == b[i - |a|];
        }
      }
    }
    if AnyHolds(d, b) {
      var i :| 0 <= i < |b| && Holds(d, b[i]);
      assert Holds(d, ab[|a| + i]);
    }
    if AnyHolds(d, ab) {
      var i :| 0 <= i < |ab| && Holds(d, ab[i]);
      if i >= |a| {
        assert ab[i] == b[i - |a|];
      }
    }
  }

  /** Preference is strict: no party prefers a to b and b to a. */
  lemma PrefersAsymmetric(d: Conflict, co: nat, a: nat, b: nat)
    requires ValidConflict(d) && co < |d.parties| && a < |d.feasibles| && b < |d.feasibles|
    requires Prefers(d, co, a, b)
    ensures !Prefers(d, co, b, a) && Gain(d, co, a, b) <= 0
  {
    match d.parties[co]
    case DM(_, _, _) =>
    case Coalition(_, _, mp) =>
      assert mp[0][b] < mp[0][a];
  }

  // ---------------------------------------------------------------------------------------
  // Text

  function DigitChar(k: nat): (ch: char)
    requires k < 10
    ensures '0' <= ch <= '9' && (ch as int) - ('0' as int) == k
  {
    ((('0' as int) + k) as char)
  }

  /** Python's str() of a natural number: its decimal digits, without leading zeros. */
  function NatToString(n: nat): (r: string)
    ensures |r| > 0
  {
    if n < 10 then [DigitChar(n)] else NatToString(n / 10) + [DigitChar(n % 10)]
  }

  predicate AllDigits(s: string) {
    forall i :: 0 <= i < |s| ==> '0' <= s[i] <= '9'
  }

  /** The value of a string of decimal digits. */
  function ParseDecimal(s: string): nat
    requires AllDigits(s)
  {
    if s == [] then 0
    else ParseDecimal(s[..|s| - 1]) * 10 + ((s[|s| - 1] as int) - ('0' as int))
  }

  /** The printed number reads back as the number: the rendering loses no state number. */
  lemma {:induction false} NatToStringRoundTrip(n: nat)
    ensures AllDigits(NatToString(n)) && ParseDecimal(NatToString(n)) == n
    ensures n > 0 ==> NatToString(n)[0] != '0'
  {
    if n >= 10 {
      NatToStringRoundTrip(n / 10);
      var s := NatToString(n);
      assert s[..|s| - 1] == NatToString(n / 10);
    }
  }

  /** str.join: the parts with sep between each two of them. */
  function Join(parts: seq<string>, sep: string): string {
    if |parts| == 0 then ""
    else if |parts| == 1 then parts[0]
    else parts[0] + sep + Join(parts[1..], sep)
  }

  /** The ordered numbers of the states, as Python prints a list: "[2, 5]". */
  function ListText(li: seq<nat>): string {
    "[" + Join(seq(|li|, k requires 0 <= k < |li| => NatToString(li[k] + 1)), ", ") + "]"
  }

  /**
   * asString(indent): a requirement prints its statement and then its children indented
   * by " |", separated by a line holding its joiner; AND and OR nodes print only their
   * children and separators; a leaf prints one line.
   */
  function AsString(r: Pattern, indent: string): string
    decreases r
  {
    match r
    case Requirements(st, j, ps) => indent + st + "\n" + Join(Rendered(ps, indent + " |"), indent + JoinerText(j) + "\n")
    case PatternAnd(ps) => Join(Rendered(ps, indent + " |"), indent + "AND\n")
    case PatternOr(ps) => Join(Rendered(ps, indent + " |"), indent + "OR\n")
    case MoreThanFor(_, name, s0, s1) => indent + LeafText(r)
    case LessThanOneOf(_, name, s0, li) => indent + LeafText(r)
  }

  /** The line a leaf prints after its indent. */
  function LeafText(r: Pattern): (t: string)
    requires r.MoreThanFor? || r.LessThanOneOf?
    ensures t != [] && t[|t| - 1] == '\n'
  {
    match r
    case MoreThanFor(_, name, s0, s1) =>
      NatToString(s0 + 1) + " must be more preferred than " + NatToString(s1 + 1) + " for " + name + "\n"
    case LessThanOneOf(_, name, s0, li) =>
      NatToString(s0 + 1) + " must be less preferred than at least one of " + ListText(li) + " for " + name + "\n"
  }

  /** The renderings of the children, one level deeper. */
  function Rendered(ps: seq<Pattern>, indent: string): (r: seq<string>)
    decreases ps
  {
    seq(|ps|, i requires 0 <= i < |ps| => AsString(ps[i], indent))
  }

  /** s is empty or a block of lines opened by indent and closed by a newline. */
  predicate Block(s: string, indent: string) {
    s == [] || (indent <= s && s[|s| - 1] == '\n')
  }

  lemma {:induction false} JoinBlock(parts: seq<string>, sep: string, indent: string)
    requires forall i :: 0 <= i < |parts| ==> Block(parts[i], indent)
    requires Block(sep, indent) && sep != []
    ensures Block(Join(parts, sep), indent)
    decreases |parts|
  {
    if |parts| > 1 {
      JoinBlock(parts[1..], sep, indent);
      var rest := Join(parts[1..], sep);
      var s := parts[0] + sep + rest;
      if parts[0] == [] {
        assert s == sep + rest;
        assert s[..|indent|] == sep[..|indent|];
      } else {
        assert s[..|indent|] == parts[0][..|indent|];
      }
      if rest == [] {
        assert s[|s| - 1] == sep[|sep| - 1];
      }
    }
  }

  /** indent followed by text ending in a newline is a block of that indent. */
  lemma LineBlock(indent: string, t: string)
    requires t != [] && t[|t| - 1] == '\n'
    ensures Block(indent + t, indent)
  {
    assert (indent + t)[..|indent|] == indent;
  }

  /**
   * Every rendering is empty or starts with the indent and ends its last line; a requirement
   * and a leaf never render as nothing (an AND or OR node without children does).
   */
  lemma {:induction false} AsStringBlock(r: Pattern, indent: string)
    ensures Block(AsString(r, indent), indent)
    ensures r.Requirements? || r.MoreThanFor? || r.LessThanOneOf? ==> AsString(r, indent) != []
    decreases r
  {
    match r
    case Requirements(st, j, ps) =>
      var sep := indent + JoinerText(j) + "\n";
      RenderedBlocks(ps, indent);
      LineBlock(indent, JoinerText(j) + "\n");
      JoinBlock(Rendered(ps, indent + " |"), sep, indent);
      var joined := Join(Rendered(ps, indent + " |"), sep);
      assert joined != [] ==> joined[|joined| - 1] == '\n';
      LineBlock(indent, st + "\n" + joined);
      assert AsString(r, indent) == indent + (st + "\n" + joined);
    case PatternAnd(ps) =>
      RenderedBlocks(ps, indent);
      LineBlock(indent, "AND\n");
      JoinBlock(Rendered(ps, indent + " |"), indent + "AND\n", indent);
    case PatternOr(ps) =>
      RenderedBlocks(ps, indent);
      LineBlock(indent, "OR\n");
      JoinBlock(Rendered(ps, indent + " |"), indent + "OR\n", indent);
    case MoreThanFor(_, _, _, _) =>
      LineBlock(indent, LeafText(r));
    case LessThanOneOf(_, _, _, _) =>
      LineBlock(indent, LeafText(r));
  }

  /** The children of a node, rendered one level deeper, are blocks of the node's indent. */
  lemma {:induction false} RenderedBlocks(ps: seq<Pattern>, indent: string)
    ensures forall i :: 0 <= i < |ps| ==> Block(Rendered(ps, indent + " |")[i], indent)
    decreases ps
  {
    forall i | 0 <= i < |ps|
      ensures Block(Rendered(ps, indent + " |")[i], indent)
    {
      AsStringBlock(ps[i], indent + " |");
      BlockDeeper(AsString(ps[i], indent + " |"), indent);
    }
  }

  /** A block of a deeper indent is a block of the shallower one. */
  lemma BlockDeeper(s: string, indent: string)
    requires Block(s, indent + " |")
    ensures Block(s, indent)
  {
    if s != [] {
      assert s[..|indent|] == (indent + " |")[..|indent|];
    }
  }

  // ---------------------------------------------------------------------------------------
  // The conditions nashGoal and seqGoal build

  /** "For <ordered number> to be <stable|unstable> by <concept>:" */
  function Statement(s0: nat, stable: bool, concept: string): string {
    "For " + NatToString(s0 + 1) + " to be " + (if stable then "stable" else "unstable") + " by " + concept + ":"
  }

  function Name(c: Conflict, co: nat): string
    requires co < |c.parties|
  {
    c.parties[co].name
  }

  predicate StatesBelow(xs: seq<nat>, N: nat) {
    forall k :: 0 <= k < |xs| ==> xs[k] < N
  }

  /**
   * A move table: mv[p][s] lists the states party p can move to from state s, as
   * RMGenerator.reachable(p, s) returns them.
   */
  type Moves = seq<seq<seq<nat>>>

  /** mv has a list for every party and every state, and lists only states of c. */
  predicate Shaped(c: Conflict, mv: Moves) {
    && |mv| == |c.parties|
    && (forall p :: 0 <= p < |mv| ==> |mv[p]| == |c.feasibles|)
    && (forall p, s :: 0 <= p < |mv| && 0 <= s < |mv[p]| ==> StatesBelow(mv[p][s], |c.feasibles|))
  }

  /** mv lists exactly the moves of c. */
  predicate MovesOf(c: Conflict, mv: Moves) {
    && Shaped(c, mv)
    && forall p, s, x :: 0 <= p < |mv| && 0 <= s < |mv[p]| && 0 <= x < |c.feasibles| ==>
         (x in mv[p][s] <==> Reach(c, p, s, x))
  }

  /** The move table of c, each entry as reachable() lists it. */
  function MoveTable(c: Conflict): (mv: Moves)
    ensures Shaped(c, mv)
    ensures forall p, s :: 0 <= p < |c.parties| && 0 <= s < |c.feasibles| ==> mv[p][s] == ReachList(c, p, s)
  {
    seq(|c.parties|, p requires 0 <= p < |c.parties| => seq(|c.feasibles|, s requires 0 <= s < |c.feasibles| => ReachList(c, p, s)))
  }

  /** Entry (p, s) of mv is the list reachable() returns. */
  predicate TableAt(c: Conflict, mv: Moves, p: nat, s: nat)
    requires Shaped(c, mv) && p < |c.parties| && s < |c.feasibles|
  {
    mv[p][s] == ReachList(c, p, s)
  }

  /** A shaped table whose every entry is the list reachable() returns lists exactly the moves of c. */
  lemma TableMovesOf(c: Conflict, mv: Moves)
    requires Shaped(c, mv)
    requires forall p, s :: 0 <= p < |c.parties| && 0 <= s < |c.feasibles| ==> TableAt(c, mv, p, s)
    ensures MovesOf(c, mv)
  {
    forall p, s, x | 0 <= p < |mv| && 0 <= s < |mv[p]| && 0 <= x < |c.feasibles|
      ensures x in mv[p][s] <==> Reach(c, p, s, x)
    {
      assert TableAt(c, mv, p, s);
    }
  }

  lemma MoveTableOf(c: Conflict)
    ensures MovesOf(c, MoveTable(c))
  {
    var mv := MoveTable(c);
    forall p, s | 0 <= p < |c.parties| && 0 <= s < |c.feasibles|
      ensures TableAt(c, mv, p, s)
    {
    }
    TableMovesOf(c, mv);
  }

  /** Nash, stable: s0 must be more preferred than each state co can move to. */
  function MoreThanEach(c: Conflict, co: nat, s0: nat, xs: seq<nat>, n: nat): (r: seq<Pattern>)
    requires co < |c.parties| && n <= |xs|
    ensures |r| == n
  {
    if n == 0 then []
    else MoreThanEach(c, co, s0, xs, n - 1) + [MoreThanFor(co, Name(c, co), s0, xs[n - 1])]
  }

  lemma {:induction false} MoreThanEachAt(c: Conflict, co: nat, s0: nat, xs: seq<nat>, n: nat, k: nat)
    requires co < |c.parties| && k < n <= |xs|
    ensures MoreThanEach(c, co, s0, xs, n)[k] == MoreThanFor(co, Name(c, co), s0, xs[k])
    decreases n
  {
    if k < n - 1 {
      MoreThanEachAt(c, co, s0, xs, n - 1, k);
    }
  }

  /** What nashGoal adds for party co. */
  function NashPart(c: Conflict, mv: Moves, s0: nat, stable: bool, co: nat): (r: seq<Pattern>)
    requires Shaped(c, mv)
    requires co < |c.parties| && s0 < |c.feasibles|
  {
    var xs := mv[co][s0];
    if stable then MoreThanEach(c, co, s0, xs, |xs|)
    else if xs == [] then []
    else [LessThanOneOf(co, Name(c, co), s0, xs)]
  }

  /**
   * reachable(co, s0) answers for every party when s0 is a state of the conflict; with no
   * party it is never asked.
   */
  predicate Indexable(c: Conflict, s0: nat) {
    s0 < |c.feasibles| || |c.parties| == 0
  }

  /** The conditions nashGoal has collected after the parties below q. */
  function NashConds(c: Conflict, mv: Moves, s0: nat, stable: bool, q: nat): (r: seq<Pattern>)
    requires Shaped(c, mv)
    requires q <= |c.parties| && Indexable(c, s0)
  {
    if q == 0 then [] else NashConds(c, mv, s0, stable, q - 1) + NashPart(c, mv, s0, stable, q - 1)
  }

  /**
   * nashGoal(state0, stable): to be stable, every party must prefer s0 to each state it can
   * move to (AND); to be unstable, some party with a move must prefer one of its moves (OR).
   */
  function NashGoalOf(c: Conflict, mv: Moves, s0: nat, stable: bool): (r: Pattern)
    requires Shaped(c, mv)
    requires Indexable(c, s0)
  {
    Requirements(Statement(s0, stable, "Nash"), if stable then And else Or, NashConds(c, mv, s0, stable, |c.parties|))
  }

  /** isSanctioned: co2 prefers s2 to s1 and co prefers s0 to s2. */
  function Sanction(c: Conflict, co: nat, co2: nat, s0: nat, s1: nat, s2: nat): Pattern
    requires co < |c.parties| && co2 < |c.parties|
  {
    PatternAnd([MoreThanFor(co2, Name(c, co2), s2, s1), MoreThanFor(co, Name(c, co), s0, s2)])
  }

  /** isStable: co prefers s0 to s1, or one of the sanctions holds. */
  function StableAlternative(c: Conflict, mv: Moves, co: nat, s0: nat, s1: nat): Pattern
    requires Shaped(c, mv)
    requires co < |c.parties| && s0 < |c.feasibles| && s1 < |c.feasibles|
  {
    PatternOr([MoreThanFor(co, Name(c, co), s0, s1)] + SanctionsBelow(c, mv, co, s0, s1, |c.parties|))
  }

  /** notASanction: co2 prefers s1 to s2, or co prefers s2 to s0. */
  function NotSanction(c: Conflict, co: nat, co2: nat, s0: nat, s1: nat, s2: nat): Pattern
    requires co < |c.parties| && co2 < |c.parties|
  {
    PatternOr([MoreThanFor(co2, Name(c, co2), s1, s2), MoreThanFor(co, Name(c, co), s2, s0)])
  }

  /** isUnsanctionedUI: co prefers s1 to s0, and every non-sanction holds. */
  function UnstableAlternative(c: Conflict, mv: Moves, co: nat, s0: nat, s1: nat): Pattern
    requires Shaped(c, mv)
    requires co < |c.parties| && s0 < |c.feasibles| && s1 < |c.feasibles|
  {
    PatternAnd([MoreThanFor(co, Name(c, co), s1, s0)] + NotSanctionsBelow(c, mv, co, s0, s1, |c.parties|))
  }

  /** SEQ: co2 improves from s1 to s2, which co likes less than s0. */
  function SanctionEach(c: Conflict, co: nat, co2: nat, s0: nat, s1: nat, xs: seq<nat>, n: nat): (r: seq<Pattern>)
    requires co < |c.parties| && co2 < |c.parties| && n <= |xs|
    ensures |r| == n
  {
    if n == 0 then []
    else SanctionEach(c, co, co2, s0, s1, xs, n - 1) + [Sanction(c, co, co2, s0, s1, xs[n - 1])]
  }

  lemma {:induction false} SanctionEachAt(c: Conflict, co: nat, co2: nat, s0: nat, s1: nat, xs: seq<nat>, n: nat, k: nat)
    requires co < |c.parties| && co2 < |c.parties| && k < n <= |xs|
    ensures SanctionEach(c, co, co2, s0, s1, xs, n)[k] == Sanction(c, co, co2, s0, s1, xs[k])
    decreases n
  {
    if k < n - 1 {
      SanctionEachAt(c, co, co2, s0, s1, xs, n - 1, k);
    }
  }

  /** The sanctions of the improvement s0 -> s1 by the parties below q other than co. */
  function SanctionsBelow(c: Conflict, mv: Moves, co: nat, s0: nat, s1: nat, q: nat): (r: seq<Pattern>)
    requires Shaped(c, mv)
    requires co < |c.parties| && q <= |c.parties| && s0 < |c.feasibles| && s1 < |c.feasibles|
  {
    if q == 0 then [] else SanctionsBelow(c, mv, co, s0, s1, q - 1) + SanctionsBy(c, mv, co, q - 1, s0, s1)
  }

  lemma SanctionsBelowStep(c: Conflict, mv: Moves, co: nat, s0: nat, s1: nat, q: nat)
    requires Shaped(c, mv)
    requires co < |c.parties| && q < |c.parties| && s0 < |c.feasibles| && s1 < |c.feasibles|
    ensures SanctionsBelow(c, mv, co, s0, s1, q + 1) == SanctionsBelow(c, mv, co, s0, s1, q) + SanctionsBy(c, mv, co, q, s0, s1)
  {
  }

  /** What the moves of co2 from s1 add to SanctionsBelow: nothing when co2 is co itself. */
  function SanctionsBy(c: Conflict, mv: Moves, co: nat, co2: nat, s0: nat, s1: nat): (r: seq<Pattern>)
    requires Shaped(c, mv)
    requires co < |c.parties| && co2 < |c.parties| && s0 < |c.feasibles| && s1 < |c.feasibles|
  {
    if co2 == co then [] else SanctionEach(c, co, co2, s0, s1, mv[co2][s1], |mv[co2][s1]|)
  }

  /** SEQ, stable: each move s1 of co is no improvement, or it is sanctioned. */
  function StableEach(c: Conflict, mv: Moves, co: nat, s0: nat, xs: seq<nat>, n: nat): (r: seq<Pattern>)
    requires Shaped(c, mv)
    requires co < |c.parties| && s0 < |c.feasibles| && StatesBelow(xs, |c.feasibles|) && n <= |xs|
    ensures |r| == n
  {
    if n == 0 then []
    else StableEach(c, mv, co, s0, xs, n - 1) + [StableAlternative(c, mv, co, s0, xs[n - 1])]
  }

  lemma {:induction false} StableEachAt(c: Conflict, mv: Moves, co: nat, s0: nat, xs: seq<nat>, n: nat, k: nat)
    requires Shaped(c, mv)
    requires co < |c.parties| && s0 < |c.feasibles| && StatesBelow(xs, |c.feasibles|) && k < n <= |xs|
    ensures StableEach(c, mv, co, s0, xs, n)[k] == StableAlternative(c, mv, co, s0, xs[k])
    decreases n
  {
    if k < n - 1 {
      StableEachAt(c, mv, co, s0, xs, n - 1, k);
    }
  }

  /** SEQ: co2 does not improve from s1 to s2, or co likes s2 better than s0. */
  function NotSanctionEach(c: Conflict, co: nat, co2: nat, s0: nat, s1: nat, xs: seq<nat>, n: nat): (r: seq<Pattern>)
    requires co < |c.parties| && co2 < |c.parties| && n <= |xs|
    ensures |r| == n
  {
    if n == 0 then []
    else NotSanctionEach(c, co, co2, s0, s1, xs, n - 1) + [NotSanction(c, co, co2, s0, s1, xs[n - 1])]
  }

  lemma {:induction false} NotSanctionEachAt(c: Conflict, co: nat, co2: nat, s0: nat, s1: nat, xs: seq<nat>, n: nat, k: nat)
    requires co < |c.parties| && co2 < |c.parties| && k < n <= |xs|
    ensures NotSanctionEach(c, co, co2, s0, s1, xs, n)[k] == NotSanction(c, co, co2, s0, s1, xs[k])
    decreases n
  {
    if k < n - 1 {
      NotSanctionEachAt(c, co, co2, s0, s1, xs, n - 1, k);
    }
  }

  /** The non-sanctions of s0 -> s1 by every move of the parties below q other than co. */
  function NotSanctionsBelow(c: Conflict, mv: Moves, co: nat, s0: nat, s1: nat, q: nat): (r: seq<Pattern>)
    requires Shaped(c, mv)
    requires co < |c.parties| && q <= |c.parties| && s0 < |c.feasibles| && s1 < |c.feasibles|
  {
    if q == 0 then [] else NotSanctionsBelow(c, mv, co, s0, s1, q - 1) + NotSanctionsBy(c, mv, co, q - 1, s0, s1)
  }

  lemma NotSanctionsBelowStep(c: Conflict, mv: Moves, co: nat, s0: nat, s1: nat, q: nat)
    requires Shaped(c, mv)
    requires co < |c.parties| && q < |c.parties| && s0 < |c.feasibles| && s1 < |c.feasibles|
    ensures NotSanctionsBelow(c, mv, co, s0, s1, q + 1) == NotSanctionsBelow(c, mv, co, s0, s1, q) + NotSanctionsBy(c, mv, co, q, s0, s1)
  {
  }

  /** What the moves of co2 from s1 add to NotSanctionsBelow: nothing when co2 is co itself. */
  function NotSanctionsBy(c: Conflict, mv: Moves, co: nat, co2: nat, s0: nat, s1: nat): (r: seq<Pattern>)
    requires Shaped(c, mv)
    requires co < |c.parties| && co2 < |c.parties| && s0 < |c.feasibles| && s1 < |c.feasibles|
  {
    if co2 == co then [] else NotSanctionEach(c, co, co2, s0, s1, mv[co2][s1], |mv[co2][s1]|)
  }

  /** SEQ, unstable: some move s1 of co is an improvement and no opponent's move sanctions it. */
  function UnstableEach(c: Conflict, mv: Moves, co: nat, s0: nat, xs: seq<nat>, n: nat): (r: seq<Pattern>)
    requires Shaped(c, mv)
    requires co < |c.parties| && s0 < |c.feasibles| && StatesBelow(xs, |c.feasibles|) && n <= |xs|
    ensures |r| == n
  {
    if n == 0 then []
    else UnstableEach(c, mv, co, s0, xs, n - 1) + [UnstableAlternative(c, mv, co, s0, xs[n - 1])]
  }

  lemma {:induction false} UnstableEachAt(c: Conflict, mv: Moves, co: nat, s0: nat, xs: seq<nat>, n: nat, k: nat)
    requires Shaped(c, mv)
    requires co < |c.parties| && s0 < |c.feasibles| && StatesBelow(xs, |c.feasibles|) && k < n <= |xs|
    ensures UnstableEach(c, mv, co, s0, xs, n)[k] == UnstableAlternative(c, mv, co, s0, xs[k])
    decreases n
  {
    if k < n - 1 {
      UnstableEachAt(c, mv, co, s0, xs, n - 1, k);
    }
  }

  /** What seqGoal adds for party co to a stability goal: one PatternOr per move. */
  function SeqStablePart(c: Conflict, mv: Moves, s0: nat, co: nat): (r: seq<Pattern>)
    requires Shaped(c, mv)
    requires co < |c.parties| && s0 < |c.feasibles|
  {
    StableEach(c, mv, co, s0, mv[co][s0], |mv[co][s0]|)
  }

  /** What seqGoal adds for party co to an instability goal: one PatternOr of all its moves, if any. */
  function SeqUnstablePart(c: Conflict, mv: Moves, s0: nat, co: nat): (r: seq<Pattern>)
    requires Shaped(c, mv)
    requires co < |c.parties| && s0 < |c.feasibles|
    ensures |r| <= 1 && (r == [] <==> mv[co][s0] == [])
  {
    var xs := mv[co][s0];
    if xs == [] then [] else [PatternOr(UnstableEach(c, mv, co, s0, xs, |xs|))]
  }

  /** What seqGoal adds for party co. */
  function SeqPart(c: Conflict, mv: Moves, s0: nat, stable: bool, co: nat): (r: seq<Pattern>)
    requires Shaped(c, mv)
    requires co < |c.parties| && s0 < |c.feasibles|
  {
    if stable then SeqStablePart(c, mv, s0, co) else SeqUnstablePart(c, mv, s0, co)
  }

  /** The stability conditions seqGoal has collected after the parties below q. */
  function SeqStableConds(c: Conflict, mv: Moves, s0: nat, q: nat): (r: seq<Pattern>)
    requires Shaped(c, mv)
    requires q <= |c.parties| && Indexable(c, s0)
  {
    if q == 0 then [] else SeqStableConds(c, mv, s0, q - 1) + SeqStablePart(c, mv, s0, q - 1)
  }

  /** The instability conditions seqGoal has collected after the parties below q. */
  function SeqUnstableConds(c: Conflict, mv: Moves, s0: nat, q: nat): (r: seq<Pattern>)
    requires Shaped(c, mv)
    requires q <= |c.parties| && Indexable(c, s0)
  {
    if q == 0 then [] else SeqUnstableConds(c, mv, s0, q - 1) + SeqUnstablePart(c, mv, s0, q - 1)
  }

  /** The conditions seqGoal has collected after the parties below q. */
  function SeqConds(c: Conflict, mv: Moves, s0: nat, stable: bool, q: nat): (r: seq<Pattern>)
    requires Shaped(c, mv)
    requires q <= |c.parties| && Indexable(c, s0)
  {
    if stable then SeqStableConds(c, mv, s0, q) else SeqUnstableConds(c, mv, s0, q)
  }

  /**
   * seqGoal(state0, stable) as written: the conditions of every party joined by AND, also
   * when the goal is instability.
   */
  function SeqGoalAsWritten(c: Conflict, mv: Moves, s0: nat, stable: bool): (r: Pattern)
    requires Shaped(c, mv)
    requires Indexable(c, s0)
  {
    Requirements(Statement(s0, stable, "SEQ"), And, SeqConds(c, mv, s0, stable, |c.parties|))
  }

  /**
   * seqGoal(state0, stable) with the per-party conditions of an instability goal joined by
   * OR, as nashGoal joins them: one party with an unsanctioned improvement suffices.
   */
  function SeqGoalOf(c: Conflict, mv: Moves, s0: nat, stable: bool): (r: Pattern)
    requires Shaped(c, mv)
    requires Indexable(c, s0)
  {
    if stable then Requirements(Statement(s0, stable, "SEQ"), And, SeqStableConds(c, mv, s0, |c.parties|))
    else Requirements(Statement(s0, stable, "SEQ"), Or, SeqUnstableConds(c, mv, s0, |c.parties|))
  }

  // ---------------------------------------------------------------------------------------
  // Each list of conditions is accumulated party by party; these views let the generic
  // lemmas about accumulated lists (module Seqs) speak about them

  function NashCondsFn(c: Conflict, mv: Moves, s0: nat, stable: bool): nat -> seq<Pattern>
    requires Shaped(c, mv) && s0 < |c.feasibles|
  {
    (q: nat) => if q <= |c.parties| then NashConds(c, mv, s0, stable, q) else []
  }

  function NashPartFn(c: Conflict, mv: Moves, s0: nat, stable: bool): nat -> seq<Pattern>
    requires Shaped(c, mv) && s0 < |c.feasibles|
  {
    (co: nat) => if co < |c.parties| then NashPart(c, mv, s0, stable, co) else []
  }

  lemma NashAccumulates(c: Conflict, mv: Moves, s0: nat, stable: bool, q: nat)
    requires Shaped(c, mv) && s0 < |c.feasibles| && q <= |c.parties|
    ensures Accumulates(NashCondsFn(c, mv, s0, stable), NashPartFn(c, mv, s0, stable), q)
  {
    forall j | 0 <= j < q {
      NashCondsStep(c, mv, s0, stable, j);
    }
  }

  function SeqStableCondsFn(c: Conflict, mv: Moves, s0: nat): nat -> seq<Pattern>
    requires Shaped(c, mv) && s0 < |c.feasibles|
  {
    (q: nat) => if q <= |c.parties| then SeqStableConds(c, mv, s0, q) else []
  }

  function SeqStablePartFn(c: Conflict, mv: Moves, s0: nat): nat -> seq<Pattern>
    requires Shaped(c, mv) && s0 < |c.feasibles|
  {
    (co: nat) => if co < |c.parties| then SeqStablePart(c, mv, s0, co) else []
  }

  lemma SeqStableAccumulates(c: Conflict, mv: Moves, s0: nat, q: nat)
    requires Shaped(c, mv) && s0 < |c.feasibles| && q <= |c.parties|
    ensures Accumulates(SeqStableCondsFn(c, mv, s0), SeqStablePartFn(c, mv, s0), q)
  {
    forall j | 0 <= j < q {
      SeqStableCondsStep(c, mv, s0, j);
    }
  }

  function SeqUnstableCondsFn(c: Conflict, mv: Moves, s0: nat): nat -> seq<Pattern>
    requires Shaped(c, mv) && s0 < |c.feasibles|
  {
    (q: nat) => if q <= |c.parties| then SeqUnstableConds(c, mv, s0, q) else []
  }

  function SeqUnstablePartFn(c: Conflict, mv: Moves, s0: nat): nat -> seq<Pattern>
    requires Shaped(c, mv) && s0 < |c.feasibles|
  {
    (co: nat) => if co < |c.parties| then SeqUnstablePart(c, mv, s0, co) else []
  }

  lemma SeqUnstableAccumulates(c: Conflict, mv: Moves, s0: nat, q: nat)
    requires Shaped(c, mv) && s0 < |c.feasibles| && q <= |c.parties|
    ensures Accumulates(SeqUnstableCondsFn(c, mv, s0), SeqUnstablePartFn(c, mv, s0), q)
  {
    forall j | 0 <= j < q {
      SeqUnstableCondsStep(c, mv, s0, j);
    }
  }

  function SanctionsBelowFn(c: Conflict, mv: Moves, co: nat, s0: nat, s1: nat): nat -> seq<Pattern>
    requires Shaped(c, mv) && co < |c.parties| && s0 < |c.feasibles| && s1 < |c.feasibles|
  {
    (q: nat) => if q <= |c.parties| then SanctionsBelow(c, mv, co, s0, s1, q) else []
  }

  function SanctionsByFn(c: Conflict, mv: Moves, co: nat, s0: nat, s1: nat): nat -> seq<Pattern>
    requires Shaped(c, mv) && co < |c.parties| && s0 < |c.feasibles| && s1 < |c.feasibles|
  {
    (co2: nat) => if co2 < |c.parties| then SanctionsBy(c, mv, co, co2, s0, s1) else []
  }

  lemma SanctionsAccumulate(c: Conflict, mv: Moves, co: nat, s0: nat, s1: nat, q: nat)
    requires Shaped(c, mv) && co < |c.parties| && s0 < |c.feasibles| && s1 < |c.feasibles| && q <= |c.parties|
    ensures Accumulates(SanctionsBelowFn(c, mv, co, s0, s1), SanctionsByFn(c, mv, co, s0, s1), q)
  {
    forall j | 0 <= j < q {
      SanctionsBelowStep(c, mv, co, s0, s1, j);
    }
  }

  function NotSanctionsBelowFn(c: Conflict, mv: Moves, co: nat, s0: nat, s1: nat): nat -> seq<Pattern>
    requires Shaped(c, mv) && co < |c.parties| && s0 < |c.feasibles| && s1 < |c.feasibles|
  {
    (q: nat) => if q <= |c.parties| then NotSanctionsBelow(c, mv, co, s0, s1, q) else []
  }

  function NotSanctionsByFn(c: Conflict, mv: Moves, co: nat, s0: nat, s1: nat): nat -> seq<Pattern>
    requires Shaped(c, mv) && co < |c.parties| && s0 < |c.feasibles| && s1 < |c.feasibles|
  {
    (co2: nat) => if co2 < |c.parties| then NotSanctionsBy(c, mv, co, co2, s0, s1) else []
  }

  lemma NotSanctionsAccumulate(c: Conflict, mv: Moves, co: nat, s0: nat, s1: nat, q: nat)
    requires Shaped(c, mv) && co < |c.parties| && s0 < |c.feasibles| && s1 < |c.feasibles| && q <= |c.parties|
    ensures Accumulates(NotSanctionsBelowFn(c, mv, co, s0, s1), NotSanctionsByFn(c, mv, co, s0, s1), q)
  {
    forall j | 0 <= j < q {
      NotSanctionsBelowStep(c, mv, co, s0, s1, j);
    }
  }

  // ---------------------------------------------------------------------------------------
  // What the Nash conditions mean

  lemma NashCondsStep(c: Conflict, mv: Moves, s0: nat, stable: bool, q: nat)
    requires Shaped(c, mv)
    requires q < |c.parties| && s0 < |c.feasibles|
    ensures NashConds(c, mv, s0, stable, q + 1) == NashConds(c, mv, s0, stable, q) + NashPart(c, mv, s0, stable, q)
  {
  }

  lemma NashCondsHave(c: Conflict, mv: Moves, s0: nat, q: nat, p: nat, s1: nat) returns (m: nat)
    requires MovesOf(c, mv)
    requires q <= |c.parties| && s0 < |c.feasibles| && p < q && s1 < |c.feasibles| && Reach(c, p, s0, s1)
    ensures m < |NashConds(c, mv, s0, true, q)| && NashConds(c, mv, s0, true, q)[m] == MoreThanFor(p, Name(c, p), s0, s1)
  {
    NashAccumulates(c, mv, s0, true, q);
    var xs := mv[p][s0];
    assert s1 in xs;
    var k :| 0 <= k < |xs| && xs[k] == s1;
    MoreThanEachAt(c, p, s0, xs, |xs|, k);
    m := AccumulatedHas(NashCondsFn(c, mv, s0, true), NashPartFn(c, mv, s0, true), q, p, k);
  }

  lemma NashCondsFrom(c: Conflict, mv: Moves, s0: nat, q: nat, i: nat)
    requires MovesOf(c, mv)
    requires q <= |c.parties| && s0 < |c.feasibles| && i < |NashConds(c, mv, s0, true, q)|
    ensures var x := NashConds(c, mv, s0, true, q)[i];
      x.MoreThanFor? && x.co < q && x.s0 == s0 && x.s1 < |c.feasibles| && Reach(c, x.co, s0, x.s1)
  {
    NashAccumulates(c, mv, s0, true, q);
    var p, k := AccumulatedAt(NashCondsFn(c, mv, s0, true), NashPartFn(c, mv, s0, true), q, i);
    var xs := mv[p][s0];
    MoreThanEachAt(c, p, s0, xs, |xs|, k);
    assert xs[k] in xs;
  }

  /** Preferences never change who can move where. */
  lemma NoMovesStable(c: Conflict, mv: Moves, d: Conflict, p: nat, s0: nat)
    requires MovesOf(c, mv)
    requires ValidConflict(c) && ValidConflict(d) && SameMoves(c, d)
    requires p < |c.parties| && s0 < |c.feasibles| && mv[p][s0] == []
    ensures NashStable(d, p, s0)
  {
    forall s1 | 0 <= s1 < |d.feasibles|
      ensures !IsUI(d, p, s0, s0, s1)
    {
      ReachIgnoresPayoffs(c, d, p, s0, s1);
      assert s1 !in mv[p][s0];
    }
  }

  /**
   * Preferences meeting the stability goal make s0 Nash-stable for every party: each move
   * of each party is to a state it likes less.
   */
  lemma NashStableGoalSound(c: Conflict, mv: Moves, d: Conflict, s0: nat)
    requires MovesOf(c, mv)
    requires ValidConflict(c) && ValidConflict(d) && SameMoves(c, d) && s0 < |c.feasibles|
    requires Holds(d, NashGoalOf(c, mv, s0, true))
    ensures Equilibrium(Nash, d, s0)
  {
    var conds := NashConds(c, mv, s0, true, |c.parties|);
    assert AllHold(d, conds);
    forall p, s1 | 0 <= p < |d.parties| && 0 <= s1 < |d.feasibles|
      ensures !IsUI(d, p, s0, s0, s1)
    {
      ReachIgnoresPayoffs(c, d, p, s0, s1);
      if Reach(d, p, s0, s1) {
        var i := NashCondsHave(c, mv, s0, |c.parties|, p, s1);
        assert Holds(d, conds[i]);
        PrefersAsymmetric(d, p, s0, s1);
      }
    }
    forall p | 0 <= p < |d.parties|
      ensures Stable(Nash, d, p, s0)
    {
    }
  }

  /**
   * Every party is a decision maker that is never indifferent between s0 and a state it
   * can move to.
   */
  predicate Decisive(c: Conflict, d: Conflict, s0: nat)
    requires ValidConflict(d) && SameMoves(c, d) && s0 < |c.feasibles|
  {
    forall p, s1 :: 0 <= p < |c.parties| && 0 <= s1 < |c.feasibles| && Reach(c, p, s0, s1) ==>
      d.parties[p].DM? && Gain(d, p, s0, s1) != 0
  }

  /** Without indifference, the stability goal is exactly Nash stability. */
  lemma NashStableGoalExact(c: Conflict, mv: Moves, d: Conflict, s0: nat)
    requires MovesOf(c, mv)
    requires ValidConflict(c) && ValidConflict(d) && SameMoves(c, d) && s0 < |c.feasibles|
    requires Decisive(c, d, s0)
    ensures Holds(d, NashGoalOf(c, mv, s0, true)) <==> Equilibrium(Nash, d, s0)
  {
    if Holds(d, NashGoalOf(c, mv, s0, true)) {
      NashStableGoalSound(c, mv, d, s0);
    }
    if Equilibrium(Nash, d, s0) {
      var conds := NashConds(c, mv, s0, true, |c.parties|);
      forall i | 0 <= i < |conds|
        ensures Holds(d, conds[i])
      {
        NashCondsFrom(c, mv, s0, |c.parties|, i);
        var x := conds[i];
        ReachIgnoresPayoffs(c, d, x.co, s0, x.s1);
        assert Stable(Nash, d, x.co, s0);
        assert !IsUI(d, x.co, s0, s0, x.s1);
      }
      assert AllHold(d, conds);
    }
  }

  /** Party co's LessThanOneOf holds exactly when co has an improvement from s0. */
  lemma LessThanOneOfMeaning(c: Conflict, mv: Moves, d: Conflict, co: nat, s0: nat)
    requires MovesOf(c, mv)
    requires ValidConflict(c) && ValidConflict(d) && SameMoves(c, d)
    requires co < |c.parties| && s0 < |c.feasibles|
    ensures Holds(d, LessThanOneOf(co, Name(c, co), s0, mv[co][s0])) <==> !NashStable(d, co, s0)
  {
    var xs := mv[co][s0];
    if Holds(d, LessThanOneOf(co, Name(c, co), s0, xs)) {
      var k :| 0 <= k < |xs| && Prefers(d, co, xs[k], s0);
      assert xs[k] in xs;
      ReachIgnoresPayoffs(c, d, co, s0, xs[k]);
      assert IsUI(d, co, s0, s0, xs[k]);
    }
    if !NashStable(d, co, s0) {
      var s1 :| 0 <= s1 < |d.feasibles| && IsUI(d, co, s0, s0, s1);
      ReachIgnoresPayoffs(c, d, co, s0, s1);
      assert s1 in xs;
      var k :| 0 <= k < |xs| && xs[k] == s1;
      assert Prefers(d, co, xs[k], s0);
    }
  }

  /** A party with a move from s0 contributes its LessThanOneOf condition to the instability goal. */
  lemma NashUnstableCondsHave(c: Conflict, mv: Moves, s0: nat, q: nat, p: nat) returns (i: nat)
    requires Shaped(c, mv)
    requires q <= |c.parties| && s0 < |c.feasibles| && p < q && mv[p][s0] != []
    ensures i < |NashConds(c, mv, s0, false, q)|
    ensures NashConds(c, mv, s0, false, q)[i] == LessThanOneOf(p, Name(c, p), s0, mv[p][s0])
  {
    NashAccumulates(c, mv, s0, false, q);
    i := AccumulatedHas(NashCondsFn(c, mv, s0, false), NashPartFn(c, mv, s0, false), q, p, 0);
  }

  /** Every condition of the instability goal is the LessThanOneOf condition of some party. */
  lemma NashUnstableCondsFrom(c: Conflict, mv: Moves, s0: nat, q: nat, i: nat) returns (p: nat)
    requires Shaped(c, mv)
    requires q <= |c.parties| && s0 < |c.feasibles| && i < |NashConds(c, mv, s0, false, q)|
    ensures p < q && NashConds(c, mv, s0, false, q)[i] == LessThanOneOf(p, Name(c, p), s0, mv[p][s0])
  {
    NashAccumulates(c, mv, s0, false, q);
    var k;
    p, k := AccumulatedAt(NashCondsFn(c, mv, s0, false), NashPartFn(c, mv, s0, false), q, i);
  }

  /**
   * Preferences meet the instability goal exactly when some party has an improvement from
   * s0, that is, when s0 is not a Nash equilibrium.
   */
  lemma NashUnstableGoalExact(c: Conflict, mv: Moves, d: Conflict, s0: nat)
    requires MovesOf(c, mv)
    requires ValidConflict(c) && ValidConflict(d) && SameMoves(c, d) && s0 < |c.feasibles|
    ensures Holds(d, NashGoalOf(c, mv, s0, false)) <==> !Equilibrium(Nash, d, s0)
  {
    var conds := NashConds(c, mv, s0, false, |c.parties|);
    assert Holds(d, NashGoalOf(c, mv, s0, false)) == AnyHolds(d, conds);
    if AnyHolds(d, conds) {
      var i :| 0 <= i < |conds| && Holds(d, conds[i]);
      var p := NashUnstableCondsFrom(c, mv, s0, |c.parties|, i);
      LessThanOneOfMeaning(c, mv, d, p, s0);
      assert !Stable(Nash, d, p, s0);
    }
    if !Equilibrium(Nash, d, s0) {
      var p :| 0 <= p < |d.parties| && !Stable(Nash, d, p, s0);
      LessThanOneOfMeaning(c, mv, d, p, s0);
      var i := NashUnstableCondsHave(c, mv, s0, |c.parties|, p);
      assert Holds(d, conds[i]);
    }
  }

  // ---------------------------------------------------------------------------------------
  // What the SEQ conditions mean

  /** A sanction pattern that holds names an opponent's improvement that co likes less than s0. */
  lemma SanctionPatternSound(c: Conflict, d: Conflict, co: nat, o: nat, s0: nat, s1: nat, s2: nat)
    requires ValidConflict(c) && ValidConflict(d) && SameMoves(c, d)
    requires co < |c.parties| && o < |c.parties| && s0 < |c.feasibles| && s1 < |c.feasibles| && s2 < |c.feasibles|
    requires Reach(c, o, s1, s2)
    requires Holds(d, Sanction(c, co, o, s0, s1, s2))
    ensures IsUI(d, o, s1, s1, s2) && Sanctions(d, co, s0, s2)
  {
    var ps := [MoreThanFor(o, Name(c, o), s2, s1), MoreThanFor(co, Name(c, co), s0, s2)];
    assert Holds(d, ps[0]) && Holds(d, ps[1]);
    ReachIgnoresPayoffs(c, d, o, s1, s2);
    PrefersAsymmetric(d, co, s0, s2);
  }

  lemma SanctionsBelowSound(c: Conflict, mv: Moves, d: Conflict, co: nat, s0: nat, s1: nat, q: nat, i: nat)
    requires MovesOf(c, mv)
    requires ValidConflict(c) && ValidConflict(d) && SameMoves(c, d)
    requires co < |c.parties| && q <= |c.parties| && s0 < |c.feasibles| && s1 < |c.feasibles|
    requires i < |SanctionsBelow(c, mv, co, s0, s1, q)| && Holds(d, SanctionsBelow(c, mv, co, s0, s1, q)[i])
    ensures exists s2 :: 0 <= s2 < |d.feasibles| && OpponentUIBelow(d, co, q, s1, s2) && Sanctions(d, co, s0, s2)
  {
    SanctionsAccumulate(c, mv, co, s0, s1, q);
    var o, k := AccumulatedAt(SanctionsBelowFn(c, mv, co, s0, s1), SanctionsByFn(c, mv, co, s0, s1), q, i);
    var xs := mv[o][s1];
    var s2 := xs[k];
    assert s2 in xs;
    SanctionEachAt(c, co, o, s0, s1, xs, |xs|, k);
    SanctionPatternSound(c, d, co, o, s0, s1, s2);
    OpponentUIWitness(d, co, q, s1, s2);
  }

  /** An OR whose first alternative fails holds through one of the others. */
  lemma OrRest(d: Conflict, m: Pattern, rest: seq<Pattern>) returns (j: nat)
    requires ValidConflict(d) && Holds(d, PatternOr([m] + rest)) && !Holds(d, m)
    ensures j < |rest| && Holds(d, rest[j])
  {
    var alts := [m] + rest;
    var i :| 0 <= i < |alts| && Holds(d, alts[i]);
    assert i != 0;
    assert alts[i] == rest[i - 1];
    j := i - 1;
  }

  /** An improvement s1 of p whose stable-SEQ alternative holds is sanctioned. */
  lemma StableAlternativeSound(c: Conflict, mv: Moves, d: Conflict, p: nat, s0: nat, s1: nat)
    requires MovesOf(c, mv)
    requires ValidConflict(c) && ValidConflict(d) && SameMoves(c, d)
    requires p < |c.parties| && s0 < |c.feasibles| && s1 < |c.feasibles| && IsUI(d, p, s0, s0, s1)
    requires Holds(d, StableAlternative(c, mv, p, s0, s1))
    ensures SeqSanctioned(d, p, s0, s1)
  {
    var m := MoreThanFor(p, Name(c, p), s0, s1);
    if Holds(d, m) {
      PrefersAsymmetric(d, p, s1, s0);
      assert false;
    }
    var j := OrRest(d, m, SanctionsBelow(c, mv, p, s0, s1, |c.parties|));
    SanctionsBelowSound(c, mv, d, p, s0, s1, |c.parties|, j);
  }

  /** When every stable-SEQ alternative of p holds, each improvement of p is sanctioned. */
  lemma StablePartSound(c: Conflict, mv: Moves, d: Conflict, p: nat, s0: nat)
    requires MovesOf(c, mv)
    requires ValidConflict(c) && ValidConflict(d) && SameMoves(c, d)
    requires p < |c.parties| && s0 < |c.feasibles|
    requires AllHold(d, SeqStablePart(c, mv, s0, p))
    ensures SeqStable(d, p, s0)
  {
    var xs := mv[p][s0];
    var part := StableEach(c, mv, p, s0, xs, |xs|);
    forall s1 | 0 <= s1 < |d.feasibles| && IsUI(d, p, s0, s0, s1)
      ensures SeqSanctioned(d, p, s0, s1)
    {
      ReachIgnoresPayoffs(c, d, p, s0, s1);
      assert s1 in xs;
      var k :| 0 <= k < |xs| && xs[k] == s1;
      StableEachAt(c, mv, p, s0, xs, |xs|, k);
      assert Holds(d, part[k]);
      StableAlternativeSound(c, mv, d, p, s0, s1);
    }
  }

  /** Party p's share of the SEQ stability conditions holds when all of them do. */
  lemma SeqStableCondsHold(c: Conflict, mv: Moves, d: Conflict, s0: nat, q: nat, p: nat)
    requires Shaped(c, mv)
    requires ValidConflict(d) && q <= |c.parties| && s0 < |c.feasibles| && p < q
    requires AllHold(d, SeqStableConds(c, mv, s0, q))
    ensures AllHold(d, SeqStablePart(c, mv, s0, p))
  {
    SeqStableAccumulates(c, mv, s0, q);
    var part := SeqStablePart(c, mv, s0, p);
    forall k | 0 <= k < |part|
      ensures Holds(d, part[k])
    {
      var i := AccumulatedHas(SeqStableCondsFn(c, mv, s0), SeqStablePartFn(c, mv, s0), q, p, k);
    }
  }

  /**
   * Preferences meeting the SEQ stability goal make s0 SEQ-stable for every party: each
   * improvement is answered by an opponent's improvement that the party likes less than s0.
   */
  lemma SeqStableGoalSound(c: Conflict, mv: Moves, d: Conflict, s0: nat)
    requires MovesOf(c, mv)
    requires ValidConflict(c) && ValidConflict(d) && SameMoves(c, d) && s0 < |c.feasibles|
    requires Holds(d, SeqGoalAsWritten(c, mv, s0, true))
    ensures Equilibrium(Seq, d, s0)
  {
    forall p | 0 <= p < |d.parties|
      ensures Stable(Seq, d, p, s0)
    {
      SeqStableCondsHold(c, mv, d, s0, |c.parties|, p);
      StablePartSound(c, mv, d, p, s0);
    }
  }

  /** Every non-sanction pattern of the parties below q holds when the list of them does. */
  lemma NotSanctionsBelowSound(c: Conflict, mv: Moves, d: Conflict, co: nat, s0: nat, s1: nat, q: nat, o: nat, s2: nat)
    requires MovesOf(c, mv)
    requires ValidConflict(d)
    requires co < |c.parties| && q <= |c.parties| && s0 < |c.feasibles| && s1 < |c.feasibles|
    requires o < q && o != co && s2 < |c.feasibles| && Reach(c, o, s1, s2)
    requires AllHold(d, NotSanctionsBelow(c, mv, co, s0, s1, q))
    ensures Holds(d, NotSanction(c, co, o, s0, s1, s2))
  {
    NotSanctionsAccumulate(c, mv, co, s0, s1, q);
    var xs := mv[o][s1];
    assert s2 in xs;
    var k :| 0 <= k < |xs| && xs[k] == s2;
    NotSanctionEachAt(c, co, o, s0, s1, xs, |xs|, k);
    var i := AccumulatedHas(NotSanctionsBelowFn(c, mv, co, s0, s1), NotSanctionsByFn(c, mv, co, s0, s1), q, o, k);
  }

  /** When the non-sanction patterns all hold, no opponent's improvement from s1 sanctions co. */
  lemma NotSanctionedSound(c: Conflict, mv: Moves, d: Conflict, co: nat, s0: nat, s1: nat, s2: nat)
    requires MovesOf(c, mv)
    requires ValidConflict(c) && ValidConflict(d) && SameMoves(c, d)
    requires co < |c.parties| && s0 < |c.feasibles| && s1 < |c.feasibles| && s2 < |c.feasibles|
    requires AllHold(d, NotSanctionsBelow(c, mv, co, s0, s1, |c.parties|))
    requires OpponentUI(d, co, s1, s2)
    ensures !Sanctions(d, co, s0, s2)
  {
    var ns := NotSanctionsBelow(c, mv, co, s0, s1, |c.parties|);
    OpponentUIWitness(d, co, |d.parties|, s1, s2);
    var o :| 0 <= o < |d.parties| && o != co && IsUI(d, o, s1, s1, s2);
    ReachIgnoresPayoffs(c, d, o, s1, s2);
    NotSanctionsBelowSound(c, mv, d, co, s0, s1, |c.parties|, o, s2);
    NotSanctionHolds(c, d, co, o, s0, s1, s2);
    if Prefers(d, o, s1, s2) {
      PrefersAsymmetric(d, o, s1, s2);
      assert false;
    }
  }

  lemma NotSanctionHolds(c: Conflict, d: Conflict, co: nat, o: nat, s0: nat, s1: nat, s2: nat)
    requires ValidConflict(c) && ValidConflict(d) && SameMoves(c, d)
    requires co < |c.parties| && o < |c.parties| && s0 < |c.feasibles| && s1 < |c.feasibles| && s2 < |c.feasibles|
    requires Holds(d, NotSanction(c, co, o, s0, s1, s2))
    ensures Prefers(d, o, s1, s2) || Prefers(d, co, s2, s0)
  {
    var ps := [MoreThanFor(o, Name(c, o), s1, s2), MoreThanFor(co, Name(c, co), s2, s0)];
    assert AnyHolds(d, ps);
    var j :| 0 <= j < |ps| && Holds(d, ps[j]);
  }

  /** Some unstable-SEQ alternative of co holds, for a move s1 of co. */
  lemma UnstableEachPick(c: Conflict, mv: Moves, d: Conflict, co: nat, s0: nat) returns (s1: nat)
    requires Shaped(c, mv) && ValidConflict(d)
    requires co < |c.parties| && s0 < |c.feasibles|
    requires Holds(d, PatternOr(UnstableEach(c, mv, co, s0, mv[co][s0], |mv[co][s0]|)))
    ensures s1 in mv[co][s0] && s1 < |c.feasibles| && Holds(d, UnstableAlternative(c, mv, co, s0, s1))
  {
    var xs := mv[co][s0];
    var us := UnstableEach(c, mv, co, s0, xs, |xs|);
    var k :| 0 <= k < |us| && Holds(d, us[k]);
    UnstableEachAt(c, mv, co, s0, xs, |xs|, k);
    s1 := xs[k];
  }

  /** An unstable-SEQ alternative holds when co improves and all the non-sanctions hold. */
  lemma UnstableAlternativeParts(c: Conflict, mv: Moves, d: Conflict, co: nat, s0: nat, s1: nat)
    requires Shaped(c, mv) && ValidConflict(d)
    requires co < |c.parties| && s0 < |c.feasibles| && s1 < |c.feasibles|
    requires Holds(d, UnstableAlternative(c, mv, co, s0, s1))
    ensures Holds(d, MoreThanFor(co, Name(c, co), s1, s0))
    ensures AllHold(d, NotSanctionsBelow(c, mv, co, s0, s1, |c.parties|))
  {
    var m := MoreThanFor(co, Name(c, co), s1, s0);
    var ns := NotSanctionsBelow(c, mv, co, s0, s1, |c.parties|);
    HoldsConcat(d, [m], ns);
    assert ([m] + ns)[0] == m;
  }

  /** A party whose unstable-SEQ alternative holds has an unsanctioned improvement. */
  lemma UnstablePartSound(c: Conflict, mv: Moves, d: Conflict, co: nat, s0: nat)
    requires MovesOf(c, mv)
    requires ValidConflict(c) && ValidConflict(d) && SameMoves(c, d)
    requires co < |c.parties| && s0 < |c.feasibles|
    requires Holds(d, PatternOr(UnstableEach(c, mv, co, s0, mv[co][s0], |mv[co][s0]|)))
    ensures !SeqStable(d, co, s0)
  {
    var s1 := UnstableEachPick(c, mv, d, co, s0);
    UnstableAlternativeParts(c, mv, d, co, s0, s1);
    ReachIgnoresPayoffs(c, d, co, s0, s1);
    assert IsUI(d, co, s0, s0, s1);
    forall s2 | 0 <= s2 < |d.feasibles| && OpponentUI(d, co, s1, s2)
      ensures !Sanctions(d, co, s0, s2)
    {
      NotSanctionedSound(c, mv, d, co, s0, s1, s2);
    }
    assert !SeqSanctioned(d, co, s0, s1);
  }

  lemma SeqUnstableCondsSound(c: Conflict, mv: Moves, d: Conflict, s0: nat, q: nat, i: nat)
    requires MovesOf(c, mv)
    requires ValidConflict(c) && ValidConflict(d) && SameMoves(c, d)
    requires q <= |c.parties| && s0 < |c.feasibles|
    requires i < |SeqUnstableConds(c, mv, s0, q)| && Holds(d, SeqUnstableConds(c, mv, s0, q)[i])
    ensures exists p :: 0 <= p < q && !SeqStable(d, p, s0)
  {
    var p := SeqUnstableCondsFrom(c, mv, s0, q, i);
    UnstablePartSound(c, mv, d, p, s0);
  }

  /** Preferences meeting the SEQ instability goal leave s0 outside the SEQ equilibria. */
  lemma SeqUnstableGoalSound(c: Conflict, mv: Moves, d: Conflict, s0: nat)
    requires MovesOf(c, mv)
    requires ValidConflict(c) && ValidConflict(d) && SameMoves(c, d) && s0 < |c.feasibles|
    requires Holds(d, SeqGoalOf(c, mv, s0, false))
    ensures !Equilibrium(Seq, d, s0)
  {
    var conds := SeqUnstableConds(c, mv, s0, |c.parties|);
    assert AnyHolds(d, conds);
    var i :| 0 <= i < |conds| && Holds(d, conds[i]);
    SeqUnstableCondsSound(c, mv, d, s0, |c.parties|, i);
    var p :| 0 <= p < |c.parties| && !SeqStable(d, p, s0);
    assert !Stable(Seq, d, p, s0);
  }

  /** A party without moves adds nothing to the SEQ instability conditions. */
  lemma SeqPartNoMoves(c: Conflict, mv: Moves, s0: nat, co: nat)
    requires Shaped(c, mv)
    requires co < |c.parties| && s0 < |c.feasibles| && mv[co][s0] == []
    ensures SeqUnstablePart(c, mv, s0, co) == []
  {
  }

  lemma SeqUnstableCondsStep(c: Conflict, mv: Moves, s0: nat, q: nat)
    requires Shaped(c, mv)
    requires q < |c.parties| && s0 < |c.feasibles|
    ensures SeqUnstableConds(c, mv, s0, q + 1) == SeqUnstableConds(c, mv, s0, q) + SeqUnstablePart(c, mv, s0, q)
  {
  }

  /** A party without moves leaves the SEQ instability conditions as they were. */
  lemma SeqCondsSkip(c: Conflict, mv: Moves, s0: nat, q: nat)
    requires Shaped(c, mv)
    requires q < |c.parties| && s0 < |c.feasibles| && mv[q][s0] == []
    ensures SeqUnstableConds(c, mv, s0, q + 1) == SeqUnstableConds(c, mv, s0, q)
  {
    SeqPartNoMoves(c, mv, s0, q);
    SeqUnstableCondsStep(c, mv, s0, q);
  }

  // ---------------------------------------------------------------------------------------
  // The SEQ conditions, read back: with strict preferences they say no less than stability

  /** Party p is not indifferent between a and b. */
  predicate Ranks(d: Conflict, p: nat, a: nat, b: nat)
    requires ValidConflict(d) && p < |d.parties| && a < |d.feasibles| && b < |d.feasibles|
  {
    Gain(d, p, a, b) != 0
  }

  /** Every party is a decision maker that ranks no two distinct states equally. */
  predicate StrictPreferences(d: Conflict)
    requires ValidConflict(d)
  {
    && (forall p :: 0 <= p < |d.parties| ==> d.parties[p].DM?)
    && forall p, a, b :: 0 <= p < |d.parties| && 0 <= a < |d.feasibles| && 0 <= b < |d.feasibles| && a != b ==>
         Ranks(d, p, a, b)
  }

  /** Under strict preferences, a move that is no improvement is one the party dislikes. */
  lemma StrictDislike(d: Conflict, p: nat, a: nat, b: nat)
    requires ValidConflict(d) && StrictPreferences(d)
    requires p < |d.parties| && a < |d.feasibles| && b < |d.feasibles| && a != b && Gain(d, p, a, b) <= 0
    ensures Prefers(d, p, a, b)
  {
    assert Ranks(d, p, a, b);
  }

  /** The sanction of co's move s0 -> s1 by o's move s1 -> s2 is among those seqGoal lists. */
  lemma SanctionsBelowHave(c: Conflict, mv: Moves, co: nat, s0: nat, s1: nat, q: nat, o: nat, s2: nat)
    returns (i: nat)
    requires Shaped(c, mv)
    requires co < |c.parties| && q <= |c.parties| && s0 < |c.feasibles| && s1 < |c.feasibles|
    requires o < q && o != co && s2 in mv[o][s1]
    ensures i < |SanctionsBelow(c, mv, co, s0, s1, q)| && SanctionsBelow(c, mv, co, s0, s1, q)[i] == Sanction(c, co, o, s0, s1, s2)
  {
    SanctionsAccumulate(c, mv, co, s0, s1, q);
    var k := SanctionsByHave(c, mv, co, o, s0, s1, s2);
    i := AccumulatedHas(SanctionsBelowFn(c, mv, co, s0, s1), SanctionsByFn(c, mv, co, s0, s1), q, o, k);
  }

  /** The sanction of co's move s0 -> s1 by o's move s1 -> s2 is among those o adds. */
  lemma SanctionsByHave(c: Conflict, mv: Moves, co: nat, o: nat, s0: nat, s1: nat, s2: nat) returns (k: nat)
    requires Shaped(c, mv)
    requires co < |c.parties| && o < |c.parties| && s0 < |c.feasibles| && s1 < |c.feasibles|
    requires o != co && s2 in mv[o][s1]
    ensures k < |SanctionsBy(c, mv, co, o, s0, s1)| && SanctionsBy(c, mv, co, o, s0, s1)[k] == Sanction(c, co, o, s0, s1, s2)
  {
    var xs := mv[o][s1];
    k :| 0 <= k < |xs| && xs[k] == s2;
    SanctionEachAt(c, co, o, s0, s1, xs, |xs|, k);
  }

  /** An OR holds when one of its alternatives does. */
  lemma OrHolds(d: Conflict, alts: seq<Pattern>, i: nat)
    requires ValidConflict(d) && i < |alts| && Holds(d, alts[i])
    ensures Holds(d, PatternOr(alts))
  {
  }

  /** o's improvement s1 -> s2, which co likes less than s0, meets the sanction pattern. */
  lemma SanctionHolds(c: Conflict, d: Conflict, co: nat, o: nat, s0: nat, s1: nat, s2: nat)
    requires ValidConflict(c) && ValidConflict(d) && SameMoves(c, d)
    requires co < |c.parties| && o < |c.parties| && s0 < |c.feasibles| && s1 < |c.feasibles| && s2 < |c.feasibles|
    requires Gain(d, o, s1, s2) > 0 && Prefers(d, co, s0, s2)
    ensures Holds(d, Sanction(c, co, o, s0, s1, s2))
  {
    var ps := [MoreThanFor(o, Name(c, o), s2, s1), MoreThanFor(co, Name(c, co), s0, s2)];
    assert Holds(d, ps[0]) && Holds(d, ps[1]);
  }

  /** The opponent's improvement that sanctions p's move s0 -> s1, as a move of mv that p dislikes. */
  lemma SanctionWitness(c: Conflict, mv: Moves, d: Conflict, p: nat, s0: nat, s1: nat) returns (o: nat, s2: nat)
    requires MovesOf(c, mv)
    requires ValidConflict(c) && ValidConflict(d) && SameMoves(c, d)
    requires ExclusiveControl(c.parties) && StrictPreferences(d)
    requires p < |c.parties| && s0 < |c.feasibles| && s1 < |c.feasibles| && Reach(c, p, s0, s1)
    requires SeqSanctioned(d, p, s0, s1)
    ensures o < |c.parties| && o != p && s2 in mv[o][s1]
    ensures Holds(d, Sanction(c, p, o, s0, s1, s2))
  {
    s2 :| 0 <= s2 < |d.feasibles| && OpponentUI(d, p, s1, s2) && Sanctions(d, p, s0, s2);
    OpponentUIWitness(d, p, |d.parties|, s1, s2);
    o :| 0 <= o < |d.parties| && o != p && IsUI(d, o, s1, s1, s2);
    ReachIgnoresPayoffs(c, d, o, s1, s2);
    NoReturnToStart(c, p, o, s0, s1);
    StrictDislike(d, p, s0, s2);
    SanctionHolds(c, d, p, o, s0, s1, s2);
  }

  /**
   * A SEQ-stable party's improvement is sanctioned by an opponent's improvement that cannot
   * lead back to s0, so the sanction pattern for it holds.
   */
  lemma SanctionedAlternative(c: Conflict, mv: Moves, d: Conflict, p: nat, s0: nat, s1: nat)
    requires MovesOf(c, mv)
    requires ValidConflict(c) && ValidConflict(d) && SameMoves(c, d)
    requires ExclusiveControl(c.parties) && StrictPreferences(d)
    requires p < |c.parties| && s0 < |c.feasibles| && s1 < |c.feasibles| && Reach(c, p, s0, s1)
    requires SeqSanctioned(d, p, s0, s1)
    ensures Holds(d, StableAlternative(c, mv, p, s0, s1))
  {
    var o, s2 := SanctionWitness(c, mv, d, p, s0, s1);
    var i := SanctionsBelowHave(c, mv, p, s0, s1, |c.parties|, o, s2);
    var alts := [MoreThanFor(p, Name(c, p), s0, s1)] + SanctionsBelow(c, mv, p, s0, s1, |c.parties|);
    assert alts[i + 1] == Sanction(c, p, o, s0, s1, s2);
    OrHolds(d, alts, i + 1);
  }

  /**
   * A move of a SEQ-stable party p is either no improvement, which strict preferences turn
   * into p preferring s0, or sanctioned; either way the stable-SEQ alternative holds.
   */
  lemma StableAlternativeComplete(c: Conflict, mv: Moves, d: Conflict, p: nat, s0: nat, s1: nat)
    requires MovesOf(c, mv)
    requires ValidConflict(c) && ValidConflict(d) && SameMoves(c, d)
    requires ExclusiveControl(c.parties) && StrictPreferences(d)
    requires p < |c.parties| && s0 < |c.feasibles| && s1 < |c.feasibles| && Reach(c, p, s0, s1)
    requires SeqStable(d, p, s0)
    ensures Holds(d, StableAlternative(c, mv, p, s0, s1))
  {
    ReachDef(c, p, s0, s1);
    ReachIgnoresPayoffs(c, d, p, s0, s1);
    if Gain(d, p, s0, s1) > 0 {
      assert IsUI(d, p, s0, s0, s1);
      SanctionedAlternative(c, mv, d, p, s0, s1);
    } else {
      StrictDislike(d, p, s0, s1);
      var alts := [MoreThanFor(p, Name(c, p), s0, s1)] + SanctionsBelow(c, mv, p, s0, s1, |c.parties|);
      OrHolds(d, alts, 0);
    }
  }

  /** A SEQ-stable party meets every stable-SEQ alternative of its moves. */
  lemma StablePartComplete(c: Conflict, mv: Moves, d: Conflict, p: nat, s0: nat)
    requires MovesOf(c, mv)
    requires ValidConflict(c) && ValidConflict(d) && SameMoves(c, d)
    requires ExclusiveControl(c.parties) && StrictPreferences(d)
    requires p < |c.parties| && s0 < |c.feasibles| && SeqStable(d, p, s0)
    ensures AllHold(d, SeqStablePart(c, mv, s0, p))
  {
    var xs := mv[p][s0];
    var part := SeqStablePart(c, mv, s0, p);
    forall k | 0 <= k < |part|
      ensures Holds(d, part[k])
    {
      StableEachAt(c, mv, p, s0, xs, |xs|, k);
      assert xs[k] in xs;
      StableAlternativeComplete(c, mv, d, p, s0, xs[k]);
    }
  }

  /** When the parties below q are SEQ-stable, their stability conditions all hold. */
  lemma SeqStableCondsComplete(c: Conflict, mv: Moves, d: Conflict, s0: nat, q: nat)
    requires MovesOf(c, mv)
    requires ValidConflict(c) && ValidConflict(d) && SameMoves(c, d)
    requires ExclusiveControl(c.parties) && StrictPreferences(d)
    requires q <= |c.parties| && s0 < |c.feasibles|
    requires forall p :: 0 <= p < q ==> SeqStable(d, p, s0)
    ensures AllHold(d, SeqStableConds(c, mv, s0, q))
  {
    forall p | 0 <= p < q
      ensures AllHold(d, SeqStablePart(c, mv, s0, p))
    {
      StablePartComplete(c, mv, d, p, s0);
    }
    SeqStablePartsHold(c, mv, d, s0, q);
  }

  /** The stability conditions after the parties below q hold when each party's part does. */
  lemma SeqStablePartsHold(c: Conflict, mv: Moves, d: Conflict, s0: nat, q: nat)
    requires Shaped(c, mv) && ValidConflict(d)
    requires q <= |c.parties| && s0 < |c.feasibles|
    requires forall p :: 0 <= p < q ==> AllHold(d, SeqStablePart(c, mv, s0, p))
    ensures AllHold(d, SeqStableConds(c, mv, s0, q))
  {
    SeqStableAccumulates(c, mv, s0, q);
    var conds := SeqStableConds(c, mv, s0, q);
    forall i | 0 <= i < |conds|
      ensures Holds(d, conds[i])
    {
      var p, k := AccumulatedAt(SeqStableCondsFn(c, mv, s0), SeqStablePartFn(c, mv, s0), q, i);
    }
  }

  lemma SeqStableCondsStep(c: Conflict, mv: Moves, s0: nat, q: nat)
    requires Shaped(c, mv)
    requires q < |c.parties| && s0 < |c.feasibles|
    ensures SeqStableConds(c, mv, s0, q + 1) == SeqStableConds(c, mv, s0, q) + SeqStablePart(c, mv, s0, q)
  {
  }

  /**
   * With one controller per option and strict preferences, the SEQ stability goal holds
   * exactly when s0 is a SEQ equilibrium.
   */
  lemma SeqStableGoalExact(c: Conflict, mv: Moves, d: Conflict, s0: nat)
    requires MovesOf(c, mv)
    requires ValidConflict(c) && ValidConflict(d) && SameMoves(c, d) && s0 < |c.feasibles|
    requires ExclusiveControl(c.parties) && StrictPreferences(d)
    ensures Holds(d, SeqGoalAsWritten(c, mv, s0, true)) <==> Equilibrium(Seq, d, s0)
  {
    if Holds(d, SeqGoalAsWritten(c, mv, s0, true)) {
      SeqStableGoalSound(c, mv, d, s0);
    }
    if Equilibrium(Seq, d, s0) {
      forall p | 0 <= p < |c.parties|
        ensures SeqStable(d, p, s0)
      {
        assert Stable(Seq, d, p, s0);
      }
      SeqStableCondsComplete(c, mv, d, s0, |c.parties|);
    }
  }

  /**
   * o's move s1 -> s2 is no sanction of co's move to s1 when no opponent's improvement from
   * s1 sanctions co: a move that is no improvement is, under strict preferences, one o dislikes.
   */
  lemma NotSanctionComplete(c: Conflict, d: Conflict, co: nat, o: nat, s0: nat, s1: nat, s2: nat)
    requires ValidConflict(c) && ValidConflict(d) && SameMoves(c, d) && StrictPreferences(d)
    requires co < |c.parties| && o < |c.parties| && o != co
    requires s0 < |c.feasibles| && s1 < |c.feasibles| && s2 < |c.feasibles| && Reach(c, o, s1, s2)
    requires forall x :: 0 <= x < |d.feasibles| && OpponentUI(d, co, s1, x) ==> !Sanctions(d, co, s0, x)
    ensures Holds(d, NotSanction(c, co, o, s0, s1, s2))
  {
    ReachIgnoresPayoffs(c, d, o, s1, s2);
    ReachDef(c, o, s1, s2);
    var ps := [MoreThanFor(o, Name(c, o), s1, s2), MoreThanFor(co, Name(c, co), s2, s0)];
    if Gain(d, o, s1, s2) > 0 {
      assert IsUI(d, o, s1, s1, s2);
      OpponentUIWitness(d, co, |d.parties|, s1, s2);
      assert OpponentUI(d, co, s1, s2);
      assert Holds(d, ps[1]);
    } else {
      StrictDislike(d, o, s1, s2);
      assert Holds(d, ps[0]);
    }
  }

  /** The non-sanction patterns of the parties below q hold when no opponent's improvement from s1 sanctions co. */
  lemma NotSanctionsBelowComplete(c: Conflict, mv: Moves, d: Conflict, co: nat, s0: nat, s1: nat, q: nat)
    requires MovesOf(c, mv)
    requires ValidConflict(c) && ValidConflict(d) && SameMoves(c, d) && StrictPreferences(d)
    requires co < |c.parties| && q <= |c.parties| && s0 < |c.feasibles| && s1 < |c.feasibles|
    requires forall x :: 0 <= x < |d.feasibles| && OpponentUI(d, co, s1, x) ==> !Sanctions(d, co, s0, x)
    ensures AllHold(d, NotSanctionsBelow(c, mv, co, s0, s1, q))
  {
    NotSanctionsAccumulate(c, mv, co, s0, s1, q);
    var ns := NotSanctionsBelow(c, mv, co, s0, s1, q);
    forall i | 0 <= i < |ns|
      ensures Holds(d, ns[i])
    {
      var o, k := AccumulatedAt(NotSanctionsBelowFn(c, mv, co, s0, s1), NotSanctionsByFn(c, mv, co, s0, s1), q, i);
      var xs := mv[o][s1];
      NotSanctionEachAt(c, co, o, s0, s1, xs, |xs|, k);
      assert xs[k] in xs;
      NotSanctionComplete(c, d, co, o, s0, s1, xs[k]);
    }
  }

  /** A party that is not SEQ-stable has a move, and its unstable-SEQ alternative holds. */
  lemma UnstablePartComplete(c: Conflict, mv: Moves, d: Conflict, co: nat, s0: nat)
    requires MovesOf(c, mv)
    requires ValidConflict(c) && ValidConflict(d) && SameMoves(c, d) && StrictPreferences(d)
    requires co < |c.parties| && s0 < |c.feasibles| && !SeqStable(d, co, s0)
    ensures mv[co][s0] != []
    ensures Holds(d, PatternOr(UnstableEach(c, mv, co, s0, mv[co][s0], |mv[co][s0]|)))
  {
    var xs := mv[co][s0];
    var s1 :| 0 <= s1 < |d.feasibles| && IsUI(d, co, s0, s0, s1) && !SeqSanctioned(d, co, s0, s1);
    ReachIgnoresPayoffs(c, d, co, s0, s1);
    assert s1 in xs;
    var k :| 0 <= k < |xs| && xs[k] == s1;
    UnstableEachAt(c, mv, co, s0, xs, |xs|, k);
    UnstableAlternativeComplete(c, mv, d, co, s0, s1);
    OrHolds(d, UnstableEach(c, mv, co, s0, xs, |xs|), k);
  }

  /** An unsanctioned improvement of co meets its unstable-SEQ alternative. */
  lemma UnstableAlternativeComplete(c: Conflict, mv: Moves, d: Conflict, co: nat, s0: nat, s1: nat)
    requires MovesOf(c, mv)
    requires ValidConflict(c) && ValidConflict(d) && SameMoves(c, d) && StrictPreferences(d)
    requires co < |c.parties| && s0 < |c.feasibles| && s1 < |c.feasibles|
    requires IsUI(d, co, s0, s0, s1) && !SeqSanctioned(d, co, s0, s1)
    ensures Holds(d, UnstableAlternative(c, mv, co, s0, s1))
  {
    var m := MoreThanFor(co, Name(c, co), s1, s0);
    var ns := NotSanctionsBelow(c, mv, co, s0, s1, |c.parties|);
    NotSanctionsBelowComplete(c, mv, d, co, s0, s1, |c.parties|);
    assert Holds(d, m);
    HoldsConcat(d, [m], ns);
  }

  /** A party with a move from s0 contributes its alternatives to the instability conditions. */
  lemma {:induction false} SeqUnstableCondsHave(c: Conflict, mv: Moves, s0: nat, q: nat, p: nat) returns (i: nat)
    requires Shaped(c, mv)
    requires q <= |c.parties| && s0 < |c.feasibles| && p < q && mv[p][s0] != []
    ensures i < |SeqUnstableConds(c, mv, s0, q)|
    ensures SeqUnstableConds(c, mv, s0, q)[i] == PatternOr(UnstableEach(c, mv, p, s0, mv[p][s0], |mv[p][s0]|))
  {
    i := SeqUnstableCondsPlace(c, mv, s0, q, p);
    SeqUnstablePartOf(c, mv, s0, p);
  }

  /** Where the instability condition of party p sits among those of the parties below q. */
  lemma SeqUnstableCondsPlace(c: Conflict, mv: Moves, s0: nat, q: nat, p: nat) returns (i: nat)
    requires Shaped(c, mv)
    requires q <= |c.parties| && s0 < |c.feasibles| && p < q && SeqUnstablePart(c, mv, s0, p) != []
    ensures i < |SeqUnstableConds(c, mv, s0, q)| && SeqUnstablePart(c, mv, s0, p) == [SeqUnstableConds(c, mv, s0, q)[i]]
  {
    SeqUnstableAccumulates(c, mv, s0, q);
    i := AccumulatedHas(SeqUnstableCondsFn(c, mv, s0), SeqUnstablePartFn(c, mv, s0), q, p, 0);
  }

  /** Every instability condition is the alternatives of some party with a move from s0. */
  lemma {:induction false} SeqUnstableCondsFrom(c: Conflict, mv: Moves, s0: nat, q: nat, i: nat) returns (p: nat)
    requires Shaped(c, mv)
    requires q <= |c.parties| && s0 < |c.feasibles| && i < |SeqUnstableConds(c, mv, s0, q)|
    ensures p < q && mv[p][s0] != []
    ensures SeqUnstableConds(c, mv, s0, q)[i] == PatternOr(UnstableEach(c, mv, p, s0, mv[p][s0], |mv[p][s0]|))
    decreases q
  {
    p := SeqUnstableCondsOwner(c, mv, s0, q, i);
    SeqUnstablePartOf(c, mv, s0, p);
  }

  /** The party whose alternatives the instability condition at i is. */
  lemma SeqUnstableCondsOwner(c: Conflict, mv: Moves, s0: nat, q: nat, i: nat) returns (p: nat)
    requires Shaped(c, mv)
    requires q <= |c.parties| && s0 < |c.feasibles| && i < |SeqUnstableConds(c, mv, s0, q)|
    ensures p < q && SeqUnstablePart(c, mv, s0, p) == [SeqUnstableConds(c, mv, s0, q)[i]]
  {
    SeqUnstableAccumulates(c, mv, s0, q);
    var k;
    p, k := AccumulatedAt(SeqUnstableCondsFn(c, mv, s0), SeqUnstablePartFn(c, mv, s0), q, i);
  }

  lemma SeqUnstablePartOf(c: Conflict, mv: Moves, s0: nat, p: nat)
    requires Shaped(c, mv)
    requires p < |c.parties| && s0 < |c.feasibles| && SeqUnstablePart(c, mv, s0, p) != []
    ensures mv[p][s0] != [] && SeqUnstablePart(c, mv, s0, p) == [PatternOr(UnstableEach(c, mv, p, s0, mv[p][s0], |mv[p][s0]|))]
  {
  }

  /**
   * What seqGoal's instability goal, as written, asks: every party that can move from s0 is
   * not SEQ-stable there. The "if" half needs strict preferences.
   */
  lemma SeqUnstableAsWrittenMeaning(c: Conflict, mv: Moves, d: Conflict, s0: nat)
    requires MovesOf(c, mv)
    requires ValidConflict(c) && ValidConflict(d) && SameMoves(c, d) && s0 < |c.feasibles|
    ensures Holds(d, SeqGoalAsWritten(c, mv, s0, false)) ==>
      forall p :: 0 <= p < |c.parties| && mv[p][s0] != [] ==> !SeqStable(d, p, s0)
    ensures StrictPreferences(d) ==>
      ((forall p :: 0 <= p < |c.parties| && mv[p][s0] != [] ==> !SeqStable(d, p, s0)) ==> Holds(d, SeqGoalAsWritten(c, mv, s0, false)))
  {
    var conds := SeqUnstableConds(c, mv, s0, |c.parties|);
    if Holds(d, SeqGoalAsWritten(c, mv, s0, false)) {
      assert AllHold(d, conds);
      forall p | 0 <= p < |c.parties| && mv[p][s0] != []
        ensures !SeqStable(d, p, s0)
      {
        var i := SeqUnstableCondsHave(c, mv, s0, |c.parties|, p);
        assert Holds(d, conds[i]);
        UnstablePartSound(c, mv, d, p, s0);
      }
    }
    if StrictPreferences(d) && forall p :: 0 <= p < |c.parties| && mv[p][s0] != [] ==> !SeqStable(d, p, s0) {
      forall i | 0 <= i < |conds|
        ensures Holds(d, conds[i])
      {
        var p := SeqUnstableCondsFrom(c, mv, s0, |c.parties|, i);
        UnstablePartComplete(c, mv, d, p, s0);
      }
    }
  }

  /**
   * Meeting the instability goal as written leaves s0 outside the SEQ equilibria as soon as
   * some party can move from s0.
   */
  lemma SeqUnstableAsWrittenSound(c: Conflict, mv: Moves, d: Conflict, s0: nat)
    requires MovesOf(c, mv)
    requires ValidConflict(c) && ValidConflict(d) && SameMoves(c, d) && s0 < |c.feasibles|
    requires Holds(d, SeqGoalAsWritten(c, mv, s0, false))
    requires exists p :: 0 <= p < |c.parties| && mv[p][s0] != []
    ensures !Equilibrium(Seq, d, s0)
  {
    SeqUnstableAsWrittenMeaning(c, mv, d, s0);
    var p :| 0 <= p < |c.parties| && mv[p][s0] != [];
    assert !Stable(Seq, d, p, s0);
  }

  /** With strict preferences, the OR-joined instability goal holds exactly off the SEQ equilibria. */
  lemma SeqUnstableGoalExact(c: Conflict, mv: Moves, d: Conflict, s0: nat)
    requires MovesOf(c, mv)
    requires ValidConflict(c) && ValidConflict(d) && SameMoves(c, d) && s0 < |c.feasibles|
    requires StrictPreferences(d)
    ensures Holds(d, SeqGoalOf(c, mv, s0, false)) <==> !Equilibrium(Seq, d, s0)
  {
    if Holds(d, SeqGoalOf(c, mv, s0, false)) {
      SeqUnstableGoalSound(c, mv, d, s0);
    }
    if !Equilibrium(Seq, d, s0) {
      var p :| 0 <= p < |d.parties| && !Stable(Seq, d, p, s0);
      UnstablePartComplete(c, mv, d, p, s0);
      var i := SeqUnstableCondsHave(c, mv, s0, |c.parties|, p);
      assert Holds(d, SeqUnstableConds(c, mv, s0, |c.parties|)[i]);
    }
  }

  /**
   * A conflict with a single decision maker and a single feasible state: nobody can move,
   * so the state is an equilibrium, yet the instability goal as written holds (an AND of
   * nothing).
   */
  lemma SeqUnstableAsWrittenCounterexample(c: Conflict, mv: Moves)
    requires ValidConflict(c) && MovesOf(c, mv) && |c.parties| == 1 && |c.feasibles| == 1
    ensures Holds(c, SeqGoalAsWritten(c, mv, 0, false)) && Equilibrium(Seq, c, 0)
  {
    var xs := mv[0][0];
    if xs != [] {
      assert xs[0] < 1;
      assert Reach(c, 0, 0, 0) by {
        assert 0 in xs;
      }
      ReachDef(c, 0, 0, 0);
      assert false;
    }
    SeqCondsSkip(c, mv, 0, 0);
    NoMovesStable(c, mv, c, 0, 0);
    NashImpliesAll(c, 0, 0);
  }

  /** Such conflicts exist: one decision maker who holds no options. */
  lemma OneStateConflict()
    ensures var c := Conflict([], [0], [DM("A", [], [0])]); ValidConflict(c) && |c.feasibles| == 1
  {
    var c := Conflict([], [0], [DM("A", [], [0])]);
    assert ValidParty(c.parties[0], 0, 1);
  }

  // ---------------------------------------------------------------------------------------
  // The goal seeker

  /**
   * A goal: a state index and whether it should be stable. -1 marks either part as not yet
   * chosen; any other non-zero stability value means "stable", as Python's truth test reads it.
   */
  datatype Goal = Goal(state: int, stable: int)

  predicate StatesIn(goals: seq<Goal>, N: nat) {
    forall i :: 0 <= i < |goals| ==> 0 <= goals[i].state < N
  }

  predicate StatesNonNegative(goals: seq<Goal>) {
    forall i :: 0 <= i < |goals| ==> goals[i].state >= 0
  }

  /** Every goal's state can be looked up in the reachability matrices. */
  predicate GoalsIndexable(c: Conflict, goals: seq<Goal>)
    requires StatesNonNegative(goals)
  {
    forall i :: 0 <= i < |goals| ==> Indexable(c, goals[i].state as nat)
  }

  /** The goal is met under concept k: the state is an equilibrium exactly when it should be stable. */
  predicate GoalMet(k: Concept, d: Conflict, g: Goal)
    requires ValidConflict(d) && 0 <= g.state < |d.feasibles|
  {
    if g.stable != 0 then Equilibrium(k, d, g.state) else !Equilibrium(k, d, g.state)
  }

  /** gs lists, goal by goal, what nashGoal or seqGoal (by seqConcept) asks of that goal. */
  predicate GoalConds(c: Conflict, mv: Moves, goals: seq<Goal>, gs: seq<Pattern>, seqConcept: bool)
    requires Shaped(c, mv)
    requires StatesNonNegative(goals) && GoalsIndexable(c, goals)
  {
    && |gs| == |goals|
    && forall i :: 0 <= i < |goals| ==>
         gs[i] == (if seqConcept then SeqGoalAsWritten(c, mv, goals[i].state as nat, goals[i].stable != 0)
                   else NashGoalOf(c, mv, goals[i].state as nat, goals[i].stable != 0))
  }

  /** Preferences meeting the conditions nash() lists meet every goal under Nash. */
  lemma NashGoalsSound(c: Conflict, mv: Moves, d: Conflict, goals: seq<Goal>, gs: seq<Pattern>)
    requires MovesOf(c, mv)
    requires ValidConflict(c) && ValidConflict(d) && SameMoves(c, d) && StatesIn(goals, |c.feasibles|)
    requires GoalConds(c, mv, goals, gs, false) && Holds(d, Requirements("Conditions for goals using Nash:", And, gs))
    ensures forall i :: 0 <= i < |goals| ==> GoalMet(Nash, d, goals[i])
  {
    forall i | 0 <= i < |goals|
      ensures GoalMet(Nash, d, goals[i])
    {
      assert Holds(d, gs[i]);
      var s0 := goals[i].state as nat;
      if goals[i].stable != 0 {
        NashStableGoalSound(c, mv, d, s0);
      } else {
        NashUnstableGoalExact(c, mv, d, s0);
      }
    }
  }

  /** Some party can move away from s0. */
  predicate SomeMove(c: Conflict, mv: Moves, s0: nat)
    requires Shaped(c, mv) && s0 < |c.feasibles|
  {
    exists p :: 0 <= p < |c.parties| && mv[p][s0] != []
  }

  /**
   * Preferences meeting the conditions seq() lists meet every goal under SEQ, provided some
   * party can move from each state that should be unstable (see
   * SeqUnstableAsWrittenCounterexample for the state nobody can leave).
   */
  lemma SeqGoalsSound(c: Conflict, mv: Moves, d: Conflict, goals: seq<Goal>, gs: seq<Pattern>)
    requires MovesOf(c, mv)
    requires ValidConflict(c) && ValidConflict(d) && SameMoves(c, d) && StatesIn(goals, |c.feasibles|)
    requires forall i :: 0 <= i < |goals| && goals[i].stable == 0 ==> SomeMove(c, mv, goals[i].state as nat)
    requires GoalConds(c, mv, goals, gs, true) && Holds(d, Requirements("Conditions for goals using SEQ:", And, gs))
    ensures forall i :: 0 <= i < |goals| ==> GoalMet(Seq, d, goals[i])
  {
    forall i | 0 <= i < |goals|
      ensures GoalMet(Seq, d, goals[i])
    {
      assert Holds(d, gs[i]);
      var s0 := goals[i].state as nat;
      if goals[i].stable != 0 {
        SeqStableGoalSound(c, mv, d, s0);
      } else {
        SeqUnstableAsWrittenSound(c, mv, d, s0);
      }
    }
  }

  /** GoalSeeker: the reachability matrices of a conflict and the goals to meet. */
  class GoalSeeker {
    const rm: RMGenerator
    const goals: seq<Goal>
    /** What rm.reachable(p, s) returns, for every party p and state s. */
    ghost const moves: Moves

    ghost predicate Valid() {
      && rm.Valid()
      && Shaped(rm.conflict, moves)
      && forall p, s :: 0 <= p < |rm.conflict.parties| && 0 <= s < |rm.conflict.feasibles| ==> TableAt(rm.conflict, moves, p, s)
    }

    constructor (c: Conflict, goals: seq<Goal>)
      requires ValidConflict(c)
      ensures Valid() && rm.conflict == c && this.goals == goals && moves == MoveTable(c)
    {
      rm := new RMGenerator(c);
      this.goals := goals;
      moves := MoveTable(c);
    }

    /** validGoals: there is a goal, and none has its state or its stability unset. */
    method ValidGoals() returns (ok: bool)
      ensures ok <==> |goals| > 0 && forall i :: 0 <= i < |goals| ==> goals[i].state != -1 && goals[i].stable != -1
    {
      if |goals| == 0 {
        return false;
      }
      for i := 0 to |goals|
        invariant forall i' :: 0 <= i' < i ==> goals[i'].state != -1 && goals[i'].stable != -1
      {
        if goals[i].state == -1 {
          return false;
        }
        if goals[i].stable == -1 {
          return false;
        }
      }
      return true;
    }

    /** nashGoal's loop for a stability goal: co must prefer s0 to each of its moves xs. */
    method MoreThanPatterns(co: nat, s0: nat, xs: seq<nat>) returns (ps: seq<Pattern>)
      requires Valid() && co < |rm.conflict.parties|
      ensures ps == MoreThanEach(rm.conflict, co, s0, xs, |xs|)
    {
      var c := rm.conflict;
      ps := [];
      for k := 0 to |xs|
        invariant ps == MoreThanEach(c, co, s0, xs, k)
      {
        ps := ps + [MoreThanFor(co, c.parties[co].name, s0, xs[k])];
      }
    }

    /** One party's share of nashGoal(state0, stable). */
    method NashPartOf(co: nat, s0: nat, stable: bool) returns (ps: seq<Pattern>)
      requires Valid() && co < |rm.conflict.parties| && s0 < |rm.conflict.feasibles|
      ensures ps == NashPart(rm.conflict, moves, s0, stable, co)
    {
      var c := rm.conflict;
      var reach := rm.Reachable(co, s0);
      assert TableAt(rm.conflict, moves, co, s0);
      var xs := reach.value;
      if stable {
        ps := MoreThanPatterns(co, s0, xs);
      } else if xs != [] {
        ps := [LessThanOneOf(co, c.parties[co].name, s0, xs)];
      } else {
        ps := [];
      }
    }

    /**
     * nashGoal(state0, stable): IndexError, from the first reachable call, when state0 is
     * beyond the feasible states and there is a party to ask.
     */
    method NashGoal(s0: nat, stable: bool) returns (r: Result<Pattern>)
      requires Valid()
      ensures Indexable(rm.conflict, s0) ==> r == Ok(NashGoalOf(rm.conflict, moves, s0, stable))
      ensures !Indexable(rm.conflict, s0) ==> r.Err? && r.error.IndexError?
    {
      var c := rm.conflict;
      if s0 >= |c.feasibles| && |c.parties| > 0 {
        var reach := rm.Reachable(0, s0);
        return Err(reach.error);
      }
      var conds: seq<Pattern> := [];
      for co := 0 to |c.parties|
        invariant conds == NashConds(c, moves, s0, stable, co)
      {
        var part := NashPartOf(co, s0, stable);
        conds := conds + part;
      }
      var joiner := if stable then And else Or;
      r := Ok(Requirements(Statement(s0, stable, "Nash"), joiner, conds));
    }

    /** seqGoal's loop over co2's moves xs from s1, each of which would sanction co. */
    method SanctionList(co: nat, co2: nat, s0: nat, s1: nat, xs: seq<nat>) returns (ps: seq<Pattern>)
      requires Valid() && co < |rm.conflict.parties| && co2 < |rm.conflict.parties|
      ensures ps == SanctionEach(rm.conflict, co, co2, s0, s1, xs, |xs|)
    {
      var c := rm.conflict;
      ps := [];
      for k := 0 to |xs|
        invariant ps == SanctionEach(c, co, co2, s0, s1, xs, k)
      {
        var isSanctioned := PatternAnd([MoreThanFor(co2, c.parties[co2].name, xs[k], s1), MoreThanFor(co, c.parties[co].name, s0, xs[k])]);
        assert isSanctioned == Sanction(c, co, co2, s0, s1, xs[k]);
        ps := ps + [isSanctioned];
      }
    }

    /** seqGoal's loop over co2's moves xs from s1, none of which may sanction co. */
    method NotSanctionList(co: nat, co2: nat, s0: nat, s1: nat, xs: seq<nat>) returns (ps: seq<Pattern>)
      requires Valid() && co < |rm.conflict.parties| && co2 < |rm.conflict.parties|
      ensures ps == NotSanctionEach(rm.conflict, co, co2, s0, s1, xs, |xs|)
    {
      var c := rm.conflict;
      ps := [];
      for k := 0 to |xs|
        invariant ps == NotSanctionEach(c, co, co2, s0, s1, xs, k)
      {
        var notASanction := PatternOr([MoreThanFor(co2, c.parties[co2].name, s1, xs[k]), MoreThanFor(co, c.parties[co].name, xs[k], s0)]);
        assert notASanction == NotSanction(c, co, co2, s0, s1, xs[k]);
        ps := ps + [notASanction];
      }
    }

    /** What co2's moves from s1 add to SanctionsBelow (nothing when co2 is co itself). */
    method OpponentSanctions(co: nat, co2: nat, s0: nat, s1: nat) returns (more: seq<Pattern>)
      requires Valid() && co < |rm.conflict.parties| && co2 < |rm.conflict.parties|
      requires s0 < |rm.conflict.feasibles| && s1 < |rm.conflict.feasibles|
      ensures more == SanctionsBy(rm.conflict, moves, co, co2, s0, s1)
    {
      more := [];
      if co2 != co {
        var reach := rm.Reachable(co2, s1);
        assert TableAt(rm.conflict, moves, co2, s1);
        more := SanctionList(co, co2, s0, s1, reach.value);
      }
    }

    /** seqGoal's loops over every opponent's moves from s1 that would sanction co. */
    method SanctionPatterns(co: nat, s0: nat, s1: nat) returns (ps: seq<Pattern>)
      requires Valid() && co < |rm.conflict.parties| && s0 < |rm.conflict.feasibles| && s1 < |rm.conflict.feasibles|
      ensures ps == SanctionsBelow(rm.conflict, moves, co, s0, s1, |rm.conflict.parties|)
    {
      ps := [];
      for co2 := 0 to |rm.conflict.parties|
        invariant ps == SanctionsBelow(rm.conflict, moves, co, s0, s1, co2)
      {
        var more := OpponentSanctions(co, co2, s0, s1);
        SanctionsBelowStep(rm.conflict, moves, co, s0, s1, co2);
        ps := ps + more;
      }
    }

    /** What co2's moves from s1 add to NotSanctionsBelow (nothing when co2 is co itself). */
    method OpponentNotSanctions(co: nat, co2: nat, s0: nat, s1: nat) returns (more: seq<Pattern>)
      requires Valid() && co < |rm.conflict.parties| && co2 < |rm.conflict.parties|
      requires s0 < |rm.conflict.feasibles| && s1 < |rm.conflict.feasibles|
      ensures more == NotSanctionsBy(rm.conflict, moves, co, co2, s0, s1)
    {
      more := [];
      if co2 != co {
        var reach := rm.Reachable(co2, s1);
        assert TableAt(rm.conflict, moves, co2, s1);
        more := NotSanctionList(co, co2, s0, s1, reach.value);
      }
    }

    /** seqGoal's loops over every opponent's moves from s1, none of which may sanction co. */
    method NotSanctionPatterns(co: nat, s0: nat, s1: nat) returns (ps: seq<Pattern>)
      requires Valid() && co < |rm.conflict.parties| && s0 < |rm.conflict.feasibles| && s1 < |rm.conflict.feasibles|
      ensures ps == NotSanctionsBelow(rm.conflict, moves, co, s0, s1, |rm.conflict.parties|)
    {
      ps := [];
      for co2 := 0 to |rm.conflict.parties|
        invariant ps == NotSanctionsBelow(rm.conflict, moves, co, s0, s1, co2)
      {
        var more := OpponentNotSanctions(co, co2, s0, s1);
        NotSanctionsBelowStep(rm.conflict, moves, co, s0, s1, co2);
        ps := ps + more;
      }
    }

    /** seqGoal's loop for a stability goal: each move of co from s0 is no improvement or is sanctioned. */
    method StablePatterns(co: nat, s0: nat, xs: seq<nat>) returns (ps: seq<Pattern>)
      requires Valid() && co < |rm.conflict.parties| && s0 < |rm.conflict.feasibles| && StatesBelow(xs, |rm.conflict.feasibles|)
      ensures ps == StableEach(rm.conflict, moves, co, s0, xs, |xs|)
    {
      var c := rm.conflict;
      ps := [];
      for k := 0 to |xs|
        invariant ps == StableEach(c, moves, co, s0, xs, k)
      {
        var sanctions := SanctionPatterns(co, s0, xs[k]);
        var isStable := PatternOr([MoreThanFor(co, c.parties[co].name, s0, xs[k])] + sanctions);
        assert isStable == StableAlternative(c, moves, co, s0, xs[k]);
        ps := ps + [isStable];
      }
    }

    /** seqGoal's loop for an instability goal: the unsanctioned improvements of co from s0. */
    method UnstablePatterns(co: nat, s0: nat, xs: seq<nat>) returns (ps: seq<Pattern>)
      requires Valid() && co < |rm.conflict.parties| && s0 < |rm.conflict.feasibles| && StatesBelow(xs, |rm.conflict.feasibles|)
      ensures ps == UnstableEach(rm.conflict, moves, co, s0, xs, |xs|)
    {
      var c := rm.conflict;
      ps := [];
      for k := 0 to |xs|
        invariant ps == UnstableEach(c, moves, co, s0, xs, k)
      {
        var notSanctions := NotSanctionPatterns(co, s0, xs[k]);
        var isUnsanctionedUI := PatternAnd([MoreThanFor(co, c.parties[co].name, xs[k], s0)] + notSanctions);
        assert isUnsanctionedUI == UnstableAlternative(c, moves, co, s0, xs[k]);
        ps := ps + [isUnsanctionedUI];
      }
    }

    /** One party's share of seqGoal(state0, stable). */
    method SeqPartOf(co: nat, s0: nat, stable: bool) returns (ps: seq<Pattern>)
      requires Valid() && co < |rm.conflict.parties| && s0 < |rm.conflict.feasibles|
      ensures ps == SeqPart(rm.conflict, moves, s0, stable, co)
    {
      var reach := rm.Reachable(co, s0);
      assert TableAt(rm.conflict, moves, co, s0);
      var xs := reach.value;
      if stable {
        ps := StablePatterns(co, s0, xs);
      } else {
        var isUnstable := UnstablePatterns(co, s0, xs);
        if |isUnstable| > 0 {
          ps := [PatternOr(isUnstable)];
        } else {
          ps := [];
        }
      }
    }

    /**
     * seqGoal(state0, stable): every party's conditions joined by AND, for stability and
     * instability alike; IndexError as in nashGoal.
     */
    method SeqGoal(s0: nat, stable: bool) returns (r: Result<Pattern>)
      requires Valid()
      ensures Indexable(rm.conflict, s0) ==> r == Ok(SeqGoalAsWritten(rm.conflict, moves, s0, stable))
      ensures !Indexable(rm.conflict, s0) ==> r.Err? && r.error.IndexError?
    {
      var c := rm.conflict;
      if s0 >= |c.feasibles| && |c.parties| > 0 {
        var reach := rm.Reachable(0, s0);
        return Err(reach.error);
      }
      var conds: seq<Pattern> := [];
      for co := 0 to |c.parties|
        invariant conds == SeqConds(c, moves, s0, stable, co)
      {
        var part := SeqPartOf(co, s0, stable);
        conds := conds + part;
      }
      r := Ok(Requirements(Statement(s0, stable, "SEQ"), And, conds));
    }

    /**
     * nash(): the Nash conditions of every goal, all required; the first goal whose state
     * cannot be looked up raises IndexError.
     */
    method Nash() returns (r: Result<Pattern>)
      requires Valid() && StatesNonNegative(goals)
      ensures GoalsIndexable(rm.conflict, goals) ==>
        && r.Ok? && r.value.Requirements? && r.value.statement == "Conditions for goals using Nash:" && r.value.between == And
        && GoalConds(rm.conflict, moves, goals, r.value.plist, false)
      ensures !GoalsIndexable(rm.conflict, goals) ==> r.Err? && r.error.IndexError?
    {
      var gs: seq<Pattern> := [];
      for i := 0 to |goals|
        invariant |gs| == i
        invariant forall j :: 0 <= j < i ==> Indexable(rm.conflict, goals[j].state as nat)
        invariant forall j :: 0 <= j < i ==> gs[j] == NashGoalOf(rm.conflict, moves, goals[j].state as nat, goals[j].stable != 0)
      {
        var g := NashGoal(goals[i].state as nat, goals[i].stable != 0);
        if g.Err? {
          return Err(g.error);
        }
        gs := gs + [g.value];
      }
      return Ok(Requirements("Conditions for goals using Nash:", And, gs));
    }

    /** seq(): the SEQ conditions of every goal, all required; IndexError as in nash(). */
    method Seq() returns (r: Result<Pattern>)
      requires Valid() && StatesNonNegative(goals)
      ensures GoalsIndexable(rm.conflict, goals) ==>
        && r.Ok? && r.value.Requirements? && r.value.statement == "Conditions for goals using SEQ:" && r.value.between == And
        && GoalConds(rm.conflict, moves, goals, r.value.plist, true)
      ensures !GoalsIndexable(rm.conflict, goals) ==> r.Err? && r.error.IndexError?
    {
      var gs: seq<Pattern> := [];
      for i := 0 to |goals|
        invariant |gs| == i
        invariant forall j :: 0 <= j < i ==> Indexable(rm.conflict, goals[j].state as nat)
        invariant forall j :: 0 <= j < i ==> gs[j] == SeqGoalAsWritten(rm.conflict, moves, goals[j].state as nat, goals[j].stable != 0)
      {
        var g := SeqGoal(goals[i].state as nat, goals[i].stable != 0);
        if g.Err? {
          return Err(g.error);
        }
        gs := gs + [g.value];
      }
      return Ok(Requirements("Conditions for goals using SEQ:", And, gs));
    }
  }
}
