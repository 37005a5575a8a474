# GMCR conflict analysis core in Dafny

This project models the analysis core of GMCR+, a tool for the Graph Model for Conflict
Resolution, and proves properties of that model. In the Graph Model a conflict has:

- decision makers, each controlling some options;
- feasible states, each a choice of which options are taken, numbered by the sum of
  2^i over the taken options i;
- a preference over the states for each decision maker.

The modelled core builds each decision maker's (or coalition's) reachability matrix. It
decides the stability of a state under the Nash, GMR, SEQ, SIM and SMR solution concepts.
It searches rankings for the combinations that make a desired state an equilibrium (the
inverse solver). It also writes out the conditions that preferences must meet for goal
states to be stable or unstable (the goal seeker).

The two halves of the model:

- Conflict-model objects are classes with mutable fields, as in the source: options,
  option lists, conditions, condition lists, decision makers and coalitions.
- The analysis runs on an immutable `Conflict` value. It holds the option directions,
  the feasible states (their decimal values) and the parties (the options each controls,
  and the payoff of each state).

The solvers are classes whose methods are proved against specification functions, and
those functions state what each loop computes. In three places a loop computes something
other than the solution concept it is named for. There the model computes what the loop
computes, and an intended definition sits beside it, with lemmas relating the two (see
"## Findings"):

- `LogicalSolver`'s SEQ+SIM row keeps a state unless some party is unstable under both
  SEQ and SIM.
- `InverseSolver`'s GMR and SEQ flags are decided by the last improvement listed; its SMR
  flag also looks only at the first sanction of that improvement.
- `GoalSeeker`'s SEQ instability goal joins the parties' conditions with AND.

Modules, in dependency order:

- `Wrappers`: `Option`, `Result`, `Outcome` and the Python exceptions the core raises.
- `YesNo`: option weights 2^i and the Yes/No string of a state (`dec2yn`).
- `Seqs`: Python list operations (`remove`, `index`, append-unless-present, pop/insert
  and `join`).
- `Options`: `Option` and `OptionList`.
- `Conditions`: `Condition`, `CompoundCondition` and `ConditionList`.
- `Parties`: `DecisionMaker`, `DecisionMakerList`, `Coalition` and `CoalitionList`.
- `Reachability`: the conflict value and `RMGenerator`.
- `Stability`: `LogicalSolver`.
- `Permutations`: `_decPerm` and `prefPermGen`.
- `Rankings`: the payoff table the inverse solver derives from a ranking.
- `InverseFlags`: the inverse solver's per-decision-maker checks.
- `Inverse`: `InverseSolver`.
- `Goals`: the `Requirements` tree and `GoalSeeker`.

The two solvers do not use the same sanction test:

- `LogicalSolver` counts a state as a sanction when it is no better for the decision
  maker than the initial state (gain <= 0).
- `InverseSolver` counts a state as a sanction only when it is strictly worse
  (`pay0 > pay2`).

The model keeps each solver's own sanction test.

## Model

| member | source | states |
|---|---|---|
| YesNo.Pow2Injective | data_01_conflictModel.py:252-255 | distinct master indices get distinct option weights 2^i, and equal weights mean equal indices |
| YesNo.Pow2Monotonic | data_01_conflictModel.py:252-255 | a later master index has a strictly larger weight |
| YesNo.DecToYN | data_01_conflictModel.py:130 | dec2yn(d, n) has exactly one character per option |
| YesNo.DecToYNAt | data_01_conflictModel.py:130 | character k of dec2yn(d, n) is 'Y' exactly when bit k of d is set, otherwise 'N' |
| YesNo.DecToYNIsYN | data_01_conflictModel.py:130 | dec2yn only ever writes 'Y' and 'N' |
| YesNo.DecodeEncode | data_01_conflictModel.py:404 | decoding the Yes/No string of any value below 2^n gives the value back |
| YesNo.EncodeDecode | data_01_conflictModel.py:404 | any Yes/No string decodes to a value below 2^length, and encoding that value gives the string back |
| YesNo.AddClearBit | data_02_conflictSolvers.py:57-59 | adding the weight of a clear option sets that option's bit and leaves every other bit unchanged |
| Seqs.Without | data_01_conflictModel.py:229-232 | list.remove shortens a list holding x by one and leaves a list without x unchanged |
| Seqs.WithoutMultiset | data_01_conflictModel.py:229-232 | list.remove takes exactly one copy of x out of the list's contents |
| Seqs.WithoutAt | data_01_conflictModel.py:223-227 | in a list without repeats, removing an element is the same as deleting its position |
| Seqs.WithoutNoDup | data_01_conflictModel.py:229-232 | removing keeps a list free of repeats and leaves the removed element absent |
| Seqs.IndexOf | data_01_conflictModel.py:249-250 | list.index returns the position of the first occurrence |
| Seqs.Extend | data_01_conflictModel.py:306-312 | appending a list through a repeat-ignoring append keeps the old list as a prefix and adds at most the new elements |
| Seqs.ExtendMember | data_01_conflictModel.py:306-312 | after such appends an element is listed exactly when it was in the old list or among the appended ones |
| Seqs.ExtendNoDup | data_01_conflictModel.py:306-312 | a list without repeats stays without repeats under such appends |
| Seqs.PopInsertPermutes | data_01_conflictModel.py:362-365 | pop(idx) then insert(targ) rearranges the list and puts the moved element at its target position |
| Seqs.PopInsertBack | data_01_conflictModel.py:362-365 | moving the element back from its target position restores the original list |
| Seqs.Join | data_01_conflictModel.py:426 | sep.join(xs) starts with the first string |
| Seqs.JoinLength | data_01_conflictModel.py:426 | the joined text is as long as the parts plus one separator between each two neighbours |
| Seqs.JoinAppend | data_01_conflictModel.py:426 | joining two lists of parts is joining each and putting one separator between |
| Options.Option.constructor | data_01_conflictModel.py:10-13 | a new option has the given name and no references |
| Options.OptionList.constructor | data_01_conflictModel.py:296-297 | a new option list is empty and reports to the given master list |
| Options.OptionList.SetIndexes | data_01_conflictModel.py:252-255 | each option gets its position as master index and 2^position as weight, so the index leads back to the option; reference counts are untouched |
| Options.OptionList.Append | data_01_conflictModel.py:306-320 | a new option is appended, counted as referenced and registered with the master list if that lacks it; a listed option changes nothing; a name becomes a fresh option with one reference; anything else is ignored |
| Options.OptionList.Remove | data_01_conflictModel.py:229-232 | removes the option here and then from the master list; ValueError when it is missing here, or when it is missing from the master list after the first removal |
| Options.OptionList.DeleteAt | data_01_conflictModel.py:223-227 | deletes the option at a position and removes it from the master list; IndexError past the end, with nothing changed |
| Options.Gather | data_01_conflictModel.py:427-431 | appending options one by one into a fresh list over the master list lists each once, in order of first appearance, and the master list grows by the ones it lacked |
| Conditions.YnDAfter | data_01_conflictModel.py:119-125 | ynd() partway through has one character per master option |
| Conditions.YnD | data_01_conflictModel.py:119-125 | ynd() has one character per master option |
| Conditions.YnDAfterAt | data_01_conflictModel.py:121-124 | position k of ynd() holds the value paired with master option k, or '-' when the condition does not mention it |
| Conditions.TestFrom | data_01_conflictModel.py:131-134 | the test loop from pair j on passes exactly when every remaining paired option has its value in the state's Yes/No string |
| Conditions.Test | data_01_conflictModel.py:127-134 | test(state) holds exactly when every paired option is at its value in dec2yn(state) |
| Conditions.TestMatchesPattern | data_01_conflictModel.py:119-134 | a state satisfies a condition exactly when it matches the condition's Yes/No/Dash pattern position by position |
| Conditions.AnyTest | data_01_conflictModel.py:189-195 | a compound condition holds exactly when one of its members holds, so an empty one never holds |
| Conditions.InsertStringSorted | data_01_conflictModel.py:172 | inserting a string into a sorted list keeps it sorted |
| Conditions.InsertStringMultiset | data_01_conflictModel.py:172 | inserting adds exactly one copy of the string |
| Conditions.SortStringsSorted | data_01_conflictModel.py:172 | sorted() returns the strings in order |
| Conditions.SortStringsPermutes | data_01_conflictModel.py:172 | sorted() returns the same strings, each as often |
| Conditions.SortedUnique | data_01_conflictModel.py:172 | two sorted lists of the same strings are equal |
| Conditions.CompoundNameOrderFree | data_01_conflictModel.py:171-172 | a compound condition's name does not depend on the order of its members, only on their notations |
| Conditions.YnDs | data_01_conflictModel.py:184-186 | the compound notation has one entry per member |
| Conditions.YnDsAt | data_01_conflictModel.py:184-186 | entry i of the compound notation is member i's ynd() |
| Conditions.Condition.Matches | data_01_conflictModel.py:189-195 | test(state) of a simple or compound condition holds exactly when some member's test holds |
| Conditions.Condition.FromPairs | data_01_conflictModel.py:99-107 | Condition(conflict, pairs) holds one simple member built from the pairs; the master list grows by the options it lacked; the name is the notation |
| Conditions.Condition.FromMembers | data_01_conflictModel.py:150-154 | CompoundCondition(conflict, data) holds one member per entry of data, each built as a simple condition; every option joins the master list; the name is built from the sorted member notations |
| Conditions.Condition.IsValid | data_01_conflictModel.py:136-142 | isValid() is true exactly when every option is still in the master list; then the name is refreshed, otherwise it is kept |
| Conditions.Collect | data_01_conflictModel.py:101-105 | the option loop of Condition() lists each option once in order and grows the master list by the ones it lacked |
| Conditions.BuiltListed | data_01_conflictModel.py:99-106 | a condition built from pairs mentions only options of the master list it extended |
| Conditions.Builts | data_01_conflictModel.py:152 | a compound condition has one member per data entry |
| Conditions.BuiltsAt | data_01_conflictModel.py:152 | member i is the simple condition built from entry i |
| Conditions.BuildMembers | data_01_conflictModel.py:152 | the member loop builds every member, all of them listed in the master list, which grows by every option mentioned |
| Conditions.AddMember | data_01_conflictModel.py:152 | one round of the member loop appends the new member and keeps every member listed in the grown master list |
| Conditions.BuiltsListed | data_01_conflictModel.py:152 | every member of a compound condition mentions only options of the master list it extended |
| Conditions.NamesOf | data_01_conflictModel.py:357 | the names of the conditions, position by position |
| Conditions.KeepListedMember | data_01_conflictModel.py:371-377 | a condition survives validate() exactly when it was in the list and all its options are still in the master list |
| Conditions.KeepListedAppend | data_01_conflictModel.py:371-377 | validation filters piecewise, so the survivors keep their relative order |
| Conditions.UnlistedPositions | data_01_conflictModel.py:372-375 | every collected position names a condition that failed isValid() |
| Conditions.UnlistedPositionsIncreasing | data_01_conflictModel.py:372-375 | the failing positions are collected in strictly increasing order |
| Conditions.UnlistedPositionsComplete | data_01_conflictModel.py:372-375 | every failing position is collected |
| Conditions.KeptAll | data_01_conflictModel.py:376-377 | before any deletion the list is whole |
| Conditions.KeptNone | data_01_conflictModel.py:376-377 | after deleting every collected position, last first, exactly the valid conditions remain |
| Conditions.DeleteStep | data_01_conflictModel.py:376-377 | deleting the next collected position from the back removes exactly that failing condition |
| Conditions.NamesIn | data_01_conflictModel.py:373-375 | the refreshed names have one entry per condition |
| Conditions.ConditionList.constructor | data_01_conflictModel.py:329-331 | a new condition list is empty |
| Conditions.ConditionList.Add | data_01_conflictModel.py:357-360 | a condition is added at the end unless one of the same name is listed, and the list keeps distinct names |
| Conditions.ConditionList.Append | data_01_conflictModel.py:347-360 | a condition object is added as it is; pairs and member data are first built into a fresh condition; anything else raises TypeError("Not a valid Condition Object") and changes nothing; a name already listed leaves the list unchanged |
| Conditions.ConditionList.AppendPairs | data_01_conflictModel.py:350-351 | appending pairs builds a fresh simple condition over the grown master list and adds it unless its name is listed |
| Conditions.ConditionList.AppendMembers | data_01_conflictModel.py:352-353 | appending member data builds a fresh compound condition and adds it unless its name is listed |
| Conditions.ConditionList.MoveCondition | data_01_conflictModel.py:362-365 | moveCondition pops at idx and inserts at targ; IndexError when idx is past the end, with the list unchanged |
| Conditions.ConditionList.Validate | data_01_conflictModel.py:371-377 | validate() leaves exactly the conditions whose options are all still listed, in order; survivors are renamed and removed ones keep their names |
| Conditions.ConditionList.CheckAll | data_01_conflictModel.py:372-375 | the first loop returns exactly the failing positions, in increasing order, and renames every passing condition |
| Conditions.ConditionList.DeletePositions | data_01_conflictModel.py:376-377 | deleting the collected positions from the back leaves exactly the valid conditions |
| Parties.DecisionMaker.constructor | data_01_conflictModel.py:29-35 | a new decision maker has its name, an empty option list over the master list and no preferences |
| Parties.DecisionMaker.WeightPreferences | data_01_conflictModel.py:74-76 | the preference statement at position i of n gets weight 2^(n-i-1) |
| Parties.WeightsFromSum | data_01_conflictModel.py:74-76 | the weights from position i on add up to 2^(n-i) - 1 |
| Parties.WeightDominates | data_01_conflictModel.py:74-76 | a preference statement outweighs all later statements together, so the statements are lexicographic |
| Parties.WeightsDecrease | data_01_conflictModel.py:74-76 | earlier statements weigh strictly more than later ones |
| Parties.DecisionMakerList.constructor | data_01_conflictModel.py:262-264 | a new decision maker list is empty |
| Parties.DecisionMakerList.Append | data_01_conflictModel.py:272-276 | an unlisted decision maker is added at the end; a name becomes a fresh decision maker of the conflict; a listed one or anything else changes nothing; the list stays free of repeats |
| Parties.DecisionMakerNames | data_01_conflictModel.py:426 | the members' names, position by position |
| Parties.MemberOptionsMember | data_01_conflictModel.py:429-431 | an option is gathered exactly when some member controls it |
| Parties.Coalition.constructor | data_01_conflictModel.py:419-423 | a new coalition keeps its members; its name is their names joined by ", "; its options are the members' options, each once, registered with the master list |
| Parties.Coalition.Refresh | data_01_conflictModel.py:425-434 | refresh() renames the coalition and rebuilds its option list from the members' options, each listed once in order |
| Parties.RefreshedOptions | data_01_conflictModel.py:427-431 | the coalition's options are exactly the options some member controls, with no repeats |
| Parties.RemoveEachAppend | data_01_conflictModel.py:525-535 | removing the members of two lists in turn is removing from what the first left, and a failure stays a failure |
| Parties.AllMembersSplit | data_01_conflictModel.py:527-532 | the members of the first k entries come before the rest |
| Parties.RemoveEachSome | data_01_conflictModel.py:529-532 | when every removal succeeds, the entries take each decision maker at most as often as it is listed, and what is left is the difference |
| Parties.RemoveEachNone | data_01_conflictModel.py:529-532 | when some removal fails, the entries take some decision maker more often than it is listed |
| Parties.CoalitionList.constructor | data_01_conflictModel.py:484-486 | a new coalition list is empty |
| Parties.CoalitionList.Append | data_01_conflictModel.py:509-515 | an unlisted coalition or any decision maker is added at the end; anything else raises TypeError(name + " is not a Coalition"), and so does a coalition already listed, with nothing changed |
| Parties.CoalitionList.Validate | data_01_conflictModel.py:525-535 | validate() raises ValueError when some member is missing from the working copy, and otherwise returns whether no decision maker is left |
| Parties.RemoveMembers | data_01_conflictModel.py:529-530 | the removal loop leaves the working copy less the members, or fails where list.remove would raise |
| Parties.RemoveEachPrefix | data_01_conflictModel.py:527-532 | once one entry's removals fail, the whole validation fails |
| Parties.ValidateCovers | data_01_conflictModel.py:525-535 | validate() returns True exactly when the entries take every decision maker exactly once; it raises exactly when they take one more often than it is listed |
| Reachability.Weights | data_02_conflictSolvers.py:53-54 | the dec_val of each option a party controls is 2^index |
| Reachability.ExpandMembers | data_02_conflictSolvers.py:58-59 | one expansion step holds exactly the old sums and the old sums plus the new weight |
| Reachability.ExpandSubsetSums | data_02_conflictSolvers.py:57-64 | the iterative expansion yields every subset sum of the party's option weights |
| Reachability.Candidates | data_02_conflictSolvers.py:68-70 | a state is a candidate for a base exactly when it is feasible and is the base plus a subset sum of the party's weights |
| Reachability.YNOf | data_02_conflictSolvers.py:82 | the Yes/No string of a feasible state has one character per option |
| Reachability.ReachDef | data_02_conflictSolvers.py:57-91 | party p moves from i to j exactly when the states differ, share a base over p's options, and no irreversible option blocks the move |
| Reachability.MarkMutual | data_02_conflictSolvers.py:72-77 | marks every ordered pair of distinct states in a group as reachable and keeps every earlier mark |
| Reachability.RemoveIrreversible | data_02_conflictSolvers.py:80-91 | clears exactly the entries whose move reverses an irreversible option |
| Reachability.BuildReachability | data_02_conflictSolvers.py:41-91 | the built matrix is a fresh n x n array whose entry (i, j) is exactly the reachability of j from i |
| Reachability.GainAntisymmetric | data_02_conflictSolvers.py:43-49 | no move is an improvement both ways, and staying put is never an improvement |
| Reachability.SubsetSumBits | data_02_conflictSolvers.py:57-64 | a subset sum of distinct option weights sets only bits of those options |
| Reachability.AddSubsetSumAt | data_02_conflictSolvers.py:67-69 | a base plus a subset sum takes the party's option bits from the sum and every other bit from the base |
| Reachability.OthersFromMembers | data_02_conflictSolvers.py:53 | an option is fixed for p exactly when some other party controls it |
| Reachability.OthersFromNoDup | data_02_conflictSolvers.py:53 | the other parties' options have no repeats when no option has two controllers |
| Reachability.FocalNotOther | data_02_conflictSolvers.py:53-54 | a party's own option is never among the other parties' options |
| Reachability.GroupedWitness | data_02_conflictSolvers.py:67-77 | two states are grouped exactly when some base lies under both |
| Reachability.ReachChangesOnlyFocalOptions | data_02_conflictSolvers.py:57-77 | a move of p changes only options p controls |
| Reachability.GroupedSymmetric | data_02_conflictSolvers.py:72-77 | grouping is symmetric |
| Reachability.ReachSymmetric | data_02_conflictSolvers.py:72-91 | a move can be undone unless an irreversible option blocks the way back |
| Reachability.ReachComposes | data_02_conflictSolvers.py:67-77 | two moves of p compose into one move of p unless the direct move is blocked by an irreversible option |
| Reachability.NoReturnToStart | data_02_conflictSolvers.py:57-77 | when no option has two controllers, no other party can move back to the state a party moved from |
| Reachability.IrreversibleRespected | data_02_conflictSolvers.py:80-91 | no move withdraws a taken 'fwd' option or takes a 'back' option |
| Reachability.ReachIgnoresPayoffs | data_02_conflictSolvers.py:41-91 | reachability depends on options and directions only, never on payoffs |
| Reachability.ReachBelow | data_02_conflictSolvers.py:102 | the states below n that p reaches from s, exactly |
| Reachability.ReachList | data_02_conflictSolvers.py:94-103 | reachable() lists exactly the states p reaches from s, never s itself |
| Reachability.ReachBelowIncreasing | data_02_conflictSolvers.py:102 | the list is strictly increasing |
| Reachability.ReachListIncreasing | data_02_conflictSolvers.py:102 | reachable() is strictly increasing, as numpy.nonzero returns it |
| Reachability.UIsBelow | data_02_conflictSolvers.py:119 | the states below n that p reaches from s and strictly prefers to ref, exactly |
| Reachability.UIList | data_02_conflictSolvers.py:105-120 | UIs() lists exactly the states p reaches from s and strictly prefers to ref |
| Reachability.OpponentUIWitness | data_02_conflictSolvers.py:191 | a state is an opponents' improvement exactly when some single other party improves to it |
| Reachability.OpponentMoveWitness | data_02_conflictSolvers.py:263 | a state is an opponents' move exactly when some single other party reaches it |
| Reachability.MovesOfOthers | data_02_conflictSolvers.py:263 | the concatenated reachable() lists of the other parties hold exactly their moves |
| Reachability.UIsOfOthers | data_02_conflictSolvers.py:191 | the concatenated UIs() lists of the other parties hold exactly their improvements |
| Reachability.RMGenerator.constructor | data_02_conflictSolvers.py:29-91 | the generator holds a matrix for every party, entry for entry equal to reachability |
| Reachability.RMGenerator.Reachable | data_02_conflictSolvers.py:94-103 | reachable(dm, s) returns the party's reachable list; ValueError for an unknown party; IndexError for a state out of range |
| Reachability.RMGenerator.UIs | data_02_conflictSolvers.py:105-120 | UIs(dm, s, ref) returns the improvements over ref (ref defaults to s); ValueError for an unknown party; IndexError for a state out of range |
| Reachability.RMGenerator.OpponentMoves | data_02_conflictSolvers.py:263 | the comprehension over the other parties yields exactly their concatenated moves |
| Reachability.RMGenerator.OpponentUIs | data_02_conflictSolvers.py:191 | the comprehension over the other parties yields exactly their concatenated improvements |
| Stability.EquilibriumRow | data_02_conflictSolvers.py:336-337 | the equilibrium row has one entry per state |
| Stability.TableRow | data_02_conflictSolvers.py:331-337 | the inverted sum of the inverted flags marks a state exactly when every party is stable there under the concept |
| Stability.TableRows | data_02_conflictSolvers.py:331-337 | on a stability table, the equilibrium row marks exactly the concept's equilibria |
| Stability.SeqSimAsWritten | data_02_conflictSolvers.py:359-361 | as written, the SEQ+SIM row keeps a state unless some party is unstable under both concepts |
| Stability.SeqSimCorrected | data_02_conflictSolvers.py:359-361 | the intended SEQ+SIM row keeps a state exactly when every party is both SEQ- and SIM-stable |
| Stability.SeqSimAsWrittenIsWeaker | data_02_conflictSolvers.py:359-361 | every state the intended row keeps is kept as written |
| Stability.SeqSimAsWrittenCounterexample | data_02_conflictSolvers.py:359-361 | one party, SEQ-stable but not SIM-stable: the row as written keeps the state and the intended row drops it |
| Stability.SeqSimRowMeaning | data_02_conflictSolvers.py:359-361 | on the SEQ and SIM tables, the row as written keeps a state exactly when every party is SEQ- or SIM-stable there, and it keeps every SEQ+SIM equilibrium |
| Stability.NashImpliesAll | data_02_conflictSolvers.py:169-177 | a Nash-stable party is SEQ-, SIM-, GMR- and SMR-stable |
| Stability.SeqImpliesGmr | data_02_conflictSolvers.py:180-283 | SEQ stability implies GMR stability |
| Stability.SmrImpliesGmr | data_02_conflictSolvers.py:286-326 | SMR stability implies GMR stability |
| Stability.EquilibriumInclusions | data_02_conflictSolvers.py:328-388 | Nash equilibria are equilibria under every concept, including SEQ+SIM; SEQ and SMR equilibria are GMR equilibria |
| Stability.LogicalSolver.constructor | data_02_conflictSolvers.py:156-157 | a new solver has the conflict's reachability and no equilibria yet |
| Stability.LogicalSolver.OpponentUIs | data_02_conflictSolvers.py:191 | exactly the other parties' improvements from s, all in range |
| Stability.LogicalSolver.OpponentMoves | data_02_conflictSolvers.py:263 | exactly the other parties' moves from s, all in range |
| Stability.LogicalSolver.FocalUIs | data_02_conflictSolvers.py:171 | exactly p's improvements from s0; ValueError for an unknown party; IndexError for a state out of range |
| Stability.LogicalSolver.Nash | data_02_conflictSolvers.py:169-177 | nash() is true exactly when p has no improvement from s0, with the same error cases |
| Stability.LogicalSolver.AnySanction | data_02_conflictSolvers.py:197-202 | finds a state that leaves p no better off than s0 exactly when the list has one |
| Stability.LogicalSolver.AnySimSanction | data_02_conflictSolvers.py:231-240 | finds an opponent improvement that, combined with p's move, lands on a feasible state no better for p, exactly when one exists |
| Stability.LogicalSolver.AnySmrSanction | data_02_conflictSolvers.py:304-317 | finds a sanction from which p has no countermove back above s0, exactly when one exists |
| Stability.LogicalSolver.Seq | data_02_conflictSolvers.py:180-211 | seq() is true exactly when every improvement of p is sanctioned by an opponent's improvement, with the same error cases |
| Stability.LogicalSolver.Sim | data_02_conflictSolvers.py:214-249 | sim() is true exactly when every improvement of p is sanctioned by a simultaneous opponent improvement |
| Stability.LogicalSolver.EverySimSanctioned | data_02_conflictSolvers.py:230-245 | the outer sim loop passes exactly when every listed improvement is sanctioned |
| Stability.LogicalSolver.Gmr | data_02_conflictSolvers.py:252-283 | gmr() is true exactly when every improvement of p is sanctioned by some opponent's move |
| Stability.LogicalSolver.Smr | data_02_conflictSolvers.py:286-326 | smr() is true exactly when every improvement of p has a sanction from which p cannot escape above s0 |
| Stability.LogicalSolver.Evaluate | data_02_conflictSolvers.py:334 | the stability method of a concept returns that concept's stability |
| Stability.LogicalSolver.StabilityTable | data_02_conflictSolvers.py:331-334 | the table holds each party's stability at each state under the concept |
| Stability.LogicalSolver.FindEquilibria | data_02_conflictSolvers.py:328-388 | with at least one party, the Nash, GMR, SEQ, SIM and SMR rows mark exactly each concept's equilibria, and the SEQ+SIM row marks, as written, the states where every party is SEQ- or SIM-stable; with no party the call fails with AttributeError and the rows are unchanged |
| Permutations.PermsCount | data_02_conflictSolvers.py:429 | there are n! permutations of n elements |
| Permutations.PermsArePermutations | data_02_conflictSolvers.py:429 | every list yielded is a rearrangement |
| Permutations.PermsComplete | data_02_conflictSolvers.py:429 | every rearrangement is yielded |
| Permutations.PermsFirst | data_02_conflictSolvers.py:429 | the first permutation is the input order |
| Permutations.ProductCount | data_02_conflictSolvers.py:436 | the product has one tuple per choice of one element from each list |
| Permutations.ProductMembers | data_02_conflictSolvers.py:436 | each tuple takes its i-th element from the i-th list |
| Permutations.ProductComplete | data_02_conflictSolvers.py:436 | every choice of one element per list is a tuple of the product |
| Permutations.Slice | data_02_conflictSolvers.py:429-430 | Python's s[lo:hi] is the ordinary slice when the bounds are in range |
| Permutations.DecPermAt | data_02_conflictSolvers.py:429-430 | the k-th vector _decPerm yields is full with its window replaced by the k-th permutation of the window |
| Permutations.DecPermWindowAt | data_02_conflictSolvers.py:429-430 | each vector yielded keeps full outside the window and rearranges it inside |
| Permutations.DecPermWindow | data_02_conflictSolvers.py:423-430 | _decPerm yields (hi - lo)! vectors, the first being full, each a rearrangement of the window |
| Permutations.DecPermElements | data_02_conflictSolvers.py:423-430 | whatever the span, every vector holds only entries of full |
| Permutations.DecPermComplete | data_02_conflictSolvers.py:429-430 | every rearrangement of the window is yielded |
| Permutations.PrefPermGen | data_02_conflictSolvers.py:432-438 | prefPermGen fails with TypeError when vary is None and there is a decision maker, and with IndexError when vary has too few spans; with no decision makers it yields one empty combination |
| Permutations.PrefPermGenMembers | data_02_conflictSolvers.py:432-438 | the combinations are exactly the choices of one _decPerm vector per decision maker, as many as the product of the counts |
| Rankings.Slot | data_02_conflictSolvers.py:647-649 | payoffs[z - 1] writes a slot within the list, or none (IndexError) |
| Rankings.PayoffTable | data_02_conflictSolvers.py:641-649 | one payoff row of n entries per decision maker |
| Rankings.RankingPayoffs | data_02_conflictSolvers.py:643-649 | the loop fails with IndexError exactly when the ranking names a state without a slot; otherwise it returns each slot's payoff |
| Rankings.ComboPayoffs | data_02_conflictSolvers.py:640-649 | fails with IndexError exactly when some ranking names a state without a slot; otherwise returns the payoff table |
| Rankings.PayoffOfEntry | data_02_conflictSolvers.py:644-649 | a state gets n - i from the last entry i that names it |
| Rankings.PayoffOfUnranked | data_02_conflictSolvers.py:641 | a state no entry names keeps payoff 0 |
| Rankings.EarlierEntryPreferred | data_02_conflictSolvers.py:644-649 | a state in an earlier entry has a strictly higher payoff than one in a later entry, and states in the same entry tie |
| Rankings.RankedAboveUnranked | data_02_conflictSolvers.py:641-649 | a ranked state outranks an unranked one when the ranking is no longer than the state count |
| InverseFlags.NashFlag | data_02_conflictSolvers.py:651-657 | the Nash flag is true exactly when no reachable state pays more than the desired state |
| InverseFlags.SanctionFlag | data_02_conflictSolvers.py:671-674 | the sanction search is true exactly when some listed state pays strictly less |
| InverseFlags.EveryUISanctionedFlag | data_02_conflictSolvers.py:660-674 | the intended GMR/SEQ check is true exactly when every improvement has a sanction |
| InverseFlags.EscapeFreeFlag | data_02_conflictSolvers.py:713-720 | true exactly when some sanction has no countermove above the desired state |
| InverseFlags.SmrFlag | data_02_conflictSolvers.py:702-721 | the intended SMR check is true exactly when every improvement has a sanction without countermove |
| InverseFlags.NashRow | data_02_conflictSolvers.py:651-657 | the Nash flag of every decision maker |
| InverseFlags.SanctionedRow | data_02_conflictSolvers.py:660-674 | the GMR (or SEQ) loop as written: each decision maker's flag says whether the last improvement listed has a sanction |
| InverseFlags.SmrRow | data_02_conflictSolvers.py:702-721 | the SMR loop as written: each decision maker's flag says whether the first sanction of the last improvement listed leaves no countermove |
| InverseFlags.LastUISanctionedFlag | data_02_conflictSolvers.py:660-674 | one decision maker's GMR or SEQ loop as written ends with the verdict of the last improvement listed |
| InverseFlags.FirstSanctionFlag | data_02_conflictSolvers.py:713-721 | the sanction loop stops at the first listed state paying less; true exactly when that first sanction leaves no countermove above the desired state |
| InverseFlags.LastUISmrFlag | data_02_conflictSolvers.py:702-721 | one decision maker's SMR loop as written ends with the verdict of the first sanction of the last improvement |
| InverseFlags.NashPassesAll | data_02_conflictSolvers.py:660-663 | without improvements the GMR and SMR checks pass |
| InverseFlags.SmrPassesGmr | data_02_conflictSolvers.py:702-721 | passing the SMR check implies passing the GMR check |
| InverseFlags.SubListSanctions | data_02_conflictSolvers.py:683 | sanctions found in sublists (the SEQ lists) are sanctions of the full lists (the GMR lists) |
| InverseFlags.LastSmrPassesGmr | data_02_conflictSolvers.py:660-721 | as written too, passing the SMR loop implies passing the GMR loop |
| InverseFlags.SubListLastUI | data_02_conflictSolvers.py:683 | as written too, sanctions in sublists carry over, so passing on the SEQ lists implies passing on the GMR lists |
| InverseFlags.IntendedPassesLastUI | data_02_conflictSolvers.py:660-674 | whenever every improvement has a sanction, the loop as written passes too |
| InverseFlags.LastUIDecides | data_02_conflictSolvers.py:666-674 | as written, the flag is decided by the last improvement alone |
| InverseFlags.LastUIFlagMeaning | data_02_conflictSolvers.py:660-674 | the flag the GMR or SEQ loop ends with, starting from the Nash flag, is exactly the last-improvement verdict |
| InverseFlags.SmrLastUIDecides | data_02_conflictSolvers.py:708-721 | as written, the SMR flag is decided by the last improvement alone |
| InverseFlags.FirstSanctionVerdictMeaning | data_02_conflictSolvers.py:713-721 | scanning from a point before any sanction, the verdict is true exactly when the first sanction has no countermove above the desired state |
| InverseFlags.SmrLastUIFlagMeaning | data_02_conflictSolvers.py:702-721 | the flag the SMR loop ends with, starting from the Nash flag, is exactly the verdict of the last improvement's first sanction |
| InverseFlags.LastUIFlagCounterexample | data_02_conflictSolvers.py:666-674 | with the first of two improvements unsanctioned, the check as written still reports stability |
| InverseFlags.SmrFirstSanctionCounterexample | data_02_conflictSolvers.py:713-721 | with an escapable first sanction and an inescapable second one, the check as written reports instability |
| Inverse.InverseInclusions | data_02_conflictSolvers.py:650-721 | under the inverse solver's definitions Nash implies SEQ, GMR and SMR, and SEQ and SMR each imply GMR |
| Inverse.GmrLists | data_02_conflictSolvers.py:606-615 | mustBeLowerGMR has one in-range list per state reachable from the desired state |
| Inverse.ReachLists | data_02_conflictSolvers.py:628 | one in-range reachable list per given state |
| Inverse.CountermoveLists | data_02_conflictSolvers.py:620-628 | mustBeLowerSMR has one in-range list per sanction of each move |
| Inverse.RankedUIs | data_02_conflictSolvers.py:683 | the filter keeps exactly the listed states paying more than the reference |
| Inverse.RankedUIsOfOthers | data_02_conflictSolvers.py:681-683 | the opponents' ranked improvements are in range |
| Inverse.RankedUIsOfOthersMembers | data_02_conflictSolvers.py:681-683 | the list holds exactly the improvements of the other decision makers |
| Inverse.RankedUIsFrom | data_02_conflictSolvers.py:677-683 | one in-range list per given state |
| Inverse.RankedUIsFromAt | data_02_conflictSolvers.py:677-683 | entry z holds the others' improvements from the z-th state |
| Inverse.SeqFlags | data_02_conflictSolvers.py:685-699 | one SEQ flag per decision maker |
| Inverse.SeqLists | data_02_conflictSolvers.py:677-683 | mustBeLowerSEQ has one in-range list per state reachable from the desired state |
| Inverse.NashListLink | data_02_conflictSolvers.py:651-657 | the Nash loop on mustBeLowerNash passes exactly when the decision maker has no improvement |
| Inverse.GmrSanctionLink | data_02_conflictSolvers.py:671-674 | the sanction search over the opponents' moves finds exactly an opponent move to a state paying less |
| Inverse.GmrListLink | data_02_conflictSolvers.py:660-674 | the intended GMR check (every improvement sanctioned) on mustBeLowerGMR is exactly inverse GMR stability |
| Inverse.SeqSanctionLink | data_02_conflictSolvers.py:696-699 | the SEQ sanction search finds exactly an opponent improvement to a state paying less |
| Inverse.SeqListLink | data_02_conflictSolvers.py:685-699 | the intended SEQ check on mustBeLowerSEQ is exactly inverse SEQ stability |
| Inverse.CountermoveLink | data_02_conflictSolvers.py:717-720 | no countermove improves on the desired state exactly when the decision maker has no escape |
| Inverse.SmrSanctionLink | data_02_conflictSolvers.py:713-721 | the escape-free search finds exactly a sanction with no escape |
| Inverse.SmrListLink | data_02_conflictSolvers.py:702-721 | the intended SMR check on the must-be-lower lists is exactly inverse SMR stability |
| Inverse.AsWrittenInclusions | data_02_conflictSolvers.py:651-721 | as the loops decide them, Nash implies SEQ, GMR and SMR, and SEQ and SMR each imply GMR; intended GMR and SEQ stability pass the loops as written |
| Inverse.LastUIIsHighest | data_02_conflictSolvers.py:666-674 | the last improvement in reachable()'s increasing list is the highest-numbered state the decision maker reaches and prefers to the desired state |
| Inverse.GmrAsWrittenListLink | data_02_conflictSolvers.py:660-674 | the GMR loop as written on mustBeLowerGMR passes exactly when the highest improvement has an opponent's move to a state paying less |
| Inverse.SeqAsWrittenListLink | data_02_conflictSolvers.py:685-699 | the SEQ loop as written on mustBeLowerSEQ passes exactly when the highest improvement has an opponent's improvement to a state paying less |
| Inverse.CountermoveListsAt | data_02_conflictSolvers.py:611-628 | mustBeLowerGMR[z] holds the opponents' moves from the z-th reachable state, and each mustBeLowerSMR list offers no state above the desired one exactly when there is no countermove |
| Inverse.SmrAsWrittenListLink | data_02_conflictSolvers.py:702-721 | the SMR loop as written passes exactly when, from the highest improvement, the first opponent move paying less leaves no countermove above the desired state |
| Inverse.SmrSanctionFound | data_02_conflictSolvers.py:713-720 | an opponent move paying less with no countermove is found by the escape-free search over that improvement's list |
| Inverse.Verdicts | data_02_conflictSolvers.py:723 | verdict k holds exactly when flag k, as the loops decide it, holds for every decision maker |
| Inverse.VerdictsOrdered | data_02_conflictSolvers.py:723 | as the loops decide them, a combination's verdicts respect the inclusions Nash within SEQ and SMR, and those within GMR |
| Inverse.PrefPermGenShaped | data_02_conflictSolvers.py:634 | every combination has one ranking per decision maker |
| Inverse.FlagRow | data_02_conflictSolvers.py:651-721 | flag k of every decision maker as the loops decide it: Nash, then the last-improvement SEQ and GMR checks and the first-sanction SMR check |
| Inverse.FlagRows | data_02_conflictSolvers.py:635-638 | one flag row per combination, as the loops compute it from that combination's payoff table |
| Inverse.Stacked | data_02_conflictSolvers.py:723 | vstack of the all(axis=1) rows: four rows, one entry per combination |
| Inverse.Tables | data_02_conflictSolvers.py:635-723 | the four flag tables as the loops fill them, one row per combination |
| Inverse.StackedColumn | data_02_conflictSolvers.py:723 | column i of the stacked rows is combination i's verdicts |
| Inverse.StackedVerdicts | data_02_conflictSolvers.py:723 | every column of the stacked rows is its combination's verdicts, ordered by the inclusions |
| Inverse.NashRowLink | data_02_conflictSolvers.py:651-657 | the Nash loop's row is the Nash flag row |
| Inverse.GmrRowLink | data_02_conflictSolvers.py:660-674 | the GMR loop's row, run as written on mustBeLowerGMR, is the GMR flag row |
| Inverse.SeqRowLink | data_02_conflictSolvers.py:685-699 | the SEQ loop's row, run as written on mustBeLowerSEQ, is the SEQ flag row |
| Inverse.SmrRowLink | data_02_conflictSolvers.py:702-721 | the SMR loop's row, run as written on the must-be-lower lists, is the SMR flag row |
| Inverse.AllColumns | data_02_conflictSolvers.py:723 | all(axis=1) is true for a row exactly when every entry is |
| Inverse.Column | data_02_conflictSolvers.py:728 | the column has the four verdicts of one combination |
| Inverse.Selected | data_02_conflictSolvers.py:726-730 | filter keeps at most one row per combination |
| Inverse.SelectedMembers | data_02_conflictSolvers.py:726-730 | filter keeps exactly the combinations whose verdicts pass, each with its verdicts |
| Inverse.Count | data_02_conflictSolvers.py:731 | a count never exceeds the number of combinations |
| Inverse.CountMonotone | data_02_conflictSolvers.py:731 | a row true wherever another is counts at least as many entries |
| Inverse.CountsOrdered | data_02_conflictSolvers.py:731 | Nash counts at most SEQ and SMR, and each of those at most GMR |
| Inverse.InverseSolver.constructor | data_02_conflictSolvers.py:392-399 | a new inverse solver keeps the conflict, vary, desired state and rankings, and is not solved |
| Inverse.EntryStates | data_02_conflictSolvers.py:408-412 | the states collected from a run of ranking entries are exactly the states those entries name |
| Inverse.MarkingFailsMeaning | data_02_conflictSolvers.py:414-417 | marking a window's varied states raises exactly when one of them has no slot in the matrix and two of them differ |
| Inverse.MarkUnordered | data_02_conflictSolvers.py:414-417 | the double loop over the varied states finishes exactly when no write to improvementsInv[s0, s1] for distinct s0 and s1 falls outside the matrix |
| Inverse.VaryOutcomeFrom | data_02_conflictSolvers.py:401-417 | the pass from decision maker idx on fails exactly when some later decision maker has no entry in vary (IndexError), a None entry (TypeError) or varied states whose marking leaves the matrix (IndexError); the error is the first such decision maker's |
| Inverse.VaryOutcome | data_02_conflictSolvers.py:401-417 | construction fails exactly when vary is given and some decision maker's window is missing, None, or names a state without a slot together with a distinct state; the first such decision maker decides the error, and a vary shorter than the decision makers whose windows all mark cleanly gives IndexError |
| Inverse.VariedStateWithoutSlot | data_02_conflictSolvers.py:401-417 | two feasible states, ranking [3, 1] and vary [[0, 2]]: construction raises IndexError, because state 3 has no slot |
| Inverse.NewInverseSolver | data_02_conflictSolvers.py:392-417 | InverseSolver(...) raises the error VaryOutcome gives for vary, the rankings and the feasible states, or returns a fresh, valid, unsolved solver holding the conflict, vary, desired state and rankings |
| Inverse.InverseSolver.SanctionLists | data_02_conflictSolvers.py:611-615 | the loop builds exactly mustBeLowerGMR |
| Inverse.InverseSolver.CountermovesOf | data_02_conflictSolvers.py:628 | the decision maker's moves from each sanction |
| Inverse.InverseSolver.CountermoveListsOf | data_02_conflictSolvers.py:626-628 | the loop builds exactly mustBeLowerSMR |
| Inverse.InverseSolver.MblInit | data_02_conflictSolvers.py:600-628 | _mblInit fills all three must-be-lower lists; IndexError, with nothing changed, exactly when the desired state is out of range |
| Inverse.InverseSolver.OpponentRankedUIs | data_02_conflictSolvers.py:683 | the comprehension yields exactly the others' ranked improvements |
| Inverse.InverseSolver.SeqListsOf | data_02_conflictSolvers.py:677-683 | builds mustBeLowerSEQ for one payoff table |
| Inverse.InverseSolver.SeqRow | data_02_conflictSolvers.py:677-699 | the SEQ loop as written yields every decision maker's flag, judged on its last improvement and that improvement's SEQ list |
| Inverse.InverseSolver.ComboFlags | data_02_conflictSolvers.py:650-721 | one combination's Nash, SEQ, GMR and SMR flag rows, as the loops compute them |
| Inverse.InverseSolver.CheckCombos | data_02_conflictSolvers.py:640-721 | fails with IndexError exactly when some ranking names a state without a slot; otherwise returns the four flag tables as the loops fill them |
| Inverse.InverseSolver.FindEquilibria | data_02_conflictSolvers.py:631-723 | fails with IndexError for an out-of-range desired state, with prefPermGen's error, or with IndexError for a state without a slot; otherwise it is solved with the stacked verdicts, as the loops decide them, of every combination |
| Inverse.InverseSolver.Solve | data_02_conflictSolvers.py:634-723 | once the must-be-lower lists are ready, the same outcome as findEquilibria and the same tables, as the loops fill them |
| Inverse.InverseSolver.Filter | data_02_conflictSolvers.py:725-732 | returns the passing combinations with their verdicts and the four counts, Nash <= SEQ <= GMR and Nash <= SMR <= GMR; AttributeError before a run; ValueError for a filter that does not broadcast |
| Goals.HoldsConcat | data_02_conflictSolvers.py:818-847 | AND over joined lists needs both, OR needs either |
| Goals.PrefersAsymmetric | data_02_conflictSolvers.py:850 | no party prefers a to b and b to a |
| Goals.NatToString | data_02_conflictSolvers.py:857 | str(n) is never empty |
| Goals.NatToStringRoundTrip | data_02_conflictSolvers.py:857 | str(n) is digits without a leading zero and reads back as n |
| Goals.LeafText | data_02_conflictSolvers.py:856-867 | a leaf prints a line ending in a newline |
| Goals.AsStringBlock | data_02_conflictSolvers.py:821-847 | every rendering is a block of lines starting with the indent; requirements and leaves never render empty |
| Goals.RenderedBlocks | data_02_conflictSolvers.py:822 | children render as blocks of the parent's indent |
| Goals.MoveTable | data_02_conflictSolvers.py:768 | the move table holds reachable() for every party and state |
| Goals.MoreThanEach | data_02_conflictSolvers.py:768-769 | one MoreThanFor per move |
| Goals.SanctionEach | data_02_conflictSolvers.py:789-791 | one sanction pattern per opponent move |
| Goals.StableEach | data_02_conflictSolvers.py:782-792 | one stable alternative per move |
| Goals.NotSanctionEach | data_02_conflictSolvers.py:802-804 | one non-sanction pattern per opponent move |
| Goals.UnstableEach | data_02_conflictSolvers.py:795-804 | one unstable alternative per move |
| Goals.NashCondsHave | data_02_conflictSolvers.py:766-769 | every move of every party appears as a MoreThanFor condition of the stability goal |
| Goals.NashCondsFrom | data_02_conflictSolvers.py:766-769 | every condition of the stability goal is a MoreThanFor for a genuine move |
| Goals.NoMovesStable | data_02_conflictSolvers.py:768 | a party without moves is Nash-stable under any preferences |
| Goals.NashStableGoalSound | data_02_conflictSolvers.py:759-774 | preferences meeting the Nash stability goal make the state a Nash equilibrium |
| Goals.NashStableGoalExact | data_02_conflictSolvers.py:759-774 | without indifference, the Nash stability goal holds exactly at Nash equilibria |
| Goals.LessThanOneOfMeaning | data_02_conflictSolvers.py:771-772 | LessThanOneOf holds exactly when the party has an improvement |
| Goals.NashUnstableCondsHave | data_02_conflictSolvers.py:770-772 | every party with a move contributes a LessThanOneOf condition |
| Goals.NashUnstableCondsFrom | data_02_conflictSolvers.py:770-772 | every instability condition is some party's LessThanOneOf |
| Goals.NashUnstableGoalExact | data_02_conflictSolvers.py:759-774 | the Nash instability goal holds exactly when the state is not a Nash equilibrium |
| Goals.SanctionPatternSound | data_02_conflictSolvers.py:790 | a sanction pattern that holds names an opponent improvement the party likes less |
| Goals.SanctionsBelowSound | data_02_conflictSolvers.py:786-791 | a holding sanction pattern gives an opponent improvement that sanctions |
| Goals.StableAlternativeSound | data_02_conflictSolvers.py:783-792 | an improvement whose stable alternative holds is sanctioned |
| Goals.StablePartSound | data_02_conflictSolvers.py:780-792 | when a party's SEQ stability conditions hold, the party is SEQ-stable |
| Goals.SeqStableGoalSound | data_02_conflictSolvers.py:776-807 | preferences meeting the SEQ stability goal make the state a SEQ equilibrium |
| Goals.StrictDislike | data_02_conflictSolvers.py:790 | under strict preferences, a move that is no improvement is one the party dislikes |
| Goals.SanctionsBelowHave | data_02_conflictSolvers.py:786-791 | every opponent move from s1 has its sanction pattern in the list |
| Goals.SanctionWitness | data_02_conflictSolvers.py:786-791 | under strict preferences and exclusive control, a SEQ sanction gives an opponent move whose sanction pattern holds |
| Goals.StableAlternativeComplete | data_02_conflictSolvers.py:783-792 | for a SEQ-stable party, the stable alternative of each of its moves holds |
| Goals.StablePartComplete | data_02_conflictSolvers.py:780-792 | all of a SEQ-stable party's stability conditions hold |
| Goals.SeqStableCondsComplete | data_02_conflictSolvers.py:780-792 | when every party is SEQ-stable, every stability condition holds |
| Goals.SeqStableGoalExact | data_02_conflictSolvers.py:776-807 | under strict preferences and exclusive control, the SEQ stability goal holds exactly at SEQ equilibria |
| Goals.NotSanctionsBelowSound | data_02_conflictSolvers.py:799-804 | when the list of non-sanction patterns holds, each of them holds |
| Goals.NotSanctionedSound | data_02_conflictSolvers.py:799-804 | when the non-sanctions hold, no opponent improvement sanctions |
| Goals.NotSanctionHolds | data_02_conflictSolvers.py:803 | a non-sanction means the opponent does not improve or the party likes the result better |
| Goals.UnstableAlternativeParts | data_02_conflictSolvers.py:796-804 | an unstable alternative that holds is an improvement with every non-sanction holding |
| Goals.UnstablePartSound | data_02_conflictSolvers.py:794-806 | a party whose unstable alternative holds is not SEQ-stable |
| Goals.SeqUnstableCondsSound | data_02_conflictSolvers.py:780-807 | a holding instability condition leaves some party SEQ-unstable |
| Goals.NotSanctionComplete | data_02_conflictSolvers.py:803 | without a sanctioning opponent improvement, a non-sanction pattern holds |
| Goals.NotSanctionsBelowComplete | data_02_conflictSolvers.py:799-804 | without a sanctioning opponent improvement, every non-sanction pattern holds |
| Goals.UnstableAlternativeComplete | data_02_conflictSolvers.py:795-804 | the unstable alternative of an unsanctioned improvement holds |
| Goals.UnstablePartComplete | data_02_conflictSolvers.py:794-806 | a SEQ-unstable party has moves, and its OR of unstable alternatives holds |
| Goals.SeqUnstableCondsHave | data_02_conflictSolvers.py:805-806 | every party with a move contributes its OR of unstable alternatives to the instability conditions |
| Goals.SeqUnstableCondsFrom | data_02_conflictSolvers.py:805-806 | every instability condition is the OR of some moving party's unstable alternatives |
| Goals.SeqUnstableGoalSound | data_02_conflictSolvers.py:776-807 | preferences meeting the intended SEQ instability goal (the parties' conditions joined with OR) make the state not a SEQ equilibrium |
| Goals.SeqPartNoMoves | data_02_conflictSolvers.py:805-806 | a party without moves adds no instability condition |
| Goals.SeqCondsSkip | data_02_conflictSolvers.py:805-806 | a party without moves leaves the instability conditions unchanged |
| Goals.SeqUnstableAsWrittenMeaning | data_02_conflictSolvers.py:776-807 | the instability goal as written (AND) makes every party that can move SEQ-unstable, and under strict preferences the converse holds |
| Goals.SeqUnstableAsWrittenSound | data_02_conflictSolvers.py:776-807 | when some party can move, the instability goal as written makes the state not a SEQ equilibrium |
| Goals.SeqUnstableGoalExact | data_02_conflictSolvers.py:776-807 | under strict preferences, the intended instability goal holds exactly when the state is not a SEQ equilibrium |
| Goals.SeqUnstableAsWrittenCounterexample | data_02_conflictSolvers.py:776-807 | in a one-state conflict the instability goal as written holds, yet the state is a SEQ equilibrium |
| Goals.NashGoalsSound | data_02_conflictSolvers.py:751-753 | preferences meeting nash()'s conditions meet every goal under Nash |
| Goals.SeqGoalsSound | data_02_conflictSolvers.py:755-757 | preferences meeting seq()'s conditions meet every goal under SEQ, for goals whose unstable states some party can move from (see Findings) |
| Goals.GoalSeeker.constructor | data_02_conflictSolvers.py:736-739 | a new goal seeker keeps the conflict and goals, with every party's move table |
| Goals.GoalSeeker.ValidGoals | data_02_conflictSolvers.py:741-749 | validGoals is true exactly when there is a goal and none has an unset state or stability |
| Goals.GoalSeeker.MoreThanPatterns | data_02_conflictSolvers.py:768-769 | the nashGoal loop for stability builds one MoreThanFor per move |
| Goals.GoalSeeker.NashPartOf | data_02_conflictSolvers.py:766-772 | one party's share of nashGoal |
| Goals.GoalSeeker.NashGoal | data_02_conflictSolvers.py:759-774 | nashGoal builds the Nash goal whose meaning NashStableGoalExact and NashUnstableGoalExact state; IndexError for a state out of range |
| Goals.GoalSeeker.SanctionList | data_02_conflictSolvers.py:789-791 | the sanction patterns of one opponent's moves |
| Goals.GoalSeeker.NotSanctionList | data_02_conflictSolvers.py:802-804 | the non-sanction patterns of one opponent's moves |
| Goals.GoalSeeker.OpponentSanctions | data_02_conflictSolvers.py:786-791 | one opponent's sanction patterns, nothing for the party itself |
| Goals.GoalSeeker.SanctionPatterns | data_02_conflictSolvers.py:786-791 | the sanction patterns of every opponent |
| Goals.GoalSeeker.OpponentNotSanctions | data_02_conflictSolvers.py:799-804 | one opponent's non-sanction patterns, nothing for the party itself |
| Goals.GoalSeeker.NotSanctionPatterns | data_02_conflictSolvers.py:799-804 | the non-sanction patterns of every opponent |
| Goals.GoalSeeker.StablePatterns | data_02_conflictSolvers.py:782-792 | the stable alternatives of every move |
| Goals.GoalSeeker.UnstablePatterns | data_02_conflictSolvers.py:795-806 | the unstable alternatives of every move |
| Goals.GoalSeeker.SeqPartOf | data_02_conflictSolvers.py:780-806 | one party's share of seqGoal |
| Goals.GoalSeeker.SeqGoal | data_02_conflictSolvers.py:776-807 | seqGoal builds the SEQ goal as written, with AND between the parties' conditions, whose meaning SeqStableGoalExact and SeqUnstableAsWrittenMeaning state; IndexError for a state out of range |
| Goals.GoalSeeker.Nash | data_02_conflictSolvers.py:751-753 | nash() lists the Nash goal of every goal state, which NashGoalsSound shows are sound; IndexError when a goal state is out of range |
| Goals.GoalSeeker.Seq | data_02_conflictSolvers.py:755-757 | seq() lists the SEQ goal as written of every goal state, which SeqGoalsSound shows are sound for goals whose unstable states some party can move from (see Findings); IndexError when a goal state is out of range |

## Left out

- Reading and writing files is not modelled: saving and loading JSON, `export_rep` and `from_json`. The model holds values in memory only.
- The narration helpers (`chattyHelper` and the narration of the Nash, GMR and SEQ conditions) are not modelled; they only build explanatory text.
- The NaN values of the inverse solver's improvement matrix (`improvementsInv`) are not modelled, because no verdict reads them. Writing them can raise IndexError, and that error is modelled by `VaryOutcome` and `MarkUnordered`. The model says `IndexError("index out of bounds")` where numpy's message also names the index and the axis size.
- `RMGenerator.__init__` with `useCoalitions=True` and an empty coalition list falls back to the decision makers and appends each of them to `conflict.coalitions` (data_02_conflictSolvers.py:33-36). The model takes a `Conflict`'s parties as given and does not model that change to the coalition list.
- `MatrixCalc` and `Preference` are not modelled. Payoffs and preference vectors enter the model as given values.
- `reorderOptionsByDM` is not modelled; it only reorders options for display.
- gmcrUtil is not part of this model. `dec2yn` is taken to write bit i at character i. `calculatePreferences` is not modelled.
- `FeasibleList` and `ConflictModel` as objects are not modelled. The analysis takes the feasible states, directions and parties as a `Conflict` value.
- Negative Python indices are not modelled: states and list positions are natural numbers. The exception is the ranking slot for state 0, which writes the last entry as index -1 does.
- A stale `master_index` is not modelled: positions are computed from the master list.
- Option.addRef and Option.remRef are written inline as an increment of `refs`.
- DecisionMaker.addOption, DecisionMaker.removeOption, DecisionMaker.onDelete and DecisionMakerList's item deletion are not modelled.
- Coalition's remove, insert and item deletion are not modelled.
- CompoundCondition's append and item deletion are not modelled.
- ConditionList.removeCondition and ConditionList.format are not modelled.
- `Requirements` trees are built as values, so their plists cannot be shared or mutated after construction.
- numpy integer widths are not modelled: payoffs are unbounded integers.
- Options.Gather: does not state the reference-count increments of the gathered options, only the lists.
- Conditions.Collect: does not state the reference-count increments of the options, only the lists.
- Conditions.Condition.FromPairs: does not state the reference-count increments of the options.
- Conditions.Condition.FromMembers: does not state the reference-count increments of the options.
- Parties.DecisionMaker.WeightPreferences: requires the preference list to have no repeated condition, which `append` never creates; with a repeat, the source would give the object the weight of its last position.
- Parties.Coalition.Refresh: does not model the coalition preferences that refresh derives with calculatePreferences.
- Inverse.InverseSolver.constructor: takes the desired state as a number; a `desiredEquilibria` list (whose first element the source takes) or None is not modelled. An empty list as a `vary` entry (IndexError in the source) is not modelled either; `VaryOutcome` covers a short `vary`, a None entry and a window whose varied states do not fit the improvement matrix.
- Goals.SeqGoalsSound: covers only goals whose unstable states some party can move from; at a state no party can move from, the SEQ instability goal as written holds although the state is a SEQ equilibrium (see Findings).
- Goals.SeqStableGoalExact: necessity is proved under strict preferences and exclusive control only. A sanction the party is indifferent to meets SEQ but not the strict `MoreThanFor` pattern, and with shared control an opponent could move back to the start.
- Goals.SeqUnstableGoalExact: proved under strict preferences only, for the same reason.
- Goals.SeqUnstableAsWrittenMeaning: the converse direction is proved under strict preferences only, for the same reason.

## Findings

| source | as written | input that shows it | evidently intended | confidence | as-written member | corrected member |
|---|---|---|---|---|---|---|
| data_02_conflictSolvers.py:360-361 | the SEQ+SIM row ands the already inverted tables, so a state is kept unless some party is unstable under both concepts | one party, SEQ-stable but not SIM-stable at the only state | keep a state only when every party is both SEQ- and SIM-stable | high; not executed | Stability.SeqSimAsWrittenCounterexample | Stability.SeqSimCorrected |
| data_02_conflictSolvers.py:666-674 | the GMR and SEQ flag is overwritten by each improvement, so the last improvement alone decides | payoffs [1, 2, 2, 0], desired state 0, improvements [1, 2], sanction lists [[], [3]] | stable only when every improvement is sanctioned | high; not executed | InverseFlags.LastUIFlagCounterexample | InverseFlags.EveryUISanctionedFlag |
| data_02_conflictSolvers.py:713-721 | SMR stops at the first sanction, so an escapable first sanction hides an inescapable later one | payoffs [1, 2, 0, 0, 3], desired state 0, improvements [1], sanctions [[2, 3]], countermoves [[[4], []]] | stable when every improvement has some sanction without countermove | high; not executed | InverseFlags.SmrFirstSanctionCounterexample | InverseFlags.SmrFlag |
| data_02_conflictSolvers.py:776-807 | seqGoal joins the per-party instability conditions with AND | one decision maker with no options and one feasible state: the AND of nothing holds, yet the state is a SEQ equilibrium | join them with OR: some party has an unsanctioned improvement | high; not executed | Goals.SeqUnstableAsWrittenCounterexample | Goals.SeqUnstableGoalExact |
