/** Conversion of a confirmed draft into work items, notes and relations. */
module DraftConversion {
  import opened Core
  import opened DraftText
  import opened DraftItems

  datatype DraftStatus = DraftReady | DraftNeedsClarification | DraftConfirmed | DraftOther | DraftGone

  /** A stored draft item; `readable` tells whether its stored payload can be read back. */
  datatype Record = Record(id: nat, position: nat, item: DraftItem, readable: bool)

  datatype Kind = WorkKind(wtype: WorkItemType) | NoteKind

  /** A work item or note, with the draft item it was made from as long as that item and the output are there. */
  datatype Output = Output(source: Option<nat>, kind: Kind, deleted: bool)

  datatype EdgeType = AfterCompletion | IsBlockedBy | IsWaitingFor

  datatype Edge = Edge(source: nat, target: nat, etype: EdgeType)

  datatype Failure = NotConvertible | PartiallyStored | SelfRelation

  datatype Outcome = Rejected(why: Failure) | Returned(outputs: seq<nat>)

  /** The tables a conversion writes; an output's index is its identity. */
  datatype Tables = Tables(status: DraftStatus, outputs: seq<Output>, edges: seq<Edge>)

  function KindFor(t: DraftType): Option<Kind> {
    match t
    case DraftTask => Some(WorkKind(WorkItemType.Task))
    case DraftFollowUp => Some(WorkKind(WorkItemType.FollowUp))
    case DraftWaiting => Some(WorkKind(WorkItemType.Waiting))
    case DraftQuestion => Some(WorkKind(WorkItemType.Question))
    case DraftDecision => Some(WorkKind(WorkItemType.Decision))
    case DraftAgendaItem => Some(WorkKind(WorkItemType.AgendaItem))
    case DraftNote => Some(NoteKind)
    case DraftUnknown => None
  }

  /** A draft's items have distinct identities and positions. */
  predicate ProperRecords(records: seq<Record>) {
    forall j, k :: 0 <= j < k < |records| ==> records[j].id != records[k].id && records[j].position != records[k].position
  }

  function Chosen(records: seq<Record>, selected: Option<set<nat>>): seq<Record> {
    if records == [] then []
    else (if selected.None? || records[0].id in selected.value then [records[0]] else []) + Chosen(records[1..], selected)
  }

  function Ids(records: seq<Record>): set<nat> {
    set k | 0 <= k < |records| :: records[k].id
  }

  predicate MadeFrom(output: Output, ids: set<nat>) {
    output.source.Some? && output.source.value in ids
  }

  function OutputsOf(outputs: seq<Output>, ids: set<nat>): seq<nat>
    decreases |outputs|
  {
    if outputs == [] then []
    else
      var n := |outputs| - 1;
      OutputsOf(outputs[..n], ids) + (if MadeFrom(outputs[n], ids) then [n] else [])
  }

  predicate OutputFor(outputs: seq<Output>, record: Record, n: nat) {
    n < |outputs| && outputs[n].source == Some(record.id) && KindFor(record.item.dtype) == Some(outputs[n].kind)
  }

  predicate HasOutput(outputs: seq<Output>, record: Record) {
    exists n :: 0 <= n < |outputs| && OutputFor(outputs, record, n)
  }

  predicate Convertible(chosen: seq<Record>) {
    forall k :: 0 <= k < |chosen| ==> chosen[k].readable && !chosen[k].item.dtype.DraftUnknown?
  }

  function NewOutputs(chosen: seq<Record>): (r: seq<Output>)
    requires Convertible(chosen)
    ensures |r| == |chosen|
  {
    seq(|chosen|, k requires 0 <= k < |chosen| => Output(Some(chosen[k].id), KindFor(chosen[k].item.dtype).value, false))
  }

  // ---------------------------------------------------------------- relations

  /** The work item created for the chosen item at a position; notes have none. */
  function WorkAt(chosen: seq<Record>, first: nat, position: nat): Option<nat> {
    if chosen == [] then None
    else if chosen[0].position == position then (if chosen[0].item.dtype.DraftNote? then None else Some(first))
    else WorkAt(chosen[1..], first + 1, position)
  }

  /** The directed relation a dependency of one work item on another means. */
  function Image(relation: Relation, current: nat, other: nat): Option<Edge> {
    match relation
    case Before => Some(Edge(other, current, AfterCompletion))
    case After => Some(Edge(current, other, AfterCompletion))
    case BlockedBy => Some(Edge(current, other, IsBlockedBy))
    case WaitingFor => Some(Edge(current, other, IsWaitingFor))
    case Conditional => None
  }

  function EdgeOf(chosen: seq<Record>, first: nat, current: nat, d: Dependency): Option<Edge> {
    if d.target.None? || WorkAt(chosen, first, d.target.value).None? then None
    else Image(d.relation, current, WorkAt(chosen, first, d.target.value).value)
  }

  function WithEdge(edges: seq<Edge>, e: Option<Edge>): seq<Edge> {
    if e.None? || e.value in edges then edges else edges + [e.value]
  }

  function WithDependencies(edges: seq<Edge>, chosen: seq<Record>, first: nat, current: nat, dependencies: seq<Dependency>): seq<Edge>
    decreases |dependencies|
  {
    if dependencies == [] then edges
    else WithDependencies(WithEdge(edges, EdgeOf(chosen, first, current, dependencies[0])), chosen, first, current, dependencies[1..])
  }

  function WithRecords(edges: seq<Edge>, chosen: seq<Record>, first: nat, n: nat): seq<Edge>
    requires n <= |chosen|
    decreases n
  {
    if n == 0 then edges
    else
      var before := WithRecords(edges, chosen, first, n - 1);
      if chosen[n - 1].item.dtype.DraftNote? then before
      else WithDependencies(before, chosen, first, first + n - 1, chosen[n - 1].item.dependencies)
  }

  function Relations(chosen: seq<Record>, first: nat): seq<Edge> {
    WithRecords([], chosen, first, |chosen|)
  }

  predicate NoSelfRelation(edges: seq<Edge>) {
    forall k :: 0 <= k < |edges| ==> edges[k].source != edges[k].target
  }

  // ---------------------------------------------------------------- the transaction

  function Confirmed(t: Tables, selected: Option<set<nat>>): Tables {
    if selected.None? then t.(status := DraftConfirmed) else t
  }

  predicate MayConvert(status: DraftStatus, allowIncomplete: bool) {
    status.DraftReady? || status.DraftConfirmed? || (allowIncomplete && status.DraftNeedsClarification?)
  }

  /** What a conversion leaves in the tables, and what it answers. */
  function Converted(t: Tables, records: seq<Record>, allowIncomplete: bool, selected: Option<set<nat>>): (Tables, Outcome) {
    var chosen := Chosen(records, selected);
    var stored := OutputsOf(t.outputs, Ids(chosen));
    if !MayConvert(t.status, allowIncomplete) || chosen == [] || (selected.Some? && Ids(chosen) != selected.value) then
      (t, Rejected(NotConvertible))
    else if stored != [] then
      if |stored| == |chosen| && (forall k :: 0 <= k < |chosen| ==> HasOutput(t.outputs, chosen[k])) then
        (Confirmed(t, selected), Returned(stored))
      else (t, Rejected(PartiallyStored))
    else if !Convertible(chosen) then (t, Rejected(NotConvertible))
    else
      var edges := Relations(chosen, |t.outputs|);
      if !NoSelfRelation(edges) then (t, Rejected(SelfRelation))
      else (Confirmed(t, selected).(outputs := t.outputs + NewOutputs(chosen), edges := t.edges + edges),
            Returned(seq(|chosen|, k => |t.outputs| + k)))
  }

  // ---------------------------------------------------------------- relations mean the stated dependencies

  /** Some dependency of the list means the relation, for the given work item. */
  predicate Means(chosen: seq<Record>, first: nat, current: nat, dependencies: seq<Dependency>, e: Edge) {
    exists d :: d in dependencies && EdgeOf(chosen, first, current, d) == Some(e)
  }

  predicate Calls(chosen: seq<Record>, first: nat, k: nat, e: Edge) {
    k < |chosen| && !chosen[k].item.dtype.DraftNote? && Means(chosen, first, first + k, chosen[k].item.dependencies, e)
  }

  /** One of the first `n` chosen items calls for the relation. */
  predicate CalledFor(chosen: seq<Record>, first: nat, n: nat, e: Edge) {
    exists k :: 0 <= k < n && Calls(chosen, first, k, e)
  }

  predicate AllDifferent(edges: seq<Edge>) {
    forall i, j :: 0 <= i < j < |edges| ==> edges[i] != edges[j]
  }

  lemma {:induction false} WithDependenciesIs(edges: seq<Edge>, chosen: seq<Record>, first: nat, current: nat, dependencies: seq<Dependency>)
    requires AllDifferent(edges)
    ensures var r := WithDependencies(edges, chosen, first, current, dependencies);
            AllDifferent(r) && forall e :: e in r <==> e in edges || Means(chosen, first, current, dependencies, e)
    decreases |dependencies|
  {
    hide EdgeOf;
    if dependencies != [] {
      var next := WithEdge(edges, EdgeOf(chosen, first, current, dependencies[0]));
      WithDependenciesIs(next, chosen, first, current, dependencies[1..]);
      assert forall d :: d in dependencies <==> d == dependencies[0] || d in dependencies[1..];
      forall e ensures Means(chosen, first, current, dependencies, e) <==>
                         EdgeOf(chosen, first, current, dependencies[0]) == Some(e) || Means(chosen, first, current, dependencies[1..], e)
      {}
    }
  }

  lemma CalledForOneMore(chosen: seq<Record>, first: nat, n: nat, e: Edge)
    ensures CalledFor(chosen, first, n + 1, e) <==> CalledFor(chosen, first, n, e) || Calls(chosen, first, n, e)
  {
    hide Calls;
  }

  lemma {:induction false} WithRecordsIs(chosen: seq<Record>, first: nat, n: nat)
    requires n <= |chosen|
    ensures var r := WithRecords([], chosen, first, n);
            AllDifferent(r) && forall e :: e in r <==> CalledFor(chosen, first, n, e)
    decreases n
  {
    hide Means, CalledFor, AllDifferent;
    if n > 0 {
      WithRecordsIs(chosen, first, n - 1);
      var before := WithRecords([], chosen, first, n - 1);
      if !chosen[n - 1].item.dtype.DraftNote? {
        WithDependenciesIs(before, chosen, first, first + (n - 1), chosen[n - 1].item.dependencies);
      }
      forall e ensures CalledFor(chosen, first, n, e) <==> CalledFor(chosen, first, n - 1, e) || Calls(chosen, first, n - 1, e) {
        CalledForOneMore(chosen, first, n - 1, e);
      }
    } else {
      NoneDiffer();
      forall e ensures !CalledFor(chosen, first, 0, e) {
        NoneCalledFor(chosen, first, e);
      }
    }
  }

  lemma NoneDiffer()
    ensures AllDifferent([])
  {}

  lemma NoneCalledFor(chosen: seq<Record>, first: nat, e: Edge)
    ensures !CalledFor(chosen, first, 0, e)
  {}

  /** A conversion creates one relation for each relation its dependencies mean, and no other, none of them twice. */
  lemma RelationsAreCalledFor(chosen: seq<Record>, first: nat)
    ensures AllDifferent(Relations(chosen, first))
    ensures forall e :: e in Relations(chosen, first) <==> CalledFor(chosen, first, |chosen|, e)
  {
    WithRecordsIs(chosen, first, |chosen|);
  }

  /** "A before B" and "B after A" are one and the same relation. */
  lemma BeforeIsAfter(a: nat, b: nat)
    ensures Image(Before, a, b) == Image(After, b, a)
    ensures forall r, s, c, d :: Image(r, a, b).Some? && Image(r, a, b) == Image(s, c, d) ==>
              (r == s && a == c && b == d) || (a == d && b == c && {r, s} == {Before, After})
  {}

  // ---------------------------------------------------------------- from the provider's words to relations

  /** A draft as it is stored after analysis: one record per item, at the item's number. */
  function Analysed(items: seq<DraftItem>, ids: seq<nat>): (r: seq<Record>)
    requires |ids| == |items|
    ensures |r| == |items|
  {
    seq(|items|, n requires 0 <= n < |items| => Record(ids[n], n + 1, items[n], true))
  }

  predicate DistinctIds(ids: seq<nat>) {
    forall j, k :: 0 <= j < k < |ids| ==> ids[j] != ids[k]
  }

  lemma {:induction false} ChosenFrom(records: seq<Record>, selected: Option<set<nat>>)
    ensures var c := Chosen(records, selected);
            && |c| <= |records|
            && (forall k :: 0 <= k < |c| ==> c[k] in records && (selected.Some? ==> c[k].id in selected.value))
            && (forall k :: 0 <= k < |records| && (selected.None? || records[k].id in selected.value) ==> records[k] in c)
            && (ProperRecords(records) ==> ProperRecords(c))
    decreases |records|
  {
    if records != [] {
      ChosenFrom(records[1..], selected);
      var c, rest := Chosen(records, selected), Chosen(records[1..], selected);
      assert forall r :: r in records[1..] ==> exists k :: 1 <= k < |records| && records[k] == r;
      assert forall k :: 0 < k < |records| ==> records[k] == records[1..][k - 1];
      if ProperRecords(records) {
        assert ProperRecords(records[1..]);
        forall k | 0 <= k < |rest| ensures rest[k].id != records[0].id && rest[k].position != records[0].position {
          assert rest[k] in records[1..];
        }
      }
    }
  }

  lemma {:induction false} WorkAtIs(chosen: seq<Record>, first: nat, position: nat)
    requires ProperRecords(chosen)
    ensures forall n :: WorkAt(chosen, first, position) == Some(n) <==>
              first <= n < first + |chosen| && chosen[n - first].position == position && !chosen[n - first].item.dtype.DraftNote?
    decreases |chosen|
  {
    if chosen != [] {
      assert ProperRecords(chosen[1..]);
      WorkAtIs(chosen[1..], first + 1, position);
      assert forall k :: 0 < k < |chosen| ==> chosen[k] == chosen[1..][k - 1] && chosen[k].position != chosen[0].position;
    }
  }

  /** The chosen items of an analysed draft, kept one by one or deduplicated. */
  function ChosenItems(items: seq<DraftItem>, explicit: bool, ids: seq<nat>, selected: Option<set<nat>>, fold: Folding): seq<Record>
    requires ProperItems(items) && |ids| == |KeptItems(items, explicit, fold)|
  {
    Chosen(Analysed(KeptItems(items, explicit, fold), ids), selected)
  }

  /** What a dependency of one output on another comes to, spelled out: the later, blocked or waiting one points at what
      it depends on; "before" turns that round; a condition relates nothing. */
  predicate Relates(e: Edge, relation: Relation, dependent: nat, other: nat) {
    match relation
    case Before => e.source == other && e.target == dependent && e.etype == AfterCompletion
    case After => e.source == dependent && e.target == other && e.etype == AfterCompletion
    case BlockedBy => e.source == dependent && e.target == other && e.etype == IsBlockedBy
    case WaitingFor => e.source == dependent && e.target == other && e.etype == IsWaitingFor
    case Conditional => false
  }

  lemma ImageRelates(relation: Relation, dependent: nat, other: nat, e: Edge)
    ensures Image(relation, dependent, other) == Some(e) <==> Relates(e, relation, dependent, other)
  {}

  /** Input items `i` and the target of `d` came out as different items, both chosen and none of them a note; `e` is
      the relation between what was made of them. */
  predicate Meant(items: seq<DraftItem>, explicit: bool, fold: Folding, chosen: seq<Record>, first: nat, i: nat, d: Dependency,
                  j: nat, k: nat, e: Edge)
    requires |KeptNumbers(items, explicit, fold)| == |items|
  {
    && j < |chosen| && k < |chosen| && !chosen[j].item.dtype.DraftNote? && !chosen[k].item.dtype.DraftNote?
    && Stated(items, KeptNumbers(items, explicit, fold), i, d, chosen[j].position, chosen[k].position)
    && Relates(e, d.relation, first + j, first + k)
  }

  /** Nothing is invented: every relation comes from a dependency that some input item stated. */
  lemma RelationWasStated(items: seq<DraftItem>, explicit: bool, ids: seq<nat>, selected: Option<set<nat>>, first: nat, e: Edge,
                          fold: Folding) returns (i: nat, d: Dependency, j: nat, k: nat)
    requires ProperItems(items) && (explicit ==> NoSelfDependency(items)) && |ids| == |KeptItems(items, explicit, fold)| && DistinctIds(ids)
    requires e in Relations(ChosenItems(items, explicit, ids, selected, fold), first)
    ensures |KeptNumbers(items, explicit, fold)| == |items|
    ensures Meant(items, explicit, fold, ChosenItems(items, explicit, ids, selected, fold), first, i, d, j, k, e)
  {
    hide ProperItems, KeptItems, KeptNumbers, Stated, Relations, Chosen, ProperRecords, Image, NoSelfDependency;
    var out := KeptItems(items, explicit, fold);
    AnalysedIsProper(out, ids, selected);
    var r;
    r, j, k := RelationHasEnds(ChosenItems(items, explicit, ids, selected, fold), first, e);
    var n := ChosenIsOutput(out, ids, selected, j);
    i, d := KeptDependencyWasStated(items, explicit, n, r, fold);
    ImageRelates(d.relation, first + j, first + k, e);
  }

  /** The chosen item that calls for a relation, the dependency it does so by, and the chosen item at the other end. */
  lemma RelationHasEnds(chosen: seq<Record>, first: nat, e: Edge) returns (r: Dependency, j: nat, k: nat)
    requires ProperRecords(chosen) && e in Relations(chosen, first)
    ensures j < |chosen| && k < |chosen| && r in chosen[j].item.dependencies && r.target == Some(chosen[k].position)
    ensures !chosen[j].item.dtype.DraftNote? && !chosen[k].item.dtype.DraftNote? && Image(r.relation, first + j, first + k) == Some(e)
  {
    hide Relations, WorkAt, ProperRecords, Image;
    RelationsAreCalledFor(chosen, first);
    j :| 0 <= j < |chosen| && Calls(chosen, first, j, e);
    r :| r in chosen[j].item.dependencies && EdgeOf(chosen, first, first + j, r) == Some(e);
    WorkAtIs(chosen, first, r.target.value);
    k := WorkAt(chosen, first, r.target.value).value - first;
  }

  lemma AnalysedIsProper(out: seq<DraftItem>, ids: seq<nat>, selected: Option<set<nat>>)
    requires |ids| == |out| && DistinctIds(ids)
    ensures ProperRecords(Chosen(Analysed(out, ids), selected))
  {
    ChosenFrom(Analysed(out, ids), selected);
  }

  lemma ChosenIsOutput(out: seq<DraftItem>, ids: seq<nat>, selected: Option<set<nat>>, j: nat) returns (n: nat)
    requires |ids| == |out| && j < |Chosen(Analysed(out, ids), selected)|
    ensures n < |out| && Chosen(Analysed(out, ids), selected)[j] == Record(ids[n], n + 1, out[n], true)
  {
    hide Chosen;
    var records := Analysed(out, ids);
    ChosenFrom(records, selected);
    assert Chosen(records, selected)[j] in records;
    n :| 0 <= n < |records| && records[n] == Chosen(records, selected)[j];
  }

  /** Nothing is lost: every stated dependency between chosen work items that did not merge becomes its relation. */
  lemma StatedBecomesRelation(items: seq<DraftItem>, explicit: bool, ids: seq<nat>, selected: Option<set<nat>>, first: nat, e: Edge,
                              fold: Folding, i: nat, d: Dependency, j: nat, k: nat)
    requires ProperItems(items) && |ids| == |KeptItems(items, explicit, fold)| && DistinctIds(ids)
    requires |KeptNumbers(items, explicit, fold)| == |items|
    requires Meant(items, explicit, fold, ChosenItems(items, explicit, ids, selected, fold), first, i, d, j, k, e)
    ensures e in Relations(ChosenItems(items, explicit, ids, selected, fold), first)
  {
    hide ProperItems, KeptItems, KeptNumbers, Stated, Relations, Chosen, WorkAt, ProperRecords;
    var out := KeptItems(items, explicit, fold);
    var chosen := ChosenItems(items, explicit, ids, selected, fold);
    AnalysedIsProper(out, ids, selected);
    RelationsAreCalledFor(chosen, first);
    var n := ChosenIsOutput(out, ids, selected, j);
    var r := StatedDependencyIsKept(items, explicit, i, d, n, chosen[k].position, fold);
    WorkAtIs(chosen, first, chosen[k].position);
    assert WorkAt(chosen, first, chosen[k].position) == Some(first + k);
    ImageRelates(d.relation, first + j, first + k, e);
    assert EdgeOf(chosen, first, first + j, r) == Some(e);
    assert Calls(chosen, first, j, e);
  }

  /** No conversion of an analysed draft, deduplicated or kept item by item, ever relates a work item to itself. */
  lemma AnalysedHasNoSelfRelation(items: seq<DraftItem>, explicit: bool, ids: seq<nat>, selected: Option<set<nat>>, first: nat, fold: Folding)
    requires ProperItems(items) && (explicit ==> NoSelfDependency(items)) && |ids| == |KeptItems(items, explicit, fold)| && DistinctIds(ids)
    ensures NoSelfRelation(Relations(ChosenItems(items, explicit, ids, selected, fold), first))
  {
    hide ProperItems, KeptItems, KeptNumbers, Relations, Chosen, WorkAt, NoSelfDependency;
    var edges := Relations(ChosenItems(items, explicit, ids, selected, fold), first);
    forall n | 0 <= n < |edges| ensures edges[n].source != edges[n].target {
      var i, d, j, k := RelationWasStated(items, explicit, ids, selected, first, edges[n], fold);
    }
  }

  // ---------------------------------------------------------------- all or nothing, and once

  predicate OneOutputEach(outputs: seq<Output>) {
    forall j, k :: 0 <= j < k < |outputs| && outputs[j].source.Some? ==> outputs[j].source != outputs[k].source
  }

  lemma {:induction false} OutputsOfAre(outputs: seq<Output>, ids: set<nat>)
    ensures forall n: nat :: n in OutputsOf(outputs, ids) <==> n < |outputs| && MadeFrom(outputs[n], ids)
    decreases |outputs|
  {
    if outputs != [] {
      OutputsOfAre(outputs[..|outputs| - 1], ids);
    }
  }

  lemma {:induction false} OutputsOfAppended(outputs: seq<Output>, more: seq<Output>, ids: set<nat>)
    requires OutputsOf(outputs, ids) == []
    requires forall k :: 0 <= k < |more| ==> MadeFrom(more[k], ids)
    ensures OutputsOf(outputs + more, ids) == seq(|more|, k => |outputs| + k)
    decreases |more|
  {
    if more == [] {
      assert outputs + more == outputs;
    } else {
      var before, all := more[..|more| - 1], outputs + more;
      assert all[..|all| - 1] == outputs + before;
      OutputsOfAppended(outputs, before, ids);
      assert all[|all| - 1] == more[|more| - 1] && OutputsOf(all, ids) == OutputsOf(outputs + before, ids) + [|all| - 1];
    }
  }

  lemma ChosenAreNew(t: Tables, chosen: seq<Record>)
    requires OneOutputEach(t.outputs) && ProperRecords(chosen) && Convertible(chosen)
    requires OutputsOf(t.outputs, Ids(chosen)) == []
    ensures OneOutputEach(t.outputs + NewOutputs(chosen))
  {
    OutputsOfAre(t.outputs, Ids(chosen));
    var all := t.outputs + NewOutputs(chosen);
    forall j, k | 0 <= j < k < |all| && all[j].source.Some? ensures all[j].source != all[k].source {
      if k >= |t.outputs| {
        assert all[k].source == Some(chosen[k - |t.outputs|].id);
        if j < |t.outputs| {
          assert MadeFrom(all[k], Ids(chosen)) && !MadeFrom(t.outputs[j], Ids(chosen));
        }
      }
    }
  }

  /** Every output goes back to one draft item, whatever is converted in whatever selections. */
  lemma ConvertedKeepsOneOutputEach(t: Tables, records: seq<Record>, allowIncomplete: bool, selected: Option<set<nat>>)
    requires OneOutputEach(t.outputs) && ProperRecords(records)
    ensures OneOutputEach(Converted(t, records, allowIncomplete, selected).0.outputs)
  {
    hide OneOutputEach, Chosen, Relations, HasOutput, NewOutputs, Convertible, ProperRecords;
    var chosen := Chosen(records, selected);
    ChosenFrom(records, selected);
    if OutputsOf(t.outputs, Ids(chosen)) == [] && Convertible(chosen) {
      ChosenAreNew(t, chosen);
    }
  }

  /** All or nothing: a conversion that fails changes nothing; one that succeeds leaves every chosen draft item with
      an output of the right kind, and returns outputs of chosen items only. */
  lemma ConvertedIsAllOrNothing(t: Tables, records: seq<Record>, allowIncomplete: bool, selected: Option<set<nat>>)
    ensures var r := Converted(t, records, allowIncomplete, selected);
            var chosen := Chosen(records, selected);
            if r.1.Rejected? then r.0 == t
            else
              && chosen != [] && |r.1.outputs| == |chosen|
              && (forall k :: 0 <= k < |chosen| ==> HasOutput(r.0.outputs, chosen[k]))
              && (forall n :: 0 <= n < |r.1.outputs| ==> r.1.outputs[n] < |r.0.outputs| && MadeFrom(r.0.outputs[r.1.outputs[n]], Ids(chosen)))
  {
    hide Chosen, Relations, OutputsOf;
    var chosen := Chosen(records, selected);
    var stored := OutputsOf(t.outputs, Ids(chosen));
    OutputsOfAre(t.outputs, Ids(chosen));
    assert forall n :: 0 <= n < |stored| ==> stored[n] in stored;
    var r := Converted(t, records, allowIncomplete, selected);
    if r.1.Returned? && stored == [] {
      forall k | 0 <= k < |chosen| ensures HasOutput(r.0.outputs, chosen[k]) {
        assert OutputFor(r.0.outputs, chosen[k], |t.outputs| + k);
      }
    }
  }

  /** Once: repeating a successful conversion returns the same outputs and changes nothing. */
  lemma ConversionIsIdempotent(t: Tables, records: seq<Record>, allowIncomplete: bool, selected: Option<set<nat>>)
    requires Converted(t, records, allowIncomplete, selected).1.Returned?
    ensures var r := Converted(t, records, allowIncomplete, selected);
            Converted(r.0, records, allowIncomplete, selected) == r
  {
    hide Chosen, Relations, OutputsOf, HasOutput;
    var r := Converted(t, records, allowIncomplete, selected);
    var chosen := Chosen(records, selected);
    ConvertedIsAllOrNothing(t, records, allowIncomplete, selected);
    if OutputsOf(t.outputs, Ids(chosen)) == [] {
      forall k | 0 <= k < |chosen| ensures MadeFrom(NewOutputs(chosen)[k], Ids(chosen)) {
        assert chosen[k].id in Ids(chosen);
      }
      OutputsOfAppended(t.outputs, NewOutputs(chosen), Ids(chosen));
    }
  }

  /** A note becomes a note and every other item the work item of its name; what is unknown becomes nothing. */
  predicate Becomes(dtype: DraftType, kind: Kind) {
    match dtype
    case DraftNote => kind.NoteKind?
    case DraftTask => kind == WorkKind(WorkItemType.Task)
    case DraftFollowUp => kind == WorkKind(WorkItemType.FollowUp)
    case DraftWaiting => kind == WorkKind(WorkItemType.Waiting)
    case DraftQuestion => kind == WorkKind(WorkItemType.Question)
    case DraftDecision => kind == WorkKind(WorkItemType.Decision)
    case DraftAgendaItem => kind == WorkKind(WorkItemType.AgendaItem)
    case DraftUnknown => false
  }

  /** What a conversion makes: behind the stored outputs one for each chosen item, in their order and of their kind, and
      behind the stored relations those of the chosen items, between these outputs. */
  lemma ConvertedMakes(t: Tables, records: seq<Record>, allowIncomplete: bool, selected: Option<set<nat>>, k: nat)
    requires var r := Converted(t, records, allowIncomplete, selected); r.0.outputs != t.outputs
    requires k < |Chosen(records, selected)|
    ensures var r := Converted(t, records, allowIncomplete, selected);
            var chosen, first := Chosen(records, selected), |t.outputs|;
            && |r.0.outputs| == first + |chosen| && t.outputs <= r.0.outputs && r.1 == Returned(seq(|chosen|, n => first + n))
            && r.0.outputs[first + k].source == Some(chosen[k].id) && !r.0.outputs[first + k].deleted
            && Becomes(chosen[k].item.dtype, r.0.outputs[first + k].kind)
            && r.0.edges == t.edges + Relations(chosen, first)
            && r.0.status == (if selected.None? then DraftConfirmed else t.status)
  {
    hide Chosen, Relations, OutputsOf, HasOutput, NoSelfRelation;
  }

  /** A request for items of which only some are stored already is refused. */
  lemma PartialConversionIsRefused(t: Tables, records: seq<Record>, allowIncomplete: bool, selected: Option<set<nat>>, j: nat, k: nat, n: nat)
    requires var chosen := Chosen(records, selected);
             && j < |chosen| && k < |chosen| && !HasOutput(t.outputs, chosen[j]) && n < |t.outputs| && t.outputs[n].source == Some(chosen[k].id)
    ensures Converted(t, records, allowIncomplete, selected).1.Rejected?
  {
    hide Chosen, Relations, OutputsOf;
    OutputsOfAre(t.outputs, Ids(Chosen(records, selected)));
    assert n in OutputsOf(t.outputs, Ids(Chosen(records, selected)));
  }

  // ---------------------------------------------------------------- the service itself

  lemma {:induction false} ChosenSplits(records: seq<Record>, n: nat, selected: Option<set<nat>>)
    requires n < |records|
    ensures Chosen(records[..n + 1], selected) == Chosen(records[..n], selected) + Chosen([records[n]], selected)
    decreases n
  {
    if n == 0 {
      assert records[..1] == [records[0]] && records[..0] == [];
    } else {
      assert records[..n + 1][1..] == records[1..][..n] && records[..n][1..] == records[1..][..n - 1];
      ChosenSplits(records[1..], n - 1, selected);
    }
  }

  lemma StaysARelation(chosen: seq<Record>, first: nat, n: nat, e: Edge)
    requires n <= |chosen| && e in WithRecords([], chosen, first, n)
    ensures e in Relations(chosen, first)
  {
    hide Calls;
    WithRecordsIs(chosen, first, n);
    WithRecordsIs(chosen, first, |chosen|);
    assert CalledFor(chosen, first, n, e);
  }

  class Converter {
    var status: DraftStatus
    var outputs: seq<Output>
    var edges: seq<Edge>

    constructor ()
      ensures Stored() == Tables(DraftOther, [], [])
    {
      status, outputs, edges := DraftOther, [], [];
    }

    function Stored(): Tables
      reads this
    {
      Tables(status, outputs, edges)
    }

    method Select(records: seq<Record>, selected: Option<set<nat>>) returns (chosen: seq<Record>)
      ensures chosen == Chosen(records, selected)
    {
      chosen := [];
      for n := 0 to |records|
        invariant chosen == Chosen(records[..n], selected)
      {
        ChosenSplits(records, n, selected);
        if selected.None? || records[n].id in selected.value {
          chosen := chosen + [records[n]];
        }
      }
      assert records[..|records|] == records;
    }

    method ExistingOutputs(ids: set<nat>) returns (stored: seq<nat>)
      ensures stored == OutputsOf(outputs, ids)
    {
      stored := [];
      for n := 0 to |outputs|
        invariant stored == OutputsOf(outputs[..n], ids)
      {
        assert outputs[..n + 1][..n] == outputs[..n];
        if MadeFrom(outputs[n], ids) {
          stored := stored + [n];
        }
      }
      assert outputs[..|outputs|] == outputs;
    }

    /** The nested loops over chosen items and their dependencies; a relation of an item to itself is an error. */
    method BuildRelations(chosen: seq<Record>, first: nat) returns (made: seq<Edge>, ok: bool)
      ensures ok == NoSelfRelation(Relations(chosen, first))
      ensures ok ==> made == Relations(chosen, first)
    {
      hide EdgeOf;
      made := [];
      var created: set<Edge> := {};
      for n := 0 to |chosen|
        invariant made == WithRecords([], chosen, first, n) && NoSelfRelation(made) && AllDifferent(made)
        invariant forall e :: e in created <==> e in made
      {
        if !chosen[n].item.dtype.DraftNote? {
          var dependencies := chosen[n].item.dependencies;
          ghost var before := made;
          assert dependencies[0..] == dependencies;
          for m := 0 to |dependencies|
            invariant NoSelfRelation(made) && AllDifferent(made) && forall e :: e in created <==> e in made
            invariant WithDependencies(made, chosen, first, first + n, dependencies[m..])
                   == WithDependencies(before, chosen, first, first + n, dependencies)
          {
            assert dependencies[m..][0] == dependencies[m] && dependencies[m..][1..] == dependencies[m + 1..];
            var e := EdgeOf(chosen, first, first + n, dependencies[m]);
            if e.Some? && e.value !in created {
              if e.value.source == e.value.target {
                SelfRelationStays(made, chosen, first, n, dependencies[m..], e.value);
                return made, false;
              }
              made := made + [e.value];
              created := created + {e.value};
            }
          }
          assert dependencies[|dependencies|..] == [];
        }
      }
      return made, true;
    }

    /** One conversion; what an error leaves half done is rolled back. */
    method Convert(records: seq<Record>, allowIncomplete: bool, selected: Option<set<nat>>) returns (outcome: Outcome)
      modifies this
      ensures (Stored(), outcome) == Converted(old(Stored()), records, allowIncomplete, selected)
    {
      hide Chosen, OutputsOf, Relations, HasOutput, NoSelfRelation, Convertible, KindFor;
      if !MayConvert(status, allowIncomplete) {
        return Rejected(NotConvertible);
      }
      var chosen := Select(records, selected);
      if chosen == [] || (selected.Some? && Ids(chosen) != selected.value) {
        return Rejected(NotConvertible);
      }
      var stored := ExistingOutputs(Ids(chosen));
      if stored != [] {
        var complete := AllStored(chosen);
        if |stored| != |chosen| || !complete {
          return Rejected(PartiallyStored);
        }
        if selected.None? {
          status := DraftConfirmed;
        }
        return Returned(stored);
      }
      var valid := Validate(chosen);
      if !valid {
        return Rejected(NotConvertible);
      }
      var before := outputs;
      CreateOutputs(chosen);
      var made, ok := BuildRelations(chosen, |before|);
      if !ok {
        outputs := before;
        return Rejected(SelfRelation);
      }
      edges := edges + made;
      if selected.None? {
        status := DraftConfirmed;
      }
      return Returned(seq(|chosen|, k => |before| + k));
    }

    method AllStored(chosen: seq<Record>) returns (complete: bool)
      ensures complete == forall k :: 0 <= k < |chosen| ==> HasOutput(outputs, chosen[k])
    {
      hide HasOutput;
      for n := 0 to |chosen|
        invariant forall k :: 0 <= k < n ==> HasOutput(outputs, chosen[k])
      {
        if !HasOutput(outputs, chosen[n]) {
          return false;
        }
      }
      return true;
    }

    method Validate(chosen: seq<Record>) returns (valid: bool)
      ensures valid == Convertible(chosen)
    {
      for n := 0 to |chosen|
        invariant forall k :: 0 <= k < n ==> chosen[k].readable && !chosen[k].item.dtype.DraftUnknown?
      {
        if !chosen[n].readable || chosen[n].item.dtype.DraftUnknown? {
          return false;
        }
      }
      return true;
    }

    method CreateOutputs(chosen: seq<Record>)
      requires Convertible(chosen)
      modifies this`outputs
      ensures outputs == old(outputs) + NewOutputs(chosen)
    {
      for n := 0 to |chosen|
        invariant outputs == old(outputs) + NewOutputs(chosen)[..n]
      {
        outputs := outputs + [Output(Some(chosen[n].id), KindFor(chosen[n].item.dtype).value, false)];
      }
    }
  }

  lemma SelfRelationStays(made: seq<Edge>, chosen: seq<Record>, first: nat, n: nat, dependencies: seq<Dependency>, e: Edge)
    requires n < |chosen| && dependencies != [] && !chosen[n].item.dtype.DraftNote? && e.source == e.target
    requires EdgeOf(chosen, first, first + n, dependencies[0]) == Some(e) && AllDifferent(made)
    requires WithDependencies(made, chosen, first, first + n, dependencies) == WithRecords([], chosen, first, n + 1)
    ensures !NoSelfRelation(Relations(chosen, first))
  {
    hide EdgeOf, Relations, WithDependencies;
    WithDependenciesIs(made, chosen, first, first + n, dependencies);
    assert Means(chosen, first, first + n, dependencies, e);
    StaysARelation(chosen, first, n + 1, e);
    var k :| 0 <= k < |Relations(chosen, first)| && Relations(chosen, first)[k] == e;
  }
}
