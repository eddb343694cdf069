/** Confirming a draft again: what may happen between two conversions, and what the second one then does. */
module DraftRepeats {
  import opened Core
  import opened DraftItems
  import opened DraftConversion

  /** A draft, its items and everybody's outputs; a fresh identity of an item is the next unused number. */
  datatype Desk = Desk(tables: Tables, records: seq<Record>, nextId: nat)

  // ---------------------------------------------------------------- what one conversion decides

  predicate HasSome(outputs: seq<Output>, record: Record) {
    exists n :: 0 <= n < |outputs| && outputs[n].source == Some(record.id)
  }

  /** A draft takes a conversion when it is ready or was confirmed already, and an unclear one only if that is accepted. */
  predicate Admits(status: DraftStatus, allowIncomplete: bool) {
    match status
    case DraftReady => true
    case DraftConfirmed => true
    case DraftNeedsClarification => allowIncomplete
    case _ => false
  }

  /** The draft may be converted, and every requested item is one of its items. */
  predicate Found(d: Desk, allowIncomplete: bool, selected: Option<set<nat>>) {
    var asked := Chosen(d.records, selected);
    Admits(d.tables.status, allowIncomplete) && asked != [] && (selected.Some? ==> Ids(asked) == selected.value)
  }

  predicate Makeable(d: Desk, selected: Option<set<nat>>) {
    var asked := Chosen(d.records, selected);
    Convertible(asked) && NoSelfRelation(Relations(asked, |d.tables.outputs|))
  }

  predicate AllLeft(d: Desk, selected: Option<set<nat>>) {
    var asked := Chosen(d.records, selected);
    forall k :: 0 <= k < |asked| ==> HasOutput(d.tables.outputs, asked[k])
  }

  predicate NoneLeft(d: Desk, selected: Option<set<nat>>) {
    var asked := Chosen(d.records, selected);
    forall k :: 0 <= k < |asked| ==> !HasSome(d.tables.outputs, asked[k])
  }

  function Conversion(d: Desk, allowIncomplete: bool, selected: Option<set<nat>>): (Tables, Outcome) {
    Converted(d.tables, d.records, allowIncomplete, selected)
  }

  predicate Orderly(d: Desk) {
    && OneOutputEach(d.tables.outputs) && ProperRecords(d.records)
    && (forall k :: 0 <= k < |d.records| ==> d.records[k].id < d.nextId)
    && (forall n :: 0 <= n < |d.tables.outputs| && d.tables.outputs[n].source.Some? ==> d.tables.outputs[n].source.value < d.nextId)
  }

  lemma HasOutputHasSome(outputs: seq<Output>, record: Record)
    requires HasOutput(outputs, record)
    ensures HasSome(outputs, record)
  {
    var n :| 0 <= n < |outputs| && OutputFor(outputs, record, n);
    assert outputs[n].source == Some(record.id);
  }

  lemma SomeStored(outputs: seq<Output>, asked: seq<Record>)
    ensures OutputsOf(outputs, Ids(asked)) == [] <==> forall k :: 0 <= k < |asked| ==> !HasSome(outputs, asked[k])
  {
    OutputsOfAre(outputs, Ids(asked));
    var stored := OutputsOf(outputs, Ids(asked));
    if stored != [] {
      assert stored[0] in stored;
      var k :| 0 <= k < |asked| && asked[k].id == outputs[stored[0]].source.value;
      assert HasSome(outputs, asked[k]);
    } else {
      forall k, n | 0 <= k < |asked| && 0 <= n < |outputs| ensures outputs[n].source != Some(asked[k].id) {
        assert n !in stored && asked[k].id in Ids(asked);
      }
    }
  }

  lemma {:induction false} OutputsOfOneMore(outputs: seq<Output>, ids: set<nat>, id: nat)
    requires id !in ids
    ensures |OutputsOf(outputs, ids + {id})| == |OutputsOf(outputs, ids)| + |OutputsOf(outputs, {id})|
    decreases |outputs|
  {
    if outputs != [] {
      OutputsOfOneMore(outputs[..|outputs| - 1], ids, id);
    }
  }

  lemma {:induction false} OutputsOfNone(outputs: seq<Output>, ids: set<nat>)
    requires forall n :: 0 <= n < |outputs| ==> !MadeFrom(outputs[n], ids)
    ensures OutputsOf(outputs, ids) == []
    decreases |outputs|
  {
    if outputs != [] {
      OutputsOfNone(outputs[..|outputs| - 1], ids);
    }
  }

  lemma {:induction false} OutputsOfOne(outputs: seq<Output>, id: nat, n: nat)
    requires OneOutputEach(outputs) && n < |outputs| && outputs[n].source == Some(id)
    ensures OutputsOf(outputs, {id}) == [n]
    decreases |outputs|
  {
    var before := outputs[..|outputs| - 1];
    if n == |outputs| - 1 {
      OutputsOfNone(before, {id});
    } else {
      OutputsOfOne(before, id, n);
    }
  }

  /** Where every requested item has its output, there are as many outputs as items. */
  lemma {:induction false} AsManyAsAsked(outputs: seq<Output>, asked: seq<Record>)
    requires OneOutputEach(outputs) && ProperRecords(asked)
    requires forall k :: 0 <= k < |asked| ==> HasSome(outputs, asked[k])
    ensures |OutputsOf(outputs, Ids(asked))| == |asked|
    decreases |asked|
  {
    if asked == [] {
      OutputsOfNone(outputs, Ids(asked));
    } else {
      var rest := asked[..|asked| - 1];
      var id := asked[|asked| - 1].id;
      AsManyAsAsked(outputs, rest);
      var n :| 0 <= n < |outputs| && outputs[n].source == Some(id);
      OutputsOfOne(outputs, id, n);
      OutputsOfOneMore(outputs, Ids(rest), id);
      assert Ids(asked) == Ids(rest) + {id};
    }
  }

  /** What a conversion does is decided by what can be seen in the tables: it returns stored outputs exactly if every
      requested item has its output left, with the kind that the item's type calls for; it refuses exactly if some have
      an output and not all have their own; and it makes outputs exactly if none has one and all can be made. */
  lemma TablesDecide(d: Desk, allowIncomplete: bool, selected: Option<set<nat>>)
    requires Orderly(d)
    ensures var r := Conversion(d, allowIncomplete, selected);
            && (r.1.Returned? && r.0.outputs == d.tables.outputs <==> Found(d, allowIncomplete, selected) && AllLeft(d, selected))
            && (r.1 == Rejected(PartiallyStored) <==>
                  Found(d, allowIncomplete, selected) && !NoneLeft(d, selected) && !AllLeft(d, selected))
            && (r.0.outputs != d.tables.outputs <==>
                  Found(d, allowIncomplete, selected) && NoneLeft(d, selected) && Makeable(d, selected))
            && (r.0.outputs != d.tables.outputs ==> r.1.Returned? && |r.0.outputs| == |d.tables.outputs| + |Chosen(d.records, selected)|)
  {
    hide Chosen, Relations, OutputsOf, HasOutput, HasSome, OneOutputEach, ProperRecords, Convertible, NoSelfRelation;
    var asked, outputs := Chosen(d.records, selected), d.tables.outputs;
    ChosenFrom(d.records, selected);
    SomeStored(outputs, asked);
    if AllLeft(d, selected) {
      forall k | 0 <= k < |asked| ensures HasSome(outputs, asked[k]) {
        HasOutputHasSome(outputs, asked[k]);
      }
      AsManyAsAsked(outputs, asked);
    }
  }

  // ---------------------------------------------------------------- what may happen in between

  /** What may happen to a draft and its outputs after a conversion: another conversion of it; other drafts' items and
      outputs; an edit of a work item's type; the deletion of an unprocessed note to which nothing refers; a transition of
      the draft, recovery of a confirmed one included; an edit of an item; a new analysis, which replaces the items; and
      the draft's own deletion. */
  datatype Later =
    | ConvertAgain(allowIncomplete: bool, selected: Option<set<nat>>)
    | OtherDraft(taken: nat, outputs: seq<Output>)
    | Retype(n: nat, wtype: WorkItemType)
    | DeleteNote(n: nat)
    | ChangeStatus(status: DraftStatus)
    | EditItem(k: nat, item: DraftItem, ready: bool)
    | ReplaceItems(items: seq<DraftItem>, ready: bool)
    | DeleteDraft

  predicate Editable(status: DraftStatus) {
    !status.DraftConfirmed? && !status.DraftGone?
  }

  function Assessed(ready: bool): DraftStatus {
    if ready then DraftReady else DraftNeedsClarification
  }

  /** An output loses its source with the draft item. */
  function Released(outputs: seq<Output>, ids: set<nat>): (r: seq<Output>)
    ensures |r| == |outputs|
  {
    seq(|outputs|, n requires 0 <= n < |outputs| => if MadeFrom(outputs[n], ids) then outputs[n].(source := None) else outputs[n])
  }

  function Fresh(first: nat, count: nat): (r: seq<nat>)
    ensures |r| == count
  {
    seq(count, k => first + k)
  }

  /** Outputs of items of other drafts, each item with one output at most. */
  predicate Foreign(d: Desk, taken: nat, outputs: seq<Output>) {
    && OneOutputEach(d.tables.outputs + outputs)
    && forall n :: 0 <= n < |outputs| && outputs[n].source.Some? ==>
         outputs[n].source.value < d.nextId + taken && !MadeFrom(outputs[n], Ids(d.records))
  }

  function SetOutput(d: Desk, n: nat, output: Output): Desk
    requires n < |d.tables.outputs|
  {
    d.(tables := d.tables.(outputs := d.tables.outputs[n := output]))
  }

  function Replaced(d: Desk, status: DraftStatus, items: seq<DraftItem>): Desk {
    Desk(d.tables.(status := status, outputs := Released(d.tables.outputs, Ids(d.records))),
         Analysed(items, Fresh(d.nextId, |items|)), d.nextId + |items|)
  }

  function Happens(d: Desk, l: Later): Desk {
    match l
    case ConvertAgain(allowIncomplete, selected) => d.(tables := Conversion(d, allowIncomplete, selected).0)
    case OtherDraft(taken, outputs) =>
      if Foreign(d, taken, outputs) then
        d.(tables := d.tables.(outputs := d.tables.outputs + outputs), nextId := d.nextId + taken)
      else d
    case Retype(n, wtype) =>
      if n < |d.tables.outputs| && d.tables.outputs[n].kind.WorkKind? then
        SetOutput(d, n, d.tables.outputs[n].(kind := WorkKind(wtype)))
      else d
    case DeleteNote(n) =>
      if n < |d.tables.outputs| && d.tables.outputs[n].kind.NoteKind? then
        SetOutput(d, n, d.tables.outputs[n].(source := None, deleted := true))
      else d
    case ChangeStatus(status) => if d.tables.status.DraftGone? || status.DraftGone? then d else d.(tables := d.tables.(status := status))
    case EditItem(k, item, ready) =>
      if Editable(d.tables.status) && k < |d.records| && d.records[k].readable && !item.dtype.DraftUnknown? then
        d.(tables := d.tables.(status := Assessed(ready)),
           records := d.records[k := d.records[k].(item := item.(dependencies := d.records[k].item.dependencies))])
      else d
    case ReplaceItems(items, ready) => if Editable(d.tables.status) then Replaced(d, Assessed(ready), items) else d
    case DeleteDraft => if Editable(d.tables.status) then Replaced(d, DraftGone, []) else d
  }

  function Afterwards(d: Desk, ls: seq<Later>): Desk
    decreases |ls|
  {
    if ls == [] then d else Afterwards(Happens(d, ls[0]), ls[1..])
  }

  /** What stays of the old outputs' sources: each stands or is gone; and the old items' are gone once new items came. */
  predicate Traces(d: Desk, e: Desk) {
    && d.nextId <= e.nextId && |d.tables.outputs| <= |e.tables.outputs|
    && (forall n :: 0 <= n < |d.tables.outputs| ==>
         e.tables.outputs[n].source == d.tables.outputs[n].source || e.tables.outputs[n].source.None?)
    && (Ids(e.records) == Ids(d.records) || NewItems(d, e))
  }

  predicate NewItems(d: Desk, e: Desk)
    requires |d.tables.outputs| <= |e.tables.outputs|
  {
    && (forall k :: 0 <= k < |e.records| ==> e.records[k].id >= d.nextId)
    && (forall n :: 0 <= n < |d.tables.outputs| && MadeFrom(d.tables.outputs[n], Ids(d.records)) ==> e.tables.outputs[n].source.None?)
  }

  lemma TracesOn(d: Desk, e: Desk, f: Desk)
    requires Traces(d, e) && Traces(e, f)
    ensures Traces(d, f)
  {
    if !(Ids(f.records) == Ids(d.records)) && Ids(f.records) == Ids(e.records) {
      forall k | 0 <= k < |f.records| ensures f.records[k].id >= d.nextId {
        assert f.records[k].id in Ids(e.records);
      }
    }
  }

  lemma ConversionTraces(d: Desk, allowIncomplete: bool, selected: Option<set<nat>>)
    requires Orderly(d)
    ensures var e := Happens(d, ConvertAgain(allowIncomplete, selected)); Orderly(e) && Traces(d, e)
  {
    hide Chosen, Relations, OutputsOf, HasOutput, OneOutputEach, ProperRecords, NoSelfRelation;
    ConvertedKeepsOneOutputEach(d.tables, d.records, allowIncomplete, selected);
    ChosenFrom(d.records, selected);
    var asked := Chosen(d.records, selected);
    assert forall k :: 0 <= k < |asked| ==> asked[k].id < d.nextId;
  }

  lemma ReplacementTraces(d: Desk, status: DraftStatus, items: seq<DraftItem>)
    requires Orderly(d)
    ensures Orderly(Replaced(d, status, items)) && Traces(d, Replaced(d, status, items))
  {}

  lemma HappensTraces(d: Desk, l: Later)
    requires Orderly(d)
    ensures Orderly(Happens(d, l)) && Traces(d, Happens(d, l))
  {
    match l
    case ConvertAgain(allowIncomplete, selected) => ConversionTraces(d, allowIncomplete, selected);
    case ReplaceItems(items, ready) => ReplacementTraces(d, Assessed(ready), items);
    case DeleteDraft => ReplacementTraces(d, DraftGone, []);
    case EditItem(k, item, ready) => EditTraces(d, k, item, ready);
    case _ =>
  }

  lemma EditTraces(d: Desk, k: nat, item: DraftItem, ready: bool)
    requires Orderly(d)
    ensures var e := Happens(d, EditItem(k, item, ready)); Orderly(e) && Traces(d, e)
  {
    var e := Happens(d, EditItem(k, item, ready));
    assert forall j :: 0 <= j < |d.records| ==> e.records[j].id == d.records[j].id && e.records[j].position == d.records[j].position;
    assert Ids(e.records) == Ids(d.records);
  }

  lemma {:induction false} AfterwardsTraces(d: Desk, ls: seq<Later>)
    requires Orderly(d)
    ensures Orderly(Afterwards(d, ls)) && Traces(d, Afterwards(d, ls))
    decreases |ls|
  {
    hide Happens, Orderly, Traces;
    if ls == [] {
      TracesItself(d);
    } else {
      HappensTraces(d, ls[0]);
      AfterwardsTraces(Happens(d, ls[0]), ls[1..]);
      TracesOn(d, Happens(d, ls[0]), Afterwards(d, ls));
    }
  }

  lemma TracesItself(d: Desk)
    ensures Traces(d, d)
  {}

  // ---------------------------------------------------------------- the repeat

  /** An output is left as one of the draft's, with the kind that its item's type calls for. */
  predicate Fits(d: Desk, n: nat) {
    exists k :: 0 <= k < |d.records| && OutputFor(d.tables.outputs, d.records[k], n)
  }

  lemma {:induction false} OutputsOfStand(before: seq<Output>, after: seq<Output>, ids: set<nat>)
    requires |before| <= |after|
    requires forall n :: 0 <= n < |before| ==> MadeFrom(after[n], ids) == MadeFrom(before[n], ids)
    requires forall n :: |before| <= n < |after| ==> !MadeFrom(after[n], ids)
    ensures OutputsOf(after, ids) == OutputsOf(before, ids)
    decreases |after|
  {
    if after != [] {
      var n := |after| - 1;
      if n < |before| {
        OutputsOfStand(before[..n], after[..n], ids);
      } else {
        OutputsOfStand(before, after[..n], ids);
      }
    }
  }

  lemma ChosenIds(records: seq<Record>, selected: Option<set<nat>>)
    ensures forall id :: id in Ids(Chosen(records, selected)) <==> id in Ids(records) && (selected.None? || id in selected.value)
  {
    hide Chosen;
    var asked := Chosen(records, selected);
    ChosenFrom(records, selected);
    forall k | 0 <= k < |asked| ensures asked[k].id in Ids(records) {
      var j :| 0 <= j < |records| && records[j] == asked[k];
    }
    forall k | 0 <= k < |records| && (selected.None? || records[k].id in selected.value) ensures records[k].id in Ids(asked) {
      var j :| 0 <= j < |asked| && asked[j] == records[k];
    }
  }

  /** A successful conversion leaves an orderly desk, and its outputs are those of the requested items. */
  lemma FirstConversion(d: Desk, allowIncomplete: bool, selected: Option<set<nat>>)
    requires Orderly(d) && Conversion(d, allowIncomplete, selected).1.Returned?
    ensures var r := Conversion(d, allowIncomplete, selected);
            var asked := Chosen(d.records, selected);
            && Orderly(d.(tables := r.0)) && r.1.outputs != [] && asked != [] && (selected.Some? ==> Ids(asked) == selected.value)
            && r.1.outputs == OutputsOf(r.0.outputs, Ids(asked))
            && (forall k :: 0 <= k < |asked| ==> HasOutput(r.0.outputs, asked[k]))
  {
    hide Chosen, Relations, OutputsOf, HasOutput, Orderly;
    ConversionTraces(d, allowIncomplete, selected);
    ConvertedIsAllOrNothing(d.tables, d.records, allowIncomplete, selected);
    ConversionIsIdempotent(d.tables, d.records, allowIncomplete, selected);
  }

  /** What was made from a requested item has lost its source, or the same items are requested again. */
  lemma SourceLeft(d: Desk, e: Desk, selected: Option<set<nat>>, n: nat)
    requires Orderly(d) && Traces(d, e) && n < |d.tables.outputs| && MadeFrom(d.tables.outputs[n], Ids(Chosen(d.records, selected)))
    ensures e.tables.outputs[n].source.Some? ==>
              && Ids(Chosen(e.records, selected)) == Ids(Chosen(d.records, selected))
              && e.tables.outputs[n].source == d.tables.outputs[n].source
  {
    hide Chosen, OneOutputEach, ProperRecords;
    ChosenIds(d.records, selected);
    ChosenIds(e.records, selected);
  }

  lemma AskedFits(d: Desk, selected: Option<set<nat>>, n: nat)
    requires Orderly(d) && AllLeft(d, selected) && n < |d.tables.outputs|
    requires MadeFrom(d.tables.outputs[n], Ids(Chosen(d.records, selected)))
    ensures Fits(d, n)
  {
    hide Chosen;
    var asked := Chosen(d.records, selected);
    ChosenFrom(d.records, selected);
    var k :| 0 <= k < |asked| && asked[k].id == d.tables.outputs[n].source.value;
    var m :| 0 <= m < |d.tables.outputs| && OutputFor(d.tables.outputs, asked[k], m);
    assert m == n;
    var j :| 0 <= j < |d.records| && d.records[j] == asked[k];
    assert OutputFor(d.tables.outputs, d.records[j], n);
  }

  /** A requested item whose one output fits has the output it should have. */
  lemma FittingIsLeft(d: Desk, record: Record, n: nat)
    requires Orderly(d) && record in d.records && Fits(d, n) && d.tables.outputs[n].source == Some(record.id)
    ensures HasOutput(d.tables.outputs, record)
  {
    var k :| 0 <= k < |d.records| && OutputFor(d.tables.outputs, d.records[k], n);
    assert d.records[k] == record;
  }

  lemma FitsIsThere(d: Desk, n: nat)
    requires Fits(d, n)
    ensures n < |d.tables.outputs| && d.tables.outputs[n].source.Some?
  {}

  /** While all outputs of a conversion still fit, they are what its repeat finds. */
  lemma AllAreFound(d: Desk, e: Desk, selected: Option<set<nat>>)
    requires Orderly(d) && Orderly(e) && Traces(d, e) && Chosen(d.records, selected) != []
    requires var asked := Chosen(d.records, selected); forall k :: 0 <= k < |asked| ==> HasOutput(d.tables.outputs, asked[k])
    requires forall n :: n in OutputsOf(d.tables.outputs, Ids(Chosen(d.records, selected))) ==> Fits(e, n)
    ensures Ids(Chosen(e.records, selected)) == Ids(Chosen(d.records, selected)) && Chosen(e.records, selected) != []
    ensures OutputsOf(e.tables.outputs, Ids(Chosen(e.records, selected))) == OutputsOf(d.tables.outputs, Ids(Chosen(d.records, selected)))
    ensures AllLeft(e, selected)
  {
    hide Chosen, OutputsOf, Fits, Orderly, Traces, HasOutput;
    var asked, again := Chosen(d.records, selected), Chosen(e.records, selected);
    var ids := Ids(asked);
    OutputsOfAre(d.tables.outputs, ids);
    TracesGrow(d, e);
    forall n | 0 <= n < |d.tables.outputs| && MadeFrom(d.tables.outputs[n], ids)
      ensures Fits(e, n) && Ids(again) == ids && e.tables.outputs[n].source == d.tables.outputs[n].source
    {
      assert n in OutputsOf(d.tables.outputs, ids);
      FitsIsThere(e, n);
      SourceLeft(d, e, selected, n);
    }
    forall k | 0 <= k < |asked|
      ensures exists n :: 0 <= n < |d.tables.outputs| && d.tables.outputs[n].source == Some(asked[k].id) && MadeFrom(d.tables.outputs[n], ids)
    {
      var n := OutputOf(d.tables.outputs, asked[k]);
      assert asked[k].id in ids;
    }
    var k0 := asked[0];
    assert k0.id in Ids(again);
    forall n | |d.tables.outputs| <= n < |e.tables.outputs| ensures !MadeFrom(e.tables.outputs[n], ids) {
      NoSecondOutput(d, e, asked, n);
    }
    OutputsOfStand(d.tables.outputs, e.tables.outputs, ids);
    ChosenFrom(e.records, selected);
    forall k | 0 <= k < |again| ensures HasOutput(e.tables.outputs, again[k]) {
      assert again[k].id in ids;
      var j :| 0 <= j < |asked| && asked[j].id == again[k].id;
      var n := OutputOf(d.tables.outputs, asked[j]);
      assert MadeFrom(d.tables.outputs[n], ids);
      FittingIsLeft(e, again[k], n);
    }
  }

  lemma TracesGrow(d: Desk, e: Desk)
    requires Traces(d, e)
    ensures |d.tables.outputs| <= |e.tables.outputs|
    ensures forall n :: 0 <= n < |d.tables.outputs| ==>
              e.tables.outputs[n].source == d.tables.outputs[n].source || e.tables.outputs[n].source.None?
  {}

  lemma OutputOf(outputs: seq<Output>, record: Record) returns (n: nat)
    requires HasOutput(outputs, record)
    ensures n < |outputs| && outputs[n].source == Some(record.id)
  {
    n :| 0 <= n < |outputs| && OutputFor(outputs, record, n);
  }

  lemma NoSecondOutput(d: Desk, e: Desk, asked: seq<Record>, n: nat)
    requires Orderly(e) && |d.tables.outputs| <= n < |e.tables.outputs|
    requires forall k :: 0 <= k < |asked| ==>
               exists m :: 0 <= m < |d.tables.outputs| && d.tables.outputs[m].source == Some(asked[k].id)
                           && MadeFrom(d.tables.outputs[m], Ids(asked))
    requires forall m :: 0 <= m < |d.tables.outputs| && MadeFrom(d.tables.outputs[m], Ids(asked)) ==>
               e.tables.outputs[m].source == d.tables.outputs[m].source
    ensures !MadeFrom(e.tables.outputs[n], Ids(asked))
  {
    forall k | 0 <= k < |asked| ensures e.tables.outputs[n].source != Some(asked[k].id) {
      var m :| 0 <= m < |d.tables.outputs| && d.tables.outputs[m].source == Some(asked[k].id) && MadeFrom(d.tables.outputs[m], Ids(asked));
      assert e.tables.outputs[m].source != e.tables.outputs[n].source;
    }
  }

  /** Repeating a successful conversion, after anything that may happen in between. It returns the same outputs, and
      changes none, exactly if the draft may be converted and each of them is left as one of its items' outputs, with the
      kind that the item's type calls for. It makes new ones only when every one of the old has lost its item or was
      deleted, and then exactly if no requested item has an output and all can be made. It refuses as partly stored
      exactly if some requested items have an output and not all have their own. */
  lemma RepeatAfterwards(d: Desk, allowIncomplete: bool, selected: Option<set<nat>>, ls: seq<Later>, allowAgain: bool)
    requires Orderly(d) && Conversion(d, allowIncomplete, selected).1.Returned?
    ensures var r := Conversion(d, allowIncomplete, selected);
            var later := Afterwards(d.(tables := r.0), ls);
            var again := Conversion(later, allowAgain, selected);
            && (forall n :: n in r.1.outputs ==> n < |later.tables.outputs|)
            && (again.1 == r.1 <==> Admits(later.tables.status, allowAgain) && forall n :: n in r.1.outputs ==> Fits(later, n))
            && (again.1 == r.1 ==> again.0.outputs == later.tables.outputs && again.0.edges == later.tables.edges)
            && (again.0.outputs != later.tables.outputs <==>
                  Found(later, allowAgain, selected) && NoneLeft(later, selected) && Makeable(later, selected))
            && (again.0.outputs != later.tables.outputs ==> forall n :: n in r.1.outputs ==> later.tables.outputs[n].source.None?)
            && (again.1 == Rejected(PartiallyStored) <==>
                  Found(later, allowAgain, selected) && !NoneLeft(later, selected) && !AllLeft(later, selected))
  {
    hide Conversion, Orderly, Traces, Fits, Found, NoneLeft, AllLeft, Makeable, Chosen, OutputsOf, HasOutput;
    var r := Conversion(d, allowIncomplete, selected);
    var first := d.(tables := r.0);
    var later := Afterwards(first, ls);
    var again := Conversion(later, allowAgain, selected);
    FirstConversion(d, allowIncomplete, selected);
    AfterwardsTraces(first, ls);
    TracesGrow(first, later);
    TablesDecide(later, allowAgain, selected);
    OutputsOfAre(r.0.outputs, Ids(Chosen(d.records, selected)));
    if Admits(later.tables.status, allowAgain) && forall n :: n in r.1.outputs ==> Fits(later, n) {
      AllAreFound(first, later, selected);
      FindsStored(later, allowAgain, selected);
    }
    assert r.1.outputs[0] in r.1.outputs;
    if again.1 == r.1 {
      SameIsStored(later, |r.0.outputs|, allowAgain, selected);
    }
    if again.0.outputs != later.tables.outputs {
      forall n | n in r.1.outputs ensures later.tables.outputs[n].source.None? {
        SourceLeft(first, later, selected, n);
        NoneIsMadeFrom(later, selected, n);
      }
    }
  }

  lemma FindsStored(d: Desk, allowIncomplete: bool, selected: Option<set<nat>>)
    requires Orderly(d) && AllLeft(d, selected) && Admits(d.tables.status, allowIncomplete)
    requires var asked := Chosen(d.records, selected); asked != [] && (selected.Some? ==> Ids(asked) == selected.value)
    ensures Conversion(d, allowIncomplete, selected).1 == Returned(OutputsOf(d.tables.outputs, Ids(Chosen(d.records, selected))))
    ensures Conversion(d, allowIncomplete, selected).0.edges == d.tables.edges
  {
    hide Chosen, OutputsOf, HasOutput, HasSome, Orderly, Relations;
    TablesDecide(d, allowIncomplete, selected);
  }

  /** An answer with an output that was there before returns stored outputs only, and all of them fit. */
  lemma SameIsStored(d: Desk, known: nat, allowIncomplete: bool, selected: Option<set<nat>>)
    requires Orderly(d) && known <= |d.tables.outputs|
    requires var r := Conversion(d, allowIncomplete, selected); r.1.Returned? && r.1.outputs != [] && r.1.outputs[0] < known
    ensures var r := Conversion(d, allowIncomplete, selected);
            && r.0.outputs == d.tables.outputs && r.0.edges == d.tables.edges && Admits(d.tables.status, allowIncomplete)
            && forall n :: n in r.1.outputs ==> Fits(d, n)
  {
    hide Chosen, OutputsOf, HasOutput, HasSome, Orderly, Relations, Fits, AllLeft, NoneLeft;
    TablesDecide(d, allowIncomplete, selected);
    var r := Conversion(d, allowIncomplete, selected);
    OutputsOfAre(d.tables.outputs, Ids(Chosen(d.records, selected)));
    forall n | n in r.1.outputs ensures Fits(d, n) {
      AskedFits(d, selected, n);
    }
  }

  lemma NoneIsMadeFrom(d: Desk, selected: Option<set<nat>>, n: nat)
    requires NoneLeft(d, selected) && n < |d.tables.outputs|
    ensures !MadeFrom(d.tables.outputs[n], Ids(Chosen(d.records, selected)))
  {
    hide Chosen;
    var asked := Chosen(d.records, selected);
    forall k | 0 <= k < |asked| ensures d.tables.outputs[n].source != Some(asked[k].id) {
      assert !HasSome(d.tables.outputs, asked[k]);
    }
  }

  // ---------------------------------------------------------------- the cases happen

  function Plain(dtype: DraftType, title: string): DraftItem {
    DraftItem(dtype, title, None, None, None, [], [], [], [], [], [], 0.9)
  }

  function Ready(items: seq<DraftItem>): Desk {
    Desk(Tables(DraftReady, [], []), Analysed(items, Fresh(0, |items|)), |items|)
  }

  /** A confirmed note that was deleted is made again by a repeated confirmation. */
  lemma DeletedNoteIsMadeAgain()
    ensures var d := Ready([Plain(DraftNote, "n")]);
            var r := Conversion(d, false, None);
            var again := Conversion(Afterwards(d.(tables := r.0), [DeleteNote(0)]), false, None);
            && Orderly(d) && r.1 == Returned([0]) && again.1 == Returned([1])
            && again.0.outputs == [Output(None, NoteKind, true), Output(Some(0), NoteKind, false)]
  {
  }

  lemma {:induction false} OneMade(outputs: seq<Output>, id: nat, item: DraftItem, nextId: nat)
    requires OutputsOf(outputs, {id}) == [] && !item.dtype.DraftUnknown? && item.dependencies == []
    ensures Conversion(Desk(Tables(DraftReady, outputs, []), [Record(id, 1, item, true)], nextId), false, None)
         == (Tables(DraftConfirmed, outputs + [Output(Some(id), KindFor(item.dtype).value, false)], []), Returned([|outputs|]))
  {
    var asked := [Record(id, 1, item, true)];
    assert Chosen(asked, None) == asked by {
      assert Chosen(asked[1..], None) == [];
    }
    IdsOfOne(asked[0]);
    assert Relations(asked, |outputs|) == [];
    assert NewOutputs(asked) == [Output(Some(id), KindFor(item.dtype).value, false)];
    var r := Conversion(Desk(Tables(DraftReady, outputs, []), asked, nextId), false, None);
    assert r.1.Returned? && r.1.outputs == [|outputs|] && r.0.edges == [] && r.0.status.DraftConfirmed?;
  }

  lemma IdsOfOne(record: Record)
    ensures Ids([record]) == {record.id}
  {
    assert [record][0] == record;
  }

  lemma RecoveredAndChanged(task: DraftItem, made: Output, orphan: Output)
    requires made.source == Some(0) && orphan == made.(source := None)
    ensures var e := Desk(Tables(DraftConfirmed, [made], []), [Record(0, 1, task, true)], 1);
            Afterwards(e, [ChangeStatus(DraftReady), ChangeStatus(DraftNeedsClarification), ReplaceItems([task], true)])
              == Desk(Tables(DraftReady, [orphan], []), [Record(1, 1, task, true)], 2)
  {
    hide Conversion, ProperRecords, OneOutputEach, Foreign;
    var e := Desk(Tables(DraftConfirmed, [made], []), [Record(0, 1, task, true)], 1);
    var open := e.(tables := e.tables.(status := DraftNeedsClarification));
    var ls := [ChangeStatus(DraftReady), ChangeStatus(DraftNeedsClarification), ReplaceItems([task], true)];
    assert Released([made], {0}) == [orphan];
    IdsOfOne(Record(0, 1, task, true));
    assert Analysed([task], Fresh(1, 1)) == [Record(1, 1, task, true)];
    assert Happens(open, ls[2]) == Desk(Tables(DraftReady, [orphan], []), [Record(1, 1, task, true)], 2);
    assert ls[1..][1..] == [ls[2]] && [ls[2]][1..] == [];
    assert Afterwards(open, [ls[2]]) == Happens(open, ls[2]);
  }

  /** A confirmed task whose draft is recovered, changed and confirmed again exists twice. */
  lemma RecoveredTaskIsMadeTwice()
    ensures var task := Plain(DraftTask, "t");
            var d := Ready([task]);
            var r := Conversion(d, false, None);
            var ls := [ChangeStatus(DraftReady), ChangeStatus(DraftNeedsClarification), ReplaceItems([task], true)];
            var again := Conversion(Afterwards(d.(tables := r.0), ls), false, None);
            && Orderly(d) && r.1 == Returned([0]) && again.1 == Returned([1])
            && again.0.outputs == [Output(None, WorkKind(WorkItemType.Task), false), Output(Some(1), WorkKind(WorkItemType.Task), false)]
  {
    hide Conversion, Afterwards;
    var task := Plain(DraftTask, "t");
    var made, orphan := Output(Some(0), WorkKind(WorkItemType.Task), false), Output(None, WorkKind(WorkItemType.Task), false);
    assert Ready([task]).records == [Record(0, 1, task, true)];
    OneMade([], 0, task, 1);
    assert [] + [made] == [made];
    RecoveredAndChanged(task, made, orphan);
    assert [orphan] + [Output(Some(1), made.kind, false)] == [orphan, Output(Some(1), made.kind, false)];
    OutputsOfNone([orphan], {1});
    OneMade([orphan], 1, task, 2);
  }

  /** Where the note that is gone had a task beside it, the repeat is refused. */
  lemma DeletedNoteBlocks()
    ensures var d := Ready([Plain(DraftNote, "n"), Plain(DraftTask, "t")]);
            var r := Conversion(d, false, None);
            && Orderly(d) && r.1 == Returned([0, 1])
            && Conversion(Afterwards(d.(tables := r.0), [DeleteNote(0)]), false, None).1 == Rejected(PartiallyStored)
  {
    hide Conversion, Chosen, HasOutput, OutputsOf, NoneLeft, AllLeft;
    var note, task := Plain(DraftNote, "n"), Plain(DraftTask, "t");
    var made := [Output(Some(0), NoteKind, false), Output(Some(1), WorkKind(WorkItemType.Task), false)];
    var left := [Output(None, NoteKind, true), made[1]];
    var records := [Record(0, 1, note, true), Record(1, 2, task, true)];
    assert Ready([note, task]).records == records;
    TwoMade(note, task);
    assert made[0 := left[0]] == left && [DeleteNote(0)][1..] == [];
    var later := Desk(Tables(DraftConfirmed, left, []), records, 2);
    assert Happens(Desk(Tables(DraftConfirmed, made, []), records, 2), DeleteNote(0)) == later;
    assert Afterwards(Desk(Tables(DraftConfirmed, made, []), records, 2), [DeleteNote(0)]) == later;
    TablesDecide(later, false, None);
    AskedAll(records);
    assert HasSome(left, records[1]) by {
      assert left[1].source == Some(records[1].id);
    }
    assert !HasOutput(left, records[0]) by {
      NoOutput(left, records[0]);
    }
    SomeLeft(later, records);
  }

  lemma AskedAll(records: seq<Record>)
    ensures Chosen(records, None) == records
  {}

  lemma NoOutput(outputs: seq<Output>, record: Record)
    requires forall n :: 0 <= n < |outputs| ==> outputs[n].source != Some(record.id)
    ensures !HasOutput(outputs, record)
  {}

  lemma SomeLeft(d: Desk, records: seq<Record>)
    requires Chosen(d.records, None) == records && |records| == 2
    requires HasSome(d.tables.outputs, records[1]) && !HasOutput(d.tables.outputs, records[0])
    ensures !NoneLeft(d, None) && !AllLeft(d, None)
  {}

  lemma TwoMade(note: DraftItem, task: DraftItem)
    requires note.dtype.DraftNote? && task.dtype.DraftTask? && task.dependencies == []
    ensures Conversion(Desk(Tables(DraftReady, [], []), [Record(0, 1, note, true), Record(1, 2, task, true)], 2), false, None)
         == (Tables(DraftConfirmed, [Output(Some(0), NoteKind, false), Output(Some(1), WorkKind(WorkItemType.Task), false)], []),
             Returned([0, 1]))
  {
    var asked := [Record(0, 1, note, true), Record(1, 2, task, true)];
    AskedAll(asked);
    assert OutputsOf([], Ids(asked)) == [];
    assert WithRecords([], asked, 0, 1) == [] && WithRecords([], asked, 0, 2) == WithRecords([], asked, 0, 1);
    assert NewOutputs(asked) == [Output(Some(0), NoteKind, false), Output(Some(1), WorkKind(WorkItemType.Task), false)];
    var r := Conversion(Desk(Tables(DraftReady, [], []), asked, 2), false, None);
    assert r.1.Returned? && r.1.outputs == [0, 1] && r.0.outputs == NewOutputs(asked) && r.0.edges == [];
  }
}
