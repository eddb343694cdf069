/** Deduplication of the items a provider proposed, with their dependencies renumbered. */
module DraftItems {
  import opened Core
  import opened DraftText

  datatype DraftType = DraftTask | DraftFollowUp | DraftWaiting | DraftQuestion | DraftNote | DraftDecision | DraftAgendaItem | DraftUnknown

  datatype Relation = Before | After | BlockedBy | WaitingFor | Conditional

  /** A dependency as the provider states it; targets are item numbers, counted from one. */
  datatype Dependency = Dependency(relation: Relation, phrase: string, target: Option<nat>, condition: Option<string>)

  datatype Resolution = Resolved | Ambiguous | Invalid

  /** A date mentioned in the text; a value is in seconds of the user's wall clock. */
  datatype Temporal = Temporal(status: Resolution, phrase: string, value: Option<int>, timeExplicit: bool)

  datatype DraftItem = DraftItem(
    dtype: DraftType,
    title: string,
    description: Option<string>,
    due: Option<Temporal>,
    reminder: Option<Temporal>,
    people: seq<string>,
    topics: seq<string>,
    notes: seq<string>,
    missing: seq<string>,
    ambiguities: seq<string>,
    dependencies: seq<Dependency>,
    confidence: real)

  /** What the provider's schema guarantees of one dependency and of one description. */
  predicate WellFormed(item: DraftItem) {
    forall k :: 0 <= k < |item.dependencies| ==>
      var d := item.dependencies[k];
      if d.relation.Conditional? then d.condition.Some? && Words(d.condition.value) != [] else d.target.Some?
  }

  predicate TargetsWithin(dependencies: seq<Dependency>, count: nat) {
    forall k :: 0 <= k < |dependencies| && dependencies[k].target.Some? ==> 1 <= dependencies[k].target.value <= count
  }

  predicate TargetsIn(item: DraftItem, count: nat) {
    TargetsWithin(item.dependencies, count)
  }

  predicate ProperItems(items: seq<DraftItem>) {
    forall n :: 0 <= n < |items| ==> WellFormed(items[n]) && TargetsIn(items[n], |items|)
  }

  /** ... and it rejects an item that depends on itself. */
  predicate NoSelfDependency(items: seq<DraftItem>) {
    forall n, k :: 0 <= n < |items| && 0 <= k < |items[n].dependencies| ==> items[n].dependencies[k].target != Some(n + 1)
  }

  // ---------------------------------------------------------------- one item

  /** A due date without a time means the end of its day. */
  function NormalizedDue(item: DraftItem): DraftItem {
    if item.due.Some? && item.due.value.status.Resolved? && !item.due.value.timeExplicit && item.due.value.value.Some? then
      var value := item.due.value.value.value;
      item.(due := Some(item.due.value.(value := Some(value - value % DAY_SECONDS + DAY_SECONDS - 1))))
    else item
  }

  const CONDITION_LABEL := "Условие:"

  function Labelled(condition: string): string {
    CONDITION_LABEL + (" " + condition)
  }

  predicate External(d: Dependency) {
    d.relation.Conditional? && d.target.None? && d.condition.Some?
  }

  function Conditions(dependencies: seq<Dependency>): seq<string> {
    if dependencies == [] then []
    else (if External(dependencies[0]) then [dependencies[0].condition.value] else []) + Conditions(dependencies[1..])
  }

  function Additions(conditions: seq<string>, current: string, fold: Folding): seq<string> {
    if conditions == [] then []
    else
      (if Occurs(Normalized(Some(Labelled(conditions[0])), fold), current) then [] else [Labelled(conditions[0])]) +
      Additions(conditions[1..], current, fold)
  }

  function Described(description: Option<string>): seq<string> {
    if description.Some? && Words(description.value) != [] then [description.value] else []
  }

  /** Conditions that depend on no other item are copied into the description, unless they are there already. */
  function Materialized(item: DraftItem, fold: Folding): DraftItem {
    var additions := Additions(Unique(Conditions(item.dependencies), {}, fold), Normalized(item.description, fold), fold);
    if additions == [] then item
    else item.(description := Some(Paragraphs(Described(item.description) + additions)))
  }

  function Prepared(item: DraftItem, fold: Folding): DraftItem {
    Materialized(NormalizedDue(item), fold)
  }

  datatype TemporalKey = TemporalKey(status: Resolution, value: Option<int>, phrase: Option<string>)

  function KeyOfTemporal(t: Option<Temporal>, fold: Folding): Option<TemporalKey> {
    if t.None? then None
    else Some(TemporalKey(t.value.status, t.value.value,
                          if t.value.value.None? then Some(Normalized(Some(t.value.phrase), fold)) else None))
  }

  datatype Key = Key(dtype: DraftType, title: string, description: string, due: Option<TemporalKey>, reminder: Option<TemporalKey>)

  function KeyOf(item: DraftItem, fold: Folding): Key {
    Key(item.dtype, Normalized(Some(item.title), fold), Normalized(item.description, fold),
        KeyOfTemporal(item.due, fold), KeyOfTemporal(item.reminder, fold))
  }

  function Merged(first: DraftItem, second: DraftItem, fold: Folding): DraftItem {
    first.(people := Unique(first.people + second.people, {}, fold),
           topics := Unique(first.topics + second.topics, {}, fold),
           notes := Unique(first.notes + second.notes, {}, fold),
           missing := Unique(first.missing + second.missing, {}, fold),
           ambiguities := Unique(first.ambiguities + second.ambiguities, {}, fold),
           dependencies := first.dependencies + second.dependencies,
           confidence := if second.confidence < first.confidence then second.confidence else first.confidence)
  }

  // ---------------------------------------------------------------- all items

  /** The items kept so far, and for each input the number of the kept item that stands for it. */
  datatype Merging = Merging(kept: seq<DraftItem>, numbers: seq<nat>)

  function KeyAt(kept: seq<DraftItem>, key: Key, fold: Folding): (n: nat)
    ensures n <= |kept|
    ensures n < |kept| ==> KeyOf(kept[n], fold) == key
    ensures forall m :: 0 <= m < n ==> KeyOf(kept[m], fold) != key
  {
    if kept == [] || KeyOf(kept[0], fold) == key then 0 else 1 + KeyAt(kept[1..], key, fold)
  }

  function Absorb(m: Merging, raw: DraftItem, fold: Folding): Merging {
    var item := Prepared(raw, fold);
    var n := KeyAt(m.kept, KeyOf(item, fold), fold);
    if n == |m.kept| then Merging(m.kept + [item], m.numbers + [n + 1])
    else Merging(m.kept[n := Merged(m.kept[n], item, fold)], m.numbers + [n + 1])
  }

  function AbsorbAll(items: seq<DraftItem>, fold: Folding): Merging
    decreases |items|
  {
    if items == [] then Merging([], []) else Absorb(AbsorbAll(items[..|items| - 1], fold), items[|items| - 1], fold)
  }

  function Remapped(d: Dependency, numbers: seq<nat>): Dependency
    requires d.target.Some? ==> 1 <= d.target.value <= |numbers|
  {
    if d.target.Some? then d.(target := Some(numbers[d.target.value - 1])) else d
  }

  datatype DependencyKey = DependencyKey(relation: Relation, target: Option<nat>, phrase: string, condition: string)

  function KeyOfDependency(d: Dependency, fold: Folding): DependencyKey {
    DependencyKey(d.relation, d.target, Normalized(Some(d.phrase), fold), Normalized(d.condition, fold))
  }

  /** Dependencies renumbered, without those an item has come to have on itself and without repetition. */
  function RemappedAll(dependencies: seq<Dependency>, number: nat, numbers: seq<nat>, seen: set<DependencyKey>, fold: Folding): seq<Dependency>
    requires TargetsWithin(dependencies, |numbers|)
    decreases |dependencies|
  {
    if dependencies == [] then []
    else
      var d := Remapped(dependencies[0], numbers);
      var key := KeyOfDependency(d, fold);
      if d.target == Some(number) || key in seen then RemappedAll(dependencies[1..], number, numbers, seen, fold)
      else [d] + RemappedAll(dependencies[1..], number, numbers, seen + {key}, fold)
  }

  function RemappedItem(item: DraftItem, number: nat, numbers: seq<nat>, fold: Folding): DraftItem
    requires TargetsIn(item, |numbers|)
  {
    item.(dependencies := RemappedAll(item.dependencies, number, numbers, {}, fold))
  }

  function RemappedItems(kept: seq<DraftItem>, numbers: seq<nat>, fold: Folding): (r: seq<DraftItem>)
    requires forall n :: 0 <= n < |kept| ==> TargetsIn(kept[n], |numbers|)
    ensures |r| == |kept|
  {
    seq(|kept|, n requires 0 <= n < |kept| => RemappedItem(kept[n], n + 1, numbers, fold))
  }

  // ---------------------------------------------------------------- what merging keeps

  predicate DueNormal(item: DraftItem) {
    NormalizedDue(item) == item
  }

  /** Every external condition is spelled out in the description. */
  predicate Settled(item: DraftItem, fold: Folding) {
    forall k :: 0 <= k < |item.dependencies| && External(item.dependencies[k]) ==>
      Occurs(Normalized(Some(Labelled(item.dependencies[k].condition.value)), fold), Normalized(item.description, fold))
  }

  /** The inputs that a kept item stands for. */
  predicate StandsFor(m: Merging, n: nat, k: nat) {
    k < |m.numbers| && m.numbers[k] == n + 1
  }

  predicate FirstOfItsKind(items: seq<DraftItem>, k: nat, fold: Folding)
    requires k < |items|
  {
    forall j :: 0 <= j < k ==> KeyOf(Prepared(items[j], fold), fold) != KeyOf(Prepared(items[k], fold), fold)
  }

  /** A dependency of a kept item comes from an input it stands for. */
  predicate Inherited(m: Merging, items: seq<DraftItem>, n: nat, d: Dependency) {
    exists k :: 0 <= k < |items| && StandsFor(m, n, k) && d in items[k].dependencies
  }

  predicate HasInput(m: Merging, n: nat) {
    exists k :: 0 <= k < |m.numbers| && StandsFor(m, n, k)
  }

  predicate KeysDiffer(kept: seq<DraftItem>, fold: Folding) {
    forall i, j :: 0 <= i < j < |kept| ==> KeyOf(kept[i], fold) != KeyOf(kept[j], fold)
  }

  predicate KindsMatch(m: Merging, items: seq<DraftItem>, fold: Folding) {
    && |m.numbers| == |items|
    && forall k :: 0 <= k < |items| ==>
         1 <= m.numbers[k] <= |m.kept| && KeyOf(m.kept[m.numbers[k] - 1], fold) == KeyOf(Prepared(items[k], fold), fold)
  }

  predicate InOrder(m: Merging, items: seq<DraftItem>, fold: Folding)
    requires |m.numbers| == |items|
  {
    forall j, k :: 0 <= j < k < |items| && FirstOfItsKind(items, k, fold) ==> m.numbers[j] < m.numbers[k]
  }

  predicate EachHasInput(m: Merging) {
    forall n :: 0 <= n < |m.kept| ==> HasInput(m, n)
  }

  predicate Numbered(m: Merging, items: seq<DraftItem>, fold: Folding) {
    KindsMatch(m, items, fold) && KeysDiffer(m.kept, fold) && InOrder(m, items, fold) && EachHasInput(m)
  }

  ghost predicate Complete(m: Merging, items: seq<DraftItem>, fold: Folding) {
    && (forall n :: 0 <= n < |m.kept| ==> Settled(m.kept[n], fold) && DueNormal(m.kept[n]))
    && (forall n, d :: 0 <= n < |m.kept| ==> (d in m.kept[n].dependencies <==> Inherited(m, items, n, d)))
  }

  lemma LabelledWords(condition: string)
    ensures Words(Labelled(condition)) == Words(CONDITION_LABEL) + Words(condition)
    ensures Words(CONDITION_LABEL) != [] && Words(Labelled(condition)) != []
  {
    WordsAcrossSpace(CONDITION_LABEL, ' ', condition);
    assert " " + condition == [' '] + condition;
    assert CONDITION_LABEL[0] == 'У' && !IsSpace('У');
  }

  lemma LabelledAlike(a: string, b: string, fold: Folding)
    requires Normalized(Some(a), fold) == Normalized(Some(b), fold) && Words(a) != [] && Words(b) != []
    ensures Normalized(Some(Labelled(a)), fold) == Normalized(Some(Labelled(b)), fold)
  {
    LabelledWords(a);
    LabelledWords(b);
    FoldedJoinSplits(Words(CONDITION_LABEL), Words(a), fold);
    FoldedJoinSplits(Words(CONDITION_LABEL), Words(b), fold);
  }

  lemma {:induction false} ConditionsAre(dependencies: seq<Dependency>)
    ensures forall k :: 0 <= k < |dependencies| && External(dependencies[k]) ==> dependencies[k].condition.value in Conditions(dependencies)
    ensures forall c :: c in Conditions(dependencies) ==>
              exists k :: 0 <= k < |dependencies| && External(dependencies[k]) && dependencies[k].condition.value == c
    decreases |dependencies|
  {
    if dependencies != [] {
      ConditionsAre(dependencies[1..]);
      forall c | c in Conditions(dependencies)
        ensures exists k :: 0 <= k < |dependencies| && External(dependencies[k]) && dependencies[k].condition.value == c
      {
        if c in Conditions(dependencies[1..]) {
          var k :| 0 <= k < |dependencies[1..]| && External(dependencies[1..][k]) && dependencies[1..][k].condition.value == c;
          assert dependencies[k + 1] == dependencies[1..][k];
        } else {
          assert External(dependencies[0]);
        }
      }
      forall k | 0 <= k < |dependencies| && External(dependencies[k]) ensures dependencies[k].condition.value in Conditions(dependencies) {
        if k > 0 {
          assert dependencies[k] == dependencies[1..][k - 1];
        }
      }
    }
  }

  lemma {:induction false} AdditionsAre(conditions: seq<string>, current: string, fold: Folding)
    ensures forall i :: 0 <= i < |conditions| ==>
              Occurs(Normalized(Some(Labelled(conditions[i])), fold), current) || Labelled(conditions[i]) in Additions(conditions, current, fold)
    ensures (forall i :: 0 <= i < |conditions| ==> Occurs(Normalized(Some(Labelled(conditions[i])), fold), current)) ==>
              Additions(conditions, current, fold) == []
    decreases |conditions|
  {
    hide Normalized, Occurs, Labelled;
    if conditions != [] {
      AdditionsAre(conditions[1..], current, fold);
      assert forall i :: 0 < i < |conditions| ==> conditions[i] == conditions[1..][i - 1];
    }
  }

  lemma ConditionIsRepresented(item: DraftItem, c: string, fold: Folding) returns (j: nat)
    requires WellFormed(item) && c in Conditions(item.dependencies)
    ensures var conditions := Unique(Conditions(item.dependencies), {}, fold);
            && j < |conditions| && conditions[j] in Conditions(item.dependencies)
            && Normalized(Some(conditions[j]), fold) == Normalized(Some(c), fold)
  {
    hide Normalized, Unique, Conditions, WellFormed;
    var conditions := Unique(Conditions(item.dependencies), {}, fold);
    var i :| 0 <= i < |Conditions(item.dependencies)| && Conditions(item.dependencies)[i] == c;
    UniqueIs(Conditions(item.dependencies), {}, fold);
    assert Said(conditions, Conditions(item.dependencies)[i], fold);
    j :| 0 <= j < |conditions| && Normalized(Some(conditions[j]), fold) == Normalized(Some(c), fold);
  }

  lemma AdditionIsSpelled(description: Option<string>, additions: seq<string>, condition: string, fold: Folding)
    requires Labelled(condition) in additions
    ensures Occurs(Normalized(Some(Labelled(condition)), fold), Normalized(Some(Paragraphs(Described(description) + additions)), fold))
  {
    hide Normalized, Occurs, Paragraphs, Labelled, Words;
    LabelledWords(condition);
    var k :| 0 <= k < |additions| && additions[k] == Labelled(condition);
    var at := |Described(description)| + k;
    assert (Described(description) + additions)[at] == Labelled(condition);
    ParagraphOccurs(Described(description) + additions, at, fold);
  }

  /** A condition that is represented among the unique ones ends up in the description. */
  lemma ConditionIsSpelled(item: DraftItem, c: string, fold: Folding)
    requires WellFormed(item) && c in Conditions(item.dependencies)
    ensures Occurs(Normalized(Some(Labelled(c)), fold), Normalized(Materialized(item, fold).description, fold))
  {
    hide Normalized, Words, Labelled, Unique, Paragraphs, Occurs, Conditions, WellFormed, Additions, Described;
    var conditions := Unique(Conditions(item.dependencies), {}, fold);
    var j := ConditionIsRepresented(item, c, fold);
    ConditionsAreWords(item, c);
    ConditionsAreWords(item, conditions[j]);
    LabelledAlike(conditions[j], c, fold);
    var additions := Additions(conditions, Normalized(item.description, fold), fold);
    AdditionsAre(conditions, Normalized(item.description, fold), fold);
    if Labelled(conditions[j]) in additions {
      AdditionIsSpelled(item.description, additions, conditions[j], fold);
    } else if additions != [] {
      OccursInText(Normalized(Some(Labelled(conditions[j])), fold), item.description, additions, conditions[j], fold);
    }
  }

  lemma ConditionsAreWords(item: DraftItem, c: string)
    requires WellFormed(item) && c in Conditions(item.dependencies)
    ensures Words(c) != []
  {
    hide Words;
    ConditionsAre(item.dependencies);
  }

  /** What occurs in the old description occurs in the extended one. */
  lemma OccursInText(part: string, description: Option<string>, additions: seq<string>, condition: string, fold: Folding)
    requires part == Normalized(Some(Labelled(condition)), fold) && Occurs(part, Normalized(description, fold))
    ensures Occurs(part, Normalized(Some(Paragraphs(Described(description) + additions)), fold))
  {
    if description.Some? && Words(description.value) != [] {
      ParagraphOccurs(Described(description) + additions, 0, fold);
      OccursIsTransitive(part, Normalized(description, fold), Normalized(Some(Paragraphs(Described(description) + additions)), fold));
    } else {
      assert OccursAt("", Normalized(Some(Paragraphs(Described(description) + additions)), fold), 0);
    }
  }

  /** Preparing an item settles it and touches nothing but its date and description. */
  lemma PreparedIs(raw: DraftItem, fold: Folding)
    requires WellFormed(raw)
    ensures var item := Prepared(raw, fold);
            && Settled(item, fold) && DueNormal(item) && item.dependencies == raw.dependencies
            && item == raw.(due := item.due, description := item.description)
  {
    hide Normalized, Labelled, Occurs, Unique, Additions, Paragraphs, Conditions;
    var dated := NormalizedDue(raw);
    ConditionsAre(raw.dependencies);
    forall k | 0 <= k < |raw.dependencies| && External(raw.dependencies[k])
      ensures Occurs(Normalized(Some(Labelled(raw.dependencies[k].condition.value)), fold), Normalized(Prepared(raw, fold).description, fold))
    {
      ConditionIsSpelled(dated, raw.dependencies[k].condition.value, fold);
    }
  }

  /** What preparing tells: a due date resolved to a day without a time means the last second of that day, and the
      description goes on with the conditions that it did not have yet, each in a paragraph of its own. */
  lemma PreparedTells(raw: DraftItem, fold: Folding) returns (additions: seq<string>)
    ensures var item := Prepared(raw, fold);
            && (if raw.due.Some? && raw.due.value.status == Resolved && raw.due.value.value.Some? && !raw.due.value.timeExplicit then
                  && item.due.Some? && item.due.value.value.Some? && item.due.value.(value := raw.due.value.value) == raw.due.value
                  && item.due.value.value.value / 86_400 == raw.due.value.value.value / 86_400
                  && item.due.value.value.value % 86_400 == 23 * 3_600 + 59 * 60 + 59
                else item.due == raw.due)
            && (if additions == [] then item.description == raw.description
                else item.description == Some(Paragraphs(
                       (if raw.description.Some? && Words(raw.description.value) != [] then [raw.description.value] else []) + additions)))
            && (forall k :: 0 <= k < |additions| ==> Adds(raw, additions[k]))
  {
    hide Normalized, Occurs, Unique, Paragraphs, Labelled, Adds, LabelsOne, Conditions, Said;
    var dated := NormalizedDue(raw);
    var conditions := Unique(Conditions(dated.dependencies), {}, fold);
    additions := Additions(conditions, Normalized(dated.description, fold), fold);
    UniqueWithin(Conditions(dated.dependencies), conditions, fold);
    assert dated.dependencies == raw.dependencies;
    AdditionsFrom(conditions, Normalized(dated.description, fold), fold);
    forall k | 0 <= k < |additions| ensures Adds(raw, additions[k]) {
      AddsCondition(raw, conditions, additions[k], fold);
    }
  }

  lemma UniqueWithin(values: seq<string>, u: seq<string>, fold: Folding)
    requires u == Unique(values, {}, fold)
    ensures forall i :: 0 <= i < |u| ==> u[i] in values
  {
    UniqueIs(values, {}, fold);
  }

  predicate LabelsOne(conditions: seq<string>, text: string) {
    exists i :: 0 <= i < |conditions| && text == Labelled(conditions[i])
  }

  lemma {:induction false} AdditionsFrom(conditions: seq<string>, current: string, fold: Folding)
    ensures forall k :: 0 <= k < |Additions(conditions, current, fold)| ==> LabelsOne(conditions, Additions(conditions, current, fold)[k])
    decreases |conditions|
  {
    hide Normalized, Occurs, Labelled, LabelsOne;
    if conditions != [] {
      AdditionsFrom(conditions[1..], current, fold);
      var rest, all := Additions(conditions[1..], current, fold), Additions(conditions, current, fold);
      assert all == rest || all == [Labelled(conditions[0])] + rest;
      forall k | 0 <= k < |all| ensures LabelsOne(conditions, all[k]) {
        LabelsHead(conditions);
        if all == rest || k > 0 {
          LabelsTail(conditions, if all == rest then rest[k] else rest[k - 1]);
        }
      }
    }
  }

  lemma LabelsHead(conditions: seq<string>)
    requires conditions != []
    ensures LabelsOne(conditions, Labelled(conditions[0]))
  {}

  lemma LabelsTail(conditions: seq<string>, text: string)
    requires conditions != [] && LabelsOne(conditions[1..], text)
    ensures LabelsOne(conditions, text)
  {
    var i :| 0 <= i < |conditions[1..]| && text == Labelled(conditions[1..][i]);
    assert conditions[i + 1] == conditions[1..][i];
  }

  /** One of the item's conditions that hang on no other item, under its label. */
  predicate Adds(raw: DraftItem, text: string) {
    exists k :: 0 <= k < |raw.dependencies| && IsCondition(raw.dependencies[k], text)
  }

  predicate IsCondition(d: Dependency, text: string) {
    d.relation == Conditional && d.target == None && d.condition.Some? && text == "Условие: " + d.condition.value
  }

  lemma AddsCondition(raw: DraftItem, conditions: seq<string>, text: string, fold: Folding)
    requires LabelsOne(conditions, text)
    requires forall i :: 0 <= i < |conditions| ==> conditions[i] in Conditions(raw.dependencies)
    ensures Adds(raw, text)
  {
    ConditionsAre(raw.dependencies);
    var i :| 0 <= i < |conditions| && text == Labelled(conditions[i]);
    var k :| 0 <= k < |raw.dependencies| && External(raw.dependencies[k]) && raw.dependencies[k].condition.value == conditions[i];
    assert CONDITION_LABEL + (" " + conditions[i]) == "Условие: " + conditions[i];
    assert IsCondition(raw.dependencies[k], text);
  }

  /** A settled item is prepared already. */
  lemma SettledStands(item: DraftItem, fold: Folding)
    requires Settled(item, fold) && DueNormal(item)
    ensures Prepared(item, fold) == item
  {
    hide Normalized, Labelled, Occurs, Conditions, External;
    var conditions := Unique(Conditions(item.dependencies), {}, fold);
    var current := Normalized(item.description, fold);
    ConditionsAre(item.dependencies);
    UniqueIs(Conditions(item.dependencies), {}, fold);
    forall i | 0 <= i < |conditions| ensures Occurs(Normalized(Some(Labelled(conditions[i])), fold), current) {
      assert conditions[i] in Conditions(item.dependencies);
    }
    AdditionsAre(conditions, current, fold);
  }

  /** Merging two settled items of one kind gives a settled item of that kind with the dependencies of both. */
  /** Two lists of texts in one: what both say, without saying it twice and with nothing else, the first before the second. */
  predicate Pools(first: seq<string>, second: seq<string>, all: seq<string>, fold: Folding) {
    && (forall i :: 0 <= i < |first| ==> Said(all, first[i], fold)) && (forall i :: 0 <= i < |second| ==> Said(all, second[i], fold))
    && (forall i :: 0 <= i < |all| ==> all[i] in first || all[i] in second)
    && AllDiffer(all, fold) && (AllDiffer(first, fold) ==> first <= all)
  }

  predicate AllDiffer(texts: seq<string>, fold: Folding) {
    forall i, j :: 0 <= i < j < |texts| ==> Normalized(Some(texts[i]), fold) != Normalized(Some(texts[j]), fold)
  }

  lemma PoolsAre(first: seq<string>, second: seq<string>, fold: Folding)
    ensures Pools(first, second, Unique(first + second, {}, fold), fold)
  {
    hide Normalized, Said, Unique;
    UniqueIs(first + second, {}, fold);
    forall i | 0 <= i < |first| ensures Said(Unique(first + second, {}, fold), first[i], fold) {
      assert (first + second)[i] == first[i];
    }
    forall i | 0 <= i < |second| ensures Said(Unique(first + second, {}, fold), second[i], fold) {
      assert (first + second)[|first| + i] == second[i];
    }
    if AllDiffer(first, fold) {
      DifferentStay(first, second, {}, fold);
    }
  }

  lemma {:induction false} DifferentStay(first: seq<string>, second: seq<string>, seen: set<string>, fold: Folding)
    requires AllDiffer(first, fold) && forall i :: 0 <= i < |first| ==> Normalized(Some(first[i]), fold) !in seen
    ensures first <= Unique(first + second, seen, fold)
    decreases |first|
  {
    hide Normalized;
    if first != [] {
      assert (first + second)[0] == first[0] && (first + second)[1..] == first[1..] + second;
      DifferentStay(first[1..], second, seen + {Normalized(Some(first[0]), fold)}, fold);
    }
  }

  lemma MergedIs(first: DraftItem, second: DraftItem, fold: Folding)
    requires Settled(first, fold) && Settled(second, fold) && DueNormal(first) && KeyOf(first, fold) == KeyOf(second, fold)
    ensures var item := Merged(first, second, fold);
            && Settled(item, fold) && DueNormal(item) && KeyOf(item, fold) == KeyOf(first, fold)
            && item.dependencies == first.dependencies + second.dependencies
  {
    hide Normalized, Labelled, Occurs, Unique, External;
  }

  /** What merging tells of two items: the first with the texts of both, and the lower confidence. */
  lemma MergedTells(first: DraftItem, second: DraftItem, fold: Folding)
    ensures var item := Merged(first, second, fold);
            && item.(people := first.people, topics := first.topics, notes := first.notes, missing := first.missing,
                     ambiguities := first.ambiguities, dependencies := first.dependencies, confidence := first.confidence) == first
            && Pools(first.people, second.people, item.people, fold) && Pools(first.topics, second.topics, item.topics, fold)
            && Pools(first.notes, second.notes, item.notes, fold) && Pools(first.missing, second.missing, item.missing, fold)
            && Pools(first.ambiguities, second.ambiguities, item.ambiguities, fold)
            && item.confidence <= first.confidence && item.confidence <= second.confidence
            && (item.confidence == first.confidence || item.confidence == second.confidence)
  {
    hide Unique, Pools;
    PoolsAre(first.people, second.people, fold);
    PoolsAre(first.topics, second.topics, fold);
    PoolsAre(first.notes, second.notes, fold);
    PoolsAre(first.missing, second.missing, fold);
    PoolsAre(first.ambiguities, second.ambiguities, fold);
  }

  /** One more input: it joins the kept item of its kind, or becomes the first of a new kind. */
  lemma AbsorbIs(m: Merging, raw: DraftItem, fold: Folding) returns (at: nat)
    requires WellFormed(raw) && forall i :: 0 <= i < |m.kept| ==> Settled(m.kept[i], fold) && DueNormal(m.kept[i])
    ensures var n, key := Absorb(m, raw, fold), KeyOf(Prepared(raw, fold), fold);
            && n.numbers == m.numbers + [at + 1] && at < |n.kept| && at <= |m.kept|
            && |n.kept| == (if at == |m.kept| then |m.kept| + 1 else |m.kept|)
            && KeyOf(n.kept[at], fold) == key
            && (forall i :: 0 <= i < |m.kept| ==> KeyOf(n.kept[i], fold) == KeyOf(m.kept[i], fold))
            && (at == |m.kept| ==> forall i :: 0 <= i < |m.kept| ==> KeyOf(m.kept[i], fold) != key)
            && (forall i :: 0 <= i < |m.kept| && i != at ==> n.kept[i] == m.kept[i])
            && (forall i :: 0 <= i < |n.kept| ==> Settled(n.kept[i], fold) && DueNormal(n.kept[i]))
            && n.kept[at].dependencies == (if at == |m.kept| then [] else m.kept[at].dependencies) + raw.dependencies
  {
    hide Prepared, KeyOf, Settled, DueNormal, Merged, WellFormed;
    var item := Prepared(raw, fold);
    at := KeyAt(m.kept, KeyOf(item, fold), fold);
    PreparedIs(raw, fold);
    if at < |m.kept| {
      MergedIs(m.kept[at], item, fold);
    }
    assert [] + raw.dependencies == raw.dependencies;
  }

  lemma AbsorbKeepsOrder(m: Merging, items: seq<DraftItem>, raw: DraftItem, at: nat, n: Merging, fold: Folding)
    requires KindsMatch(m, items, fold) && InOrder(m, items, fold) && EachHasInput(m)
    requires at <= |m.kept| && n.numbers == m.numbers + [at + 1]
    requires at < |m.kept| ==> KeyOf(m.kept[at], fold) == KeyOf(Prepared(raw, fold), fold)
    ensures InOrder(n, items + [raw], fold)
  {
    hide Prepared, KeyOf;
    var all := items + [raw];
    assert forall k :: 0 <= k < |items| ==> all[k] == items[k];
    if at < |m.kept| {
      assert HasInput(m, at);
      var i :| 0 <= i < |m.numbers| && StandsFor(m, at, i);
      assert KeyOf(Prepared(all[i], fold), fold) == KeyOf(Prepared(raw, fold), fold);
      assert !FirstOfItsKind(all, |items|, fold);
    }
    forall j, k | 0 <= j < k < |all| && FirstOfItsKind(all, k, fold) ensures n.numbers[j] < n.numbers[k] {
      if k < |items| {
        FirstAmongFewer(items, raw, k, fold);
      }
    }
  }

  lemma FirstAmongFewer(items: seq<DraftItem>, raw: DraftItem, k: nat, fold: Folding)
    requires k < |items| && FirstOfItsKind(items + [raw], k, fold)
    ensures FirstOfItsKind(items, k, fold)
  {
    hide Prepared, KeyOf;
    forall j | 0 <= j < k ensures KeyOf(Prepared(items[j], fold), fold) != KeyOf(Prepared(items[k], fold), fold) {
      assert (items + [raw])[j] == items[j] && (items + [raw])[k] == items[k];
    }
  }

  lemma AbsorbKeepsInputs(m: Merging, at: nat, n: Merging)
    requires EachHasInput(m) && n.numbers == m.numbers + [at + 1]
    requires |n.kept| == (if at == |m.kept| then |m.kept| + 1 else |m.kept|)
    ensures EachHasInput(n)
  {
    forall k | 0 <= k < |n.kept| ensures HasInput(n, k) {
      if k < |m.kept| {
        assert HasInput(m, k);
        var j :| 0 <= j < |m.numbers| && StandsFor(m, k, j);
        assert StandsFor(n, k, j);
      } else {
        assert StandsFor(n, k, |m.numbers|);
      }
    }
  }

  lemma InheritedLater(m: Merging, items: seq<DraftItem>, raw: DraftItem, at: nat, n: Merging, k: nat, d: Dependency)
    requires |m.numbers| == |items| && n.numbers == m.numbers + [at + 1]
    ensures Inherited(n, items + [raw], k, d) <==> Inherited(m, items, k, d) || (k == at && d in raw.dependencies)
  {
    var all := items + [raw];
    assert all[|items|] == raw;
    if Inherited(m, items, k, d) {
      var j :| 0 <= j < |items| && StandsFor(m, k, j) && d in items[j].dependencies;
      assert StandsFor(n, k, j) && d in all[j].dependencies;
    }
    if k == at && d in raw.dependencies {
      assert StandsFor(n, k, |items|);
    }
    if Inherited(n, all, k, d) {
      var j :| 0 <= j < |all| && StandsFor(n, k, j) && d in all[j].dependencies;
      assert j < |items| ==> StandsFor(m, k, j) && d in items[j].dependencies;
    }
  }

  lemma NothingInherited(m: Merging, items: seq<DraftItem>, d: Dependency, fold: Folding)
    requires KindsMatch(m, items, fold)
    ensures !Inherited(m, items, |m.kept|, d)
  {
    hide KeyOf;
  }

  lemma AbsorbStep(m: Merging, items: seq<DraftItem>, raw: DraftItem, fold: Folding)
    requires Numbered(m, items, fold) && Complete(m, items, fold) && WellFormed(raw)
    ensures Numbered(Absorb(m, raw, fold), items + [raw], fold) && Complete(Absorb(m, raw, fold), items + [raw], fold)
  {
    hide Prepared, KeyOf, Settled, DueNormal, Absorb, InOrder, EachHasInput, Inherited, WellFormed;
    var n := Absorb(m, raw, fold);
    var at := AbsorbIs(m, raw, fold);
    AbsorbKeepsOrder(m, items, raw, at, n, fold);
    AbsorbKeepsInputs(m, at, n);
    forall k, d | 0 <= k < |n.kept| ensures d in n.kept[k].dependencies <==> Inherited(n, items + [raw], k, d) {
      InheritedLater(m, items, raw, at, n, k, d);
      NothingInherited(m, items, d, fold);
    }
  }

  lemma {:induction false} AbsorbAllIs(items: seq<DraftItem>, fold: Folding)
    requires forall k :: 0 <= k < |items| ==> WellFormed(items[k])
    ensures Numbered(AbsorbAll(items, fold), items, fold) && Complete(AbsorbAll(items, fold), items, fold)
    decreases |items|
  {
    hide Absorb, Numbered, Complete, WellFormed;
    if items == [] {
      NothingMerged(fold);
    } else {
      var before, last := items[..|items| - 1], items[|items| - 1];
      AbsorbAllIs(before, fold);
      AbsorbStep(AbsorbAll(before, fold), before, last, fold);
      assert before + [last] == items;
    }
  }

  lemma NothingMerged(fold: Folding)
    ensures Numbered(Merging([], []), [], fold) && Complete(Merging([], []), [], fold)
  {}

  // ---------------------------------------------------------------- renumbering

  /** A dependency that survives renumbering, spelled as it was stated. */
  predicate Survives(d: Dependency, number: nat, numbers: seq<nat>) {
    (d.target.Some? ==> 1 <= d.target.value <= |numbers|) && Remapped(d, numbers).target != Some(number)
  }

  predicate SameDependency(d: Dependency, e: Dependency, fold: Folding) {
    KeyOfDependency(d, fold) == KeyOfDependency(e, fold)
  }

  /** Two dependencies are the same exactly if relation, target, words and condition are. */
  lemma SameDependencyMeans(d: Dependency, e: Dependency, fold: Folding)
    ensures SameDependency(d, e, fold) <==>
              && d.relation == e.relation && d.target == e.target && Normalized(Some(d.phrase), fold) == Normalized(Some(e.phrase), fold)
              && Normalized(d.condition, fold) == Normalized(e.condition, fold)
  {
    hide Normalized;
  }

  /** Renumbered dependencies are the images of stated ones, and each stated one is represented unless it has come
      to point at its own item. */
  lemma {:induction false} RemappedAllIs(dependencies: seq<Dependency>, number: nat, numbers: seq<nat>, seen: set<DependencyKey>,
                                          fold: Folding, r: seq<Dependency>)
    requires TargetsWithin(dependencies, |numbers|) && r == RemappedAll(dependencies, number, numbers, seen, fold)
    ensures forall k :: 0 <= k < |r| ==> ImageOfOne(dependencies, number, numbers, r[k]) && KeyOfDependency(r[k], fold) !in seen
    ensures forall k :: 0 <= k < |dependencies| && Survives(dependencies[k], number, numbers) ==>
              KeyOfDependency(Remapped(dependencies[k], numbers), fold) in seen || Represented(r, Remapped(dependencies[k], numbers), fold)
    ensures forall i, j :: 0 <= i < j < |r| ==> !SameDependency(r[i], r[j], fold)
    decreases |dependencies|
  {
    hide KeyOfDependency, Survives, Represented, ImageOfOne;
    if dependencies != [] {
      var d := Remapped(dependencies[0], numbers);
      var key := KeyOfDependency(d, fold);
      var kept := d.target != Some(number) && key !in seen;
      var next := if kept then seen + {key} else seen;
      var rest := RemappedAll(dependencies[1..], number, numbers, next, fold);
      RemappedAllIs(dependencies[1..], number, numbers, next, fold, rest);
      assert r == (if kept then [d] + rest else rest);
      assert forall k :: 0 < k < |dependencies| ==> dependencies[k] == dependencies[1..][k - 1];
      forall k | 0 <= k < |r| ensures ImageOfOne(dependencies, number, numbers, r[k]) && KeyOfDependency(r[k], fold) !in seen {
        if kept && k > 0 {
          assert r[k] == rest[k - 1];
        }
        if kept && k == 0 {
          ImageOfHead(dependencies, number, numbers);
        } else {
          ImageOfTail(dependencies, number, numbers, r[k]);
        }
      }
      forall k | 0 <= k < |dependencies| && Survives(dependencies[k], number, numbers)
        ensures KeyOfDependency(Remapped(dependencies[k], numbers), fold) in seen || Represented(r, Remapped(dependencies[k], numbers), fold)
      {
        RepresentedLater(d, rest, Remapped(dependencies[k], numbers), fold);
        if k == 0 {
          SurvivesMeans(dependencies[0], number, numbers);
        }
      }
      forall i, j | 0 <= i < j < |r| ensures !SameDependency(r[i], r[j], fold) {
        if kept {
          assert r[j] == rest[j - 1] && KeyOfDependency(rest[j - 1], fold) !in next;
          assert i > 0 ==> r[i] == rest[i - 1];
        }
      }
    }
  }

  lemma SurvivesMeans(d: Dependency, number: nat, numbers: seq<nat>)
    requires Survives(d, number, numbers)
    ensures Remapped(d, numbers).target != Some(number)
  {}

  lemma ImageOfHead(dependencies: seq<Dependency>, number: nat, numbers: seq<nat>)
    requires dependencies != [] && TargetsWithin(dependencies, |numbers|) && Remapped(dependencies[0], numbers).target != Some(number)
    ensures ImageOfOne(dependencies, number, numbers, Remapped(dependencies[0], numbers))
  {
    assert Survives(dependencies[0], number, numbers);
  }

  lemma ImageOfTail(dependencies: seq<Dependency>, number: nat, numbers: seq<nat>, d: Dependency)
    requires dependencies != [] && ImageOfOne(dependencies[1..], number, numbers, d)
    ensures ImageOfOne(dependencies, number, numbers, d)
  {
    var k :| 0 <= k < |dependencies[1..]| && Survives(dependencies[1..][k], number, numbers) && Remapped(dependencies[1..][k], numbers) == d;
    assert dependencies[k + 1] == dependencies[1..][k];
  }

  lemma RepresentedLater(first: Dependency, rest: seq<Dependency>, d: Dependency, fold: Folding)
    ensures Represented(rest, d, fold) ==> Represented([first] + rest, d, fold)
    ensures SameDependency(first, d, fold) ==> Represented([first] + rest, d, fold)
  {
    hide KeyOfDependency, SameDependency;
    var all := [first] + rest;
    assert all[0] == first && forall k :: 0 <= k < |rest| ==> all[k + 1] == rest[k];
  }

  predicate ImageOfOne(dependencies: seq<Dependency>, number: nat, numbers: seq<nat>, d: Dependency) {
    exists k :: 0 <= k < |dependencies| && Survives(dependencies[k], number, numbers) && Remapped(dependencies[k], numbers) == d
  }

  predicate Represented(dependencies: seq<Dependency>, d: Dependency, fold: Folding) {
    exists k :: 0 <= k < |dependencies| && SameDependency(dependencies[k], d, fold)
  }

  // ---------------------------------------------------------------- the whole deduplication

  lemma KeptTargets(items: seq<DraftItem>, fold: Folding)
    requires ProperItems(items)
    ensures var m := AbsorbAll(items, fold);
            |m.numbers| == |items| && forall n :: 0 <= n < |m.kept| ==> TargetsIn(m.kept[n], |m.numbers|)
  {
    hide Settled, DueNormal, KeyOf;
    var m := AbsorbAll(items, fold);
    AbsorbAllIs(items, fold);
    forall n, k | 0 <= n < |m.kept| && 0 <= k < |m.kept[n].dependencies| && m.kept[n].dependencies[k].target.Some?
      ensures 1 <= m.kept[n].dependencies[k].target.value <= |m.numbers|
    {
      var d := m.kept[n].dependencies[k];
      assert d in m.kept[n].dependencies;
      assert Inherited(m, items, n, d);
      var j :| 0 <= j < |items| && StandsFor(m, n, j) && d in items[j].dependencies;
      var i :| 0 <= i < |items[j].dependencies| && items[j].dependencies[i] == d;
      assert TargetsIn(items[j], |items|);
    }
  }

  function Deduplicated(items: seq<DraftItem>, fold: Folding): seq<DraftItem>
    requires ProperItems(items)
  {
    KeptTargets(items, fold);
    RemappedItems(AbsorbAll(items, fold).kept, AbsorbAll(items, fold).numbers, fold)
  }

  function Numbers(items: seq<DraftItem>, fold: Folding): seq<nat> {
    AbsorbAll(items, fold).numbers
  }

  lemma OutputKeys(items: seq<DraftItem>, fold: Folding)
    requires ProperItems(items)
    ensures var out, kept := Deduplicated(items, fold), AbsorbAll(items, fold).kept;
            |out| == |kept| && forall n :: 0 <= n < |out| ==> KeyOf(out[n], fold) == KeyOf(kept[n], fold)
  {
    hide RemappedAll, AbsorbAll, Normalized, KeyOfTemporal;
    KeptTargets(items, fold);
  }

  lemma {:induction false} KeptIsShort(items: seq<DraftItem>, fold: Folding)
    ensures |AbsorbAll(items, fold).kept| <= |items|
    decreases |items|
  {
    hide Prepared, KeyOf, Merged;
    if items != [] {
      KeptIsShort(items[..|items| - 1], fold);
    }
  }

  predicate Used(numbers: seq<nat>, n: nat) {
    exists k :: 0 <= k < |numbers| && numbers[k] == n + 1
  }

  /** Canonical form: every input goes to the one output with its key, outputs stand in the order of first
      occurrence, and every output stands for some input. */
  lemma OutputsAreCanonical(items: seq<DraftItem>, fold: Folding)
    requires ProperItems(items)
    ensures var out, numbers := Deduplicated(items, fold), Numbers(items, fold);
            && |numbers| == |items| && |out| <= |items|
            && (forall k :: 0 <= k < |items| ==>
                 1 <= numbers[k] <= |out| && KeyOf(out[numbers[k] - 1], fold) == KeyOf(Prepared(items[k], fold), fold))
            && KeysDiffer(out, fold)
            && (forall j, k :: 0 <= j < k < |items| && FirstOfItsKind(items, k, fold) ==> numbers[j] < numbers[k])
            && (forall n :: 0 <= n < |out| ==> Used(numbers, n))
  {
    hide KeyOf, Prepared, Deduplicated, Complete, AbsorbAll, FirstOfItsKind, ProperItems;
    ProperMeansWellFormed(items);
    AbsorbAllIs(items, fold);
    OutputKeys(items, fold);
    KeptIsShort(items, fold);
    var m := AbsorbAll(items, fold);
    forall n | 0 <= n < |m.kept| ensures Used(m.numbers, n) {
      assert HasInput(m, n);
    }
  }

  /** Two dates tell the same: both absent, or equally resolved to the same instant, or unresolved in the same words. */
  predicate SameTime(s: Option<Temporal>, t: Option<Temporal>, fold: Folding) {
    if s.None? || t.None? then s.None? && t.None?
    else
      && s.value.status == t.value.status && s.value.value == t.value.value
      && (s.value.value.None? ==> Normalized(Some(s.value.phrase), fold) == Normalized(Some(t.value.phrase), fold))
  }

  /** Two items say the same: type, title, description, due date and reminder. */
  predicate SameItem(a: DraftItem, b: DraftItem, fold: Folding) {
    && a.dtype == b.dtype && Normalized(Some(a.title), fold) == Normalized(Some(b.title), fold)
    && Normalized(a.description, fold) == Normalized(b.description, fold)
    && SameTime(a.due, b.due, fold) && SameTime(a.reminder, b.reminder, fold)
  }

  lemma KeysTellItems(a: DraftItem, b: DraftItem, fold: Folding)
    ensures KeyOf(a, fold) == KeyOf(b, fold) <==> SameItem(a, b, fold)
  {
    hide Normalized;
  }

  /** Exactly the items that say the same are merged, once their conditions are in the text and their due dates normal. */
  lemma MergedExactlyIfSame(items: seq<DraftItem>, j: nat, k: nat, fold: Folding)
    requires ProperItems(items) && j < |items| && k < |items|
    ensures var numbers := Numbers(items, fold);
            |numbers| == |items| && (numbers[j] == numbers[k] <==> SameItem(Prepared(items[j], fold), Prepared(items[k], fold), fold))
  {
    hide KeyOf, Prepared, Deduplicated, Numbers, SameItem, ProperItems, FirstOfItsKind;
    OutputsAreCanonical(items, fold);
    KeysTellItems(Prepared(items[j], fold), Prepared(items[k], fold), fold);
  }

  lemma ProperMeansWellFormed(items: seq<DraftItem>)
    requires ProperItems(items)
    ensures forall k :: 0 <= k < |items| ==> WellFormed(items[k])
  {}

  /** Every dependency of an output has its target among the outputs, not on itself, and states nothing twice. */
  predicate CleanDependencies(out: seq<DraftItem>, fold: Folding) {
    forall n :: 0 <= n < |out| ==> CleanItem(out[n], n + 1, |out|, fold)
  }

  predicate CleanItem(item: DraftItem, number: nat, count: nat, fold: Folding) {
    && (forall k :: 0 <= k < |item.dependencies| && item.dependencies[k].target.Some? ==>
         1 <= item.dependencies[k].target.value <= count && item.dependencies[k].target.value != number)
    && (forall i, j :: 0 <= i < j < |item.dependencies| ==> !SameDependency(item.dependencies[i], item.dependencies[j], fold))
  }

  lemma RemappedItemIsClean(item: DraftItem, number: nat, numbers: seq<nat>, count: nat, fold: Folding)
    requires TargetsIn(item, |numbers|) && forall k :: 0 <= k < |numbers| ==> 1 <= numbers[k] <= count
    ensures CleanItem(RemappedItem(item, number, numbers, fold), number, count, fold)
  {
    hide SameDependency, RemappedAll, ImageOfOne, Represented;
    var r := RemappedAll(item.dependencies, number, numbers, {}, fold);
    RemappedAllIs(item.dependencies, number, numbers, {}, fold, r);
    forall k | 0 <= k < |r| && r[k].target.Some? ensures 1 <= r[k].target.value <= count && r[k].target.value != number {
      var d := ImageHasSource(item.dependencies, r[k], number, numbers, fold);
    }
  }

  lemma OutputsAreClean(items: seq<DraftItem>, fold: Folding)
    requires ProperItems(items)
    ensures CleanDependencies(Deduplicated(items, fold), fold)
  {
    hide KeyOf, Prepared, RemappedItem, CleanItem, Complete, ProperItems, WellFormed, AbsorbAll, KeysDiffer, InOrder, EachHasInput;
    var m := AbsorbAll(items, fold);
    ProperMeansWellFormed(items);
    AbsorbAllIs(items, fold);
    KeptTargets(items, fold);
    forall n | 0 <= n < |m.kept| ensures CleanItem(RemappedItem(m.kept[n], n + 1, m.numbers, fold), n + 1, |m.kept|, fold) {
      RemappedItemIsClean(m.kept[n], n + 1, m.numbers, |m.kept|, fold);
    }
  }

  lemma RemappedItemIsSettled(item: DraftItem, number: nat, numbers: seq<nat>, fold: Folding)
    requires TargetsIn(item, |numbers|) && Settled(item, fold) && DueNormal(item)
    ensures Settled(RemappedItem(item, number, numbers, fold), fold) && DueNormal(RemappedItem(item, number, numbers, fold))
  {
    hide Normalized, Occurs, Labelled, RemappedAll, Survives;
    var r := RemappedAll(item.dependencies, number, numbers, {}, fold);
    forall k | 0 <= k < |r| && External(r[k])
      ensures Occurs(Normalized(Some(Labelled(r[k].condition.value)), fold), Normalized(item.description, fold))
    {
      var d := ImageHasSource(item.dependencies, r[k], number, numbers, fold);
      var j :| 0 <= j < |item.dependencies| && item.dependencies[j] == d;
      assert External(item.dependencies[j]);
    }
  }

  function Identity(n: nat): (r: seq<nat>)
    ensures |r| == n && forall k :: 0 <= k < n ==> r[k] == k + 1
  {
    seq(n, k requires 0 <= k < n => k + 1)
  }

  /** A list that is clean and settled already goes through merging untouched. */
  lemma {:induction false} AbsorbAllStands(items: seq<DraftItem>, fold: Folding)
    requires KeysDiffer(items, fold)
    requires forall n :: 0 <= n < |items| ==> Settled(items[n], fold) && DueNormal(items[n])
    ensures AbsorbAll(items, fold) == Merging(items, Identity(|items|))
    decreases |items|
  {
    hide KeyOf, Settled, DueNormal, Prepared;
    hide Absorb, KeysDiffer;
    if items != [] {
      var before, last := items[..|items| - 1], items[|items| - 1];
      LastIsNew(items, fold);
      AbsorbAllStands(before, fold);
      SettledStands(last, fold);
      AbsorbsNew(before, last, fold);
      assert before + [last] == items;
    } else {
      assert Identity(0) == [];
    }
  }

  lemma LastIsNew(items: seq<DraftItem>, fold: Folding)
    requires KeysDiffer(items, fold) && items != []
    ensures KeysDiffer(items[..|items| - 1], fold)
    ensures KeyAt(items[..|items| - 1], KeyOf(items[|items| - 1], fold), fold) == |items| - 1
  {
    hide KeyOf;
  }

  lemma IdentityGrows(n: nat)
    ensures Identity(n) + [n + 1] == Identity(n + 1)
  {}

  lemma AbsorbsNew(before: seq<DraftItem>, last: DraftItem, fold: Folding)
    requires Prepared(last, fold) == last && KeyAt(before, KeyOf(last, fold), fold) == |before|
    ensures Absorb(Merging(before, Identity(|before|)), last, fold) == Merging(before + [last], Identity(|before| + 1))
  {
    hide KeyOf, Prepared, Identity, KeyAt;
    IdentityGrows(|before|);
  }

  lemma {:induction false} RemappedAllStands(dependencies: seq<Dependency>, number: nat, count: nat, seen: set<DependencyKey>, fold: Folding)
    requires TargetsWithin(dependencies, count)
    requires Unrepeated(dependencies, number, seen, fold)
    ensures RemappedAll(dependencies, number, Identity(count), seen, fold) == dependencies
    decreases |dependencies|
  {
    hide KeyOfDependency, Unrepeated;
    if dependencies != [] {
      var d, rest := dependencies[0], dependencies[1..];
      UnrepeatedTail(dependencies, number, seen, fold);
      RemappedAllStands(rest, number, count, seen + {KeyOfDependency(d, fold)}, fold);
      assert Remapped(d, Identity(count)) == d;
      assert [d] + rest == dependencies;
    }
  }

  /** Nothing in the list points at the item itself, was seen before, or is stated twice. */
  predicate Unrepeated(dependencies: seq<Dependency>, number: nat, seen: set<DependencyKey>, fold: Folding) {
    && (forall k :: 0 <= k < |dependencies| ==> dependencies[k].target != Some(number) && KeyOfDependency(dependencies[k], fold) !in seen)
    && (forall i, j :: 0 <= i < j < |dependencies| ==> !SameDependency(dependencies[i], dependencies[j], fold))
  }

  lemma UnrepeatedTail(dependencies: seq<Dependency>, number: nat, seen: set<DependencyKey>, fold: Folding)
    requires dependencies != [] && Unrepeated(dependencies, number, seen, fold)
    ensures dependencies[0].target != Some(number) && KeyOfDependency(dependencies[0], fold) !in seen
    ensures Unrepeated(dependencies[1..], number, seen + {KeyOfDependency(dependencies[0], fold)}, fold)
  {
    hide KeyOfDependency;
    var rest := dependencies[1..];
    assert forall k :: 0 <= k < |rest| ==> rest[k] == dependencies[k + 1];
    forall k | 0 <= k < |rest| ensures KeyOfDependency(rest[k], fold) != KeyOfDependency(dependencies[0], fold) {
      assert !SameDependency(dependencies[0], dependencies[k + 1], fold);
    }
    forall i, j | 0 <= i < j < |rest| ensures !SameDependency(rest[i], rest[j], fold) {
      assert !SameDependency(dependencies[i + 1], dependencies[j + 1], fold);
    }
  }

  lemma CleanItemStands(item: DraftItem, number: nat, count: nat, fold: Folding)
    requires CleanItem(item, number, count, fold)
    ensures TargetsIn(item, count) && RemappedItem(item, number, Identity(count), fold) == item
  {
    hide KeyOfDependency;
    RemappedAllStands(item.dependencies, number, count, {}, fold);
  }

  lemma RemappedIsProper(item: DraftItem, number: nat, numbers: seq<nat>, fold: Folding)
    requires TargetsIn(item, |numbers|) && WellFormed(item)
    ensures WellFormed(RemappedItem(item, number, numbers, fold))
  {
    hide Words, RemappedAll, Survives;
    var r := RemappedAll(item.dependencies, number, numbers, {}, fold);
    forall k | 0 <= k < |r|
      ensures if r[k].relation.Conditional? then r[k].condition.Some? && Words(r[k].condition.value) != [] else r[k].target.Some?
    {
      var d := ImageHasSource(item.dependencies, r[k], number, numbers, fold);
      var j :| 0 <= j < |item.dependencies| && item.dependencies[j] == d;
    }
  }

  lemma KeptIsWellFormed(items: seq<DraftItem>, fold: Folding)
    requires ProperItems(items)
    ensures forall n :: 0 <= n < |AbsorbAll(items, fold).kept| ==> WellFormed(AbsorbAll(items, fold).kept[n])
  {
    hide Settled, DueNormal, KeyOf, Words, Numbered;
    var m := AbsorbAll(items, fold);
    AbsorbAllIs(items, fold);
    forall n, k | 0 <= n < |m.kept| && 0 <= k < |m.kept[n].dependencies|
      ensures var d := m.kept[n].dependencies[k];
              if d.relation.Conditional? then d.condition.Some? && Words(d.condition.value) != [] else d.target.Some?
    {
      var d := m.kept[n].dependencies[k];
      assert d in m.kept[n].dependencies;
      assert Inherited(m, items, n, d);
      var j :| 0 <= j < |items| && StandsFor(m, n, j) && d in items[j].dependencies;
      assert WellFormed(items[j]);
    }
  }

  lemma OutputIsProper(items: seq<DraftItem>, n: nat, fold: Folding)
    requires ProperItems(items) && n < |Deduplicated(items, fold)|
    ensures var item := Deduplicated(items, fold)[n];
            WellFormed(item) && TargetsIn(item, |Deduplicated(items, fold)|) && Settled(item, fold) && DueNormal(item)
  {
    hide KeyOf, Settled, DueNormal, CleanItem, WellFormed, RemappedItem, TargetsIn, ProperItems, Numbered, Inherited, AbsorbAll;
    var m := AbsorbAll(items, fold);
    ProperMeansWellFormed(items);
    AbsorbAllIs(items, fold);
    KeptTargets(items, fold);
    KeptIsWellFormed(items, fold);
    OutputsAreClean(items, fold);
    RemappedItemIsSettled(m.kept[n], n + 1, m.numbers, fold);
    RemappedIsProper(m.kept[n], n + 1, m.numbers, fold);
    var out := Deduplicated(items, fold);
    assert out[n] == RemappedItem(m.kept[n], n + 1, m.numbers, fold);
    CleanItemStands(out[n], n + 1, |out|, fold);
  }

  /** Deduplicating twice is deduplicating once, copied conditions included. */
  lemma DeduplicationIsIdempotent(items: seq<DraftItem>, fold: Folding)
    requires ProperItems(items)
    ensures ProperItems(Deduplicated(items, fold))
    ensures Deduplicated(Deduplicated(items, fold), fold) == Deduplicated(items, fold)
  {
    hide KeyOf, Settled, DueNormal, CleanItem, RemappedItem, WellFormed, TargetsIn, AbsorbAll, FirstOfItsKind;
    var out := Deduplicated(items, fold);
    forall n | 0 <= n < |out| ensures WellFormed(out[n]) && TargetsIn(out[n], |out|) && Settled(out[n], fold) && DueNormal(out[n]) {
      OutputIsProper(items, n, fold);
    }
    OutputsAreCanonical(items, fold);
    OutputsAreClean(items, fold);
    AbsorbAllStands(out, fold);
    KeptTargets(out, fold);
    forall n | 0 <= n < |out| ensures RemappedItem(out[n], n + 1, Identity(|out|), fold) == out[n] {
      CleanItemStands(out[n], n + 1, |out|, fold);
    }
  }

  /** An input item states the dependency, between items that did not merge. */
  predicate Stated(items: seq<DraftItem>, numbers: seq<nat>, i: nat, d: Dependency, n: nat, m: nat)
    requires |numbers| == |items|
  {
    && i < |items| && d in items[i].dependencies && numbers[i] == n
    && d.target.Some? && 1 <= d.target.value <= |numbers| && numbers[d.target.value - 1] == m && n != m
  }

  /** A targeted dependency of an output was stated by an input it stands for, with the same relation. */
  lemma OutputDependencyWasStated(items: seq<DraftItem>, n: nat, r: Dependency, fold: Folding) returns (i: nat, d: Dependency)
    requires ProperItems(items) && n < |Deduplicated(items, fold)| && r in Deduplicated(items, fold)[n].dependencies && r.target.Some?
    ensures |Numbers(items, fold)| == |items|
    ensures Stated(items, Numbers(items, fold), i, d, n + 1, r.target.value) && d.relation == r.relation
  {
    hide KeyOf, WellFormed, ProperItems, AbsorbAll, RemappedAll, Survives;
    KeptTargets(items, fold);
    var m := AbsorbAll(items, fold);
    assert Deduplicated(items, fold)[n] == RemappedItem(m.kept[n], n + 1, m.numbers, fold);
    d := ImageHasSource(m.kept[n].dependencies, r, n + 1, m.numbers, fold);
    i := KeptWasInput(items, n, d, fold);
  }

  lemma ImageHasSource(kept: seq<Dependency>, r: Dependency, number: nat, numbers: seq<nat>, fold: Folding) returns (d: Dependency)
    requires TargetsWithin(kept, |numbers|) && r in RemappedAll(kept, number, numbers, {}, fold)
    ensures d in kept && Survives(d, number, numbers) && Remapped(d, numbers) == r
    ensures r.target != Some(number)
  {
    hide RemappedAll, KeyOfDependency;
    var out := RemappedAll(kept, number, numbers, {}, fold);
    RemappedAllIs(kept, number, numbers, {}, fold, out);
    var k :| 0 <= k < |out| && out[k] == r;
    assert ImageOfOne(kept, number, numbers, out[k]);
    var j :| 0 <= j < |kept| && Survives(kept[j], number, numbers) && Remapped(kept[j], numbers) == r;
    d := kept[j];
  }

  lemma KeptWasInput(items: seq<DraftItem>, n: nat, d: Dependency, fold: Folding) returns (i: nat)
    requires ProperItems(items) && n < |AbsorbAll(items, fold).kept| && d in AbsorbAll(items, fold).kept[n].dependencies
    ensures |Numbers(items, fold)| == |items| && i < |items| && Numbers(items, fold)[i] == n + 1 && d in items[i].dependencies
  {
    hide KeyOf, Settled, DueNormal, WellFormed, ProperItems, AbsorbAll;
    var m := AbsorbAll(items, fold);
    ProperMeansWellFormed(items);
    AbsorbAllIs(items, fold);
    assert Inherited(m, items, n, d);
    i :| 0 <= i < |items| && StandsFor(m, n, i) && d in items[i].dependencies;
  }

  lemma SurvivorIsRepresented(kept: seq<Dependency>, d: Dependency, number: nat, numbers: seq<nat>, fold: Folding) returns (r: Dependency)
    requires TargetsWithin(kept, |numbers|) && d in kept && Survives(d, number, numbers)
    ensures r in RemappedAll(kept, number, numbers, {}, fold)
    ensures r.relation == d.relation && r.target == Remapped(d, numbers).target
  {
    hide RemappedAll, Normalized, Survives;
    var out := RemappedAll(kept, number, numbers, {}, fold);
    RemappedAllIs(kept, number, numbers, {}, fold, out);
    var j :| 0 <= j < |kept| && kept[j] == d;
    assert Represented(out, Remapped(kept[j], numbers), fold);
    var k :| 0 <= k < |out| && SameDependency(out[k], Remapped(d, numbers), fold);
    r := out[k];
  }

  lemma KeptInherits(items: seq<DraftItem>, i: nat, d: Dependency, n: nat, fold: Folding)
    requires ProperItems(items) && i < |items| && d in items[i].dependencies && |Numbers(items, fold)| == |items| && Numbers(items, fold)[i] == n + 1
    ensures n < |AbsorbAll(items, fold).kept| && d in AbsorbAll(items, fold).kept[n].dependencies
  {
    hide KeyOf, Settled, DueNormal, WellFormed, ProperItems, AbsorbAll;
    var m := AbsorbAll(items, fold);
    ProperMeansWellFormed(items);
    AbsorbAllIs(items, fold);
    assert StandsFor(m, n, i);
    assert Inherited(m, items, n, d);
  }

  /** A stated dependency between items that did not merge is one of the output's, with the same relation. */
  lemma StatedDependencyIsOutput(items: seq<DraftItem>, i: nat, d: Dependency, n: nat, t: nat, fold: Folding) returns (r: Dependency)
    requires ProperItems(items) && |Numbers(items, fold)| == |items|
    requires Stated(items, Numbers(items, fold), i, d, n + 1, t)
    ensures n < |Deduplicated(items, fold)| && r in Deduplicated(items, fold)[n].dependencies
    ensures r.relation == d.relation && r.target == Some(t)
  {
    hide KeyOf, WellFormed, ProperItems, AbsorbAll, RemappedAll;
    KeptTargets(items, fold);
    KeptInherits(items, i, d, n, fold);
    r := SurvivorIsRepresented(AbsorbAll(items, fold).kept[n].dependencies, d, n + 1, Numbers(items, fold), fold);
  }

  // ---------------------------------------------------------------- with and without explicit segments

  /** The analysed items: explicitly separated ones are kept one by one, others are deduplicated. */
  function KeptItems(items: seq<DraftItem>, explicit: bool, fold: Folding): (r: seq<DraftItem>)
    requires ProperItems(items)
  {
    if explicit then seq(|items|, n requires 0 <= n < |items| => Prepared(items[n], fold)) else Deduplicated(items, fold)
  }

  /** The number each input ended up under. */
  function KeptNumbers(items: seq<DraftItem>, explicit: bool, fold: Folding): seq<nat> {
    if explicit then Identity(|items|) else Numbers(items, fold)
  }

  lemma KeptOneByOne(items: seq<DraftItem>, fold: Folding)
    requires ProperItems(items)
    ensures var out := KeptItems(items, true, fold);
            |out| == |items| && forall n :: 0 <= n < |out| ==> out[n].dependencies == items[n].dependencies && out[n].dtype == items[n].dtype
  {
    hide Prepared, Settled, DueNormal, WellFormed, TargetsIn;
    forall n | 0 <= n < |items|
      ensures Prepared(items[n], fold).dependencies == items[n].dependencies && Prepared(items[n], fold).dtype == items[n].dtype
    {
      PreparedIs(items[n], fold);
    }
  }

  /** Either way no analysed item depends on itself. */
  lemma KeptItemsHaveNoSelf(items: seq<DraftItem>, explicit: bool, fold: Folding)
    requires ProperItems(items) && (explicit ==> NoSelfDependency(items))
    ensures NoSelfDependency(KeptItems(items, explicit, fold))
  {
    hide Deduplicated, Prepared, ProperItems, SameDependency;
    if explicit {
      KeptOneByOne(items, fold);
    } else {
      OutputsAreClean(items, fold);
      assert forall n :: 0 <= n < |KeptItems(items, false, fold)| ==>
        CleanItem(KeptItems(items, false, fold)[n], n + 1, |KeptItems(items, false, fold)|, fold);
    }
  }

  /** Either way a targeted dependency of an analysed item was stated, with the same relation, between items that did
      not merge ... */
  lemma KeptDependencyWasStated(items: seq<DraftItem>, explicit: bool, n: nat, r: Dependency, fold: Folding) returns (i: nat, d: Dependency)
    requires ProperItems(items) && (explicit ==> NoSelfDependency(items))
    requires n < |KeptItems(items, explicit, fold)| && r in KeptItems(items, explicit, fold)[n].dependencies && r.target.Some?
    ensures |KeptNumbers(items, explicit, fold)| == |items|
    ensures Stated(items, KeptNumbers(items, explicit, fold), i, d, n + 1, r.target.value) && d.relation == r.relation
  {
    hide Deduplicated, Prepared, WellFormed;
    if explicit {
      KeptOneByOne(items, fold);
      i, d := n, r;
      var k :| 0 <= k < |items[n].dependencies| && items[n].dependencies[k] == r;
      assert TargetsIn(items[n], |items|);
    } else {
      i, d := OutputDependencyWasStated(items, n, r, fold);
    }
  }

  /** ... and every such dependency is one of the analysed item's. */
  lemma StatedDependencyIsKept(items: seq<DraftItem>, explicit: bool, i: nat, d: Dependency, n: nat, t: nat, fold: Folding) returns (r: Dependency)
    requires ProperItems(items) && |KeptNumbers(items, explicit, fold)| == |items|
    requires Stated(items, KeptNumbers(items, explicit, fold), i, d, n + 1, t)
    ensures n < |KeptItems(items, explicit, fold)| && r in KeptItems(items, explicit, fold)[n].dependencies
    ensures r.relation == d.relation && r.target == Some(t)
  {
    hide Deduplicated, Prepared, WellFormed;
    if explicit {
      KeptOneByOne(items, fold);
      r := d;
    } else {
      r := StatedDependencyIsOutput(items, i, d, n, t, fold);
    }
  }

  // ---------------------------------------------------------------- the loops

  /** The renumbering loop over one item's dependencies. */
  method RemapDependencies(dependencies: seq<Dependency>, number: nat, numbers: seq<nat>, fold: Folding) returns (remapped: seq<Dependency>)
    requires TargetsWithin(dependencies, |numbers|)
    ensures remapped == RemappedAll(dependencies, number, numbers, {}, fold)
  {
    hide KeyOfDependency;
    remapped := [];
    var seen: set<DependencyKey> := {};
    for n := 0 to |dependencies|
      invariant remapped + RemappedAll(dependencies[n..], number, numbers, seen, fold)
             == RemappedAll(dependencies, number, numbers, {}, fold)
    {
      assert dependencies[n..][0] == dependencies[n] && dependencies[n..][1..] == dependencies[n + 1..];
      var d := Remapped(dependencies[n], numbers);
      if d.target != Some(number) {
        var key := KeyOfDependency(d, fold);
        if key !in seen {
          seen := seen + {key};
          remapped := remapped + [d];
        }
      }
    }
    assert dependencies[|dependencies|..] == [];
  }

  /** The table of the merging loop: the number of the kept item with each key. */
  ghost predicate Indexed(numberOf: map<Key, nat>, kept: seq<DraftItem>, fold: Folding) {
    && (forall key :: key in numberOf <==> KeyAt(kept, key, fold) < |kept|)
    && (forall key :: key in numberOf ==> numberOf[key] == KeyAt(kept, key, fold) + 1)
  }

  lemma IndexLooksUp(numberOf: map<Key, nat>, kept: seq<DraftItem>, key: Key, fold: Folding)
    requires Indexed(numberOf, kept, fold)
    ensures if key in numberOf then numberOf[key] == KeyAt(kept, key, fold) + 1 <= |kept| else KeyAt(kept, key, fold) == |kept|
  {}

  lemma IndexMerges(numberOf: map<Key, nat>, kept: seq<DraftItem>, at: nat, item: DraftItem, fold: Folding)
    requires Indexed(numberOf, kept, fold) && at < |kept|
    ensures Indexed(numberOf, kept[at := Merged(kept[at], item, fold)], fold)
  {
    hide Merged, KeyOf;
    MergedKeepsKeys(kept, at, item, fold);
  }

  lemma IndexAppends(numberOf: map<Key, nat>, kept: seq<DraftItem>, item: DraftItem, fold: Folding)
    requires Indexed(numberOf, kept, fold) && KeyOf(item, fold) !in numberOf
    ensures Indexed(numberOf[KeyOf(item, fold) := |kept| + 1], kept + [item], fold)
  {
    hide KeyOf;
    IndexLooksUp(numberOf, kept, KeyOf(item, fold), fold);
    AppendedKeys(kept, item, fold);
  }

  /** The merging loop: a table from keys to output numbers grows beside the outputs. */
  method MergeDuplicates(items: seq<DraftItem>, fold: Folding) returns (kept: seq<DraftItem>, numbers: seq<nat>)
    ensures Merging(kept, numbers) == AbsorbAll(items, fold)
  {
    hide Prepared, KeyOf, Merged, Indexed;
    kept, numbers := [], [];
    var numberOf: map<Key, nat> := map[];
    EmptyIndex(fold);
    for n := 0 to |items|
      invariant Merging(kept, numbers) == AbsorbAll(items[..n], fold)
      invariant Indexed(numberOf, kept, fold)
    {
      assert items[..n + 1][..n] == items[..n];
      var item := Prepared(items[n], fold);
      var key := KeyOf(item, fold);
      IndexLooksUp(numberOf, kept, key, fold);
      if key in numberOf {
        var at := numberOf[key] - 1;
        IndexMerges(numberOf, kept, at, item, fold);
        kept := kept[at := Merged(kept[at], item, fold)];
      } else {
        IndexAppends(numberOf, kept, item, fold);
        kept := kept + [item];
        numberOf := numberOf[key := |kept|];
      }
      numbers := numbers + [numberOf[key]];
    }
    assert items[..|items|] == items;
  }

  lemma EmptyIndex(fold: Folding)
    ensures Indexed(map[], [], fold)
  {}

  method DeduplicateItems(items: seq<DraftItem>, fold: Folding) returns (out: seq<DraftItem>, numbers: seq<nat>)
    requires ProperItems(items)
    ensures out == Deduplicated(items, fold) && numbers == Numbers(items, fold)
  {
    hide AbsorbAll, RemappedItem, ProperItems;
    var kept: seq<DraftItem>;
    kept, numbers := MergeDuplicates(items, fold);
    KeptTargets(items, fold);
    out := [];
    for n := 0 to |kept|
      invariant |out| == n && out == Deduplicated(items, fold)[..n]
    {
      var dependencies := RemapOf(kept[n], n + 1, numbers, fold);
      out := out + [kept[n].(dependencies := dependencies)];
    }
  }

  method RemapOf(item: DraftItem, number: nat, numbers: seq<nat>, fold: Folding) returns (remapped: seq<Dependency>)
    requires TargetsIn(item, |numbers|)
    ensures item.(dependencies := remapped) == RemappedItem(item, number, numbers, fold)
  {
    remapped := RemapDependencies(item.dependencies, number, numbers, fold);
  }

  lemma MergedKeepsKeys(kept: seq<DraftItem>, at: nat, item: DraftItem, fold: Folding)
    requires at < |kept|
    ensures forall key :: KeyAt(kept[at := Merged(kept[at], item, fold)], key, fold) == KeyAt(kept, key, fold)
  {
    var after := kept[at := Merged(kept[at], item, fold)];
    assert forall n :: 0 <= n < |kept| ==> KeyOf(after[n], fold) == KeyOf(kept[n], fold) by {
      hide Normalized, KeyOfTemporal, Unique;
    }
    hide KeyOf, Merged;
    forall key ensures KeyAt(after, key, fold) == KeyAt(kept, key, fold) {
      var n, m := KeyAt(after, key, fold), KeyAt(kept, key, fold);
      assert n < |after| ==> KeyOf(kept[n], fold) == key;
      assert m < |kept| ==> KeyOf(after[m], fold) == key;
    }
  }

  lemma AppendedKeys(kept: seq<DraftItem>, item: DraftItem, fold: Folding)
    requires KeyAt(kept, KeyOf(item, fold), fold) == |kept|
    ensures forall key :: KeyAt(kept + [item], key, fold) ==
              if KeyAt(kept, key, fold) < |kept| then KeyAt(kept, key, fold) else if key == KeyOf(item, fold) then |kept| else |kept| + 1
  {
    hide KeyOf;
    var after := kept + [item];
    forall key
      ensures KeyAt(after, key, fold) ==
              if KeyAt(kept, key, fold) < |kept| then KeyAt(kept, key, fold) else if key == KeyOf(item, fold) then |kept| else |kept| + 1
    {
      var n, m := KeyAt(after, key, fold), KeyAt(kept, key, fold);
      assert forall i :: 0 <= i < |kept| ==> after[i] == kept[i];
      assert after[|kept|] == item;
      assert m < |kept| ==> KeyOf(after[m], fold) == key;
      assert n < |kept| ==> KeyOf(kept[n], fold) == key;
    }
  }
}
