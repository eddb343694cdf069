/** How a provider's answer is repaired until its number of items can be trusted. */
module Itemization {
  import opened Core
  import opened DraftText
  import opened DraftItems

  datatype Decision = Single | Multiple

  datatype Basis = SingleGoal | ExplicitList | SeparateSentences | IndependentOutcomes | Uncertain

  datatype Parse = Parse(items: seq<DraftItem>, decision: Decision, basis: Basis, confidence: real, consolidated: Option<DraftItem>)

  /** What the answer's schema guarantees. */
  predicate ValidParse(p: Parse) {
    if p.decision.Single? then |p.items| == 1 && p.consolidated.None? else |p.items| >= 2
  }

  /** ... and what it guarantees of the items: targets are in range among the items and none is its own item, but nothing
      bounds the targets of the consolidated item. */
  predicate SchemaOk(p: Parse) {
    ValidParse(p) && ProperItems(p.items) && NoSelfDependency(p.items) && (p.consolidated.Some? ==> WellFormed(p.consolidated.value))
  }

  /** One call of the provider; an answer of the wrong kind counts as a different answer. */
  datatype Answer = TimedOut | OtherAnswer | Draft(parse: Parse)

  /** What the source text says about its own itemization: a directive for one item, a directive for several, and the
      number of explicitly separated segments. */
  datatype Source = Source(single: bool, multiple: bool, segments: nat)

  /** A directive for one item overrides segments, and one segment is none. */
  predicate ValidSource(s: Source) {
    s.segments != 1 && (s.single ==> s.segments == 0)
  }

  datatype Fault = TimeoutFault | InvalidAnswer | ItemizationInvalid | ConsolidationInvalid | NoFallback | RenumberingFault

  datatype Result = Fail(fault: Fault) | Ok(parse: Parse)

  predicate Accepted(p: Parse, s: Source, threshold: real) {
    && p.decision.Multiple?
    && !s.single
    && (s.multiple || s.segments > 0
        || (p.basis != SingleGoal && p.basis != Uncertain && p.confidence >= threshold))
  }

  /** The policy at the end: several items are kept only if accepted, and fall back on the consolidated one. */
  function Policy(p: Parse, s: Source, threshold: real): Result {
    if p.decision.Single? || Accepted(p, s, threshold) then Ok(p)
    else if p.consolidated.None? then Fail(NoFallback)
    else Ok(Parse([p.consolidated.value], Single, if s.single then SingleGoal else Uncertain, p.confidence, None))
  }

  predicate Sure(p: Parse, s: Source, threshold: real) {
    !s.single && (s.multiple || s.segments != 0
      || (p.basis in {ExplicitList, SeparateSentences, IndependentOutcomes} && threshold <= p.confidence))
  }

  /** What an answer comes to: itself if it has one item or is sure of several; its own single item where it brings one; and
      the consolidation otherwise. */
  predicate Settles(p: Parse, s: Source, consolidation: Answer, threshold: real, q: Parse) {
    if p.decision.Single? || Sure(p, s, threshold) then q == p
    else if p.consolidated.Some? then
      q.items == [p.consolidated.value] && q.decision.Single? && q.consolidated.None? && q.confidence == p.confidence
      && q.basis == (if s.single then SingleGoal else Uncertain)
    else consolidation == Draft(q)
  }

  /** The answer to settle is the second one where the first did not match explicit segments. */
  predicate Itemizes(parsed: Parse, s: Source, explicit: Answer, consolidation: Answer, threshold: real, q: Parse) {
    if s.segments >= 2 && |parsed.items| != s.segments then explicit.Draft? && Settles(explicit.parse, s, consolidation, threshold, q)
    else Settles(parsed, s, consolidation, threshold, q)
  }

  /** Several items stay several exactly if the text does not ask for one, and either asks for several, or separates them
      itself, or the provider is sure enough and found a list, separate sentences or independent outcomes. */
  lemma SeveralStay(p: Parse, s: Source, threshold: real)
    requires p.decision.Multiple?
    ensures Policy(p, s, threshold) == Ok(p) <==> Sure(p, s, threshold)
    ensures Policy(p, s, threshold) != Ok(p) && p.consolidated.Some? ==>
              Policy(p, s, threshold).Ok? && Policy(p, s, threshold).parse.items == [p.consolidated.value]
  {}

  /** Asks again when the answer does not match the explicit segments. */
  method RepairExplicit(parsed: Parse, s: Source, reply: Answer) returns (result: Result, asked: bool)
    ensures asked <==> s.segments >= 2 && |parsed.items| != s.segments
    ensures !asked ==> result == Ok(parsed)
    ensures asked && result.Ok? ==> reply == Draft(result.parse)
    ensures asked ==> (result.Ok? <==> reply.Draft? && |reply.parse.items| == s.segments && reply.parse.decision.Multiple?)
    ensures result.Fail? ==> result.fault.TimeoutFault? || result.fault.ItemizationInvalid?
  {
    asked := false;
    if s.segments < 2 || |parsed.items| == s.segments {
      return Ok(parsed), asked;
    }
    asked := true;
    if reply.TimedOut? {
      return Fail(TimeoutFault), asked;
    }
    if !reply.Draft? || |reply.parse.items| != s.segments || !reply.parse.decision.Multiple? {
      return Fail(ItemizationInvalid), asked;
    }
    return Ok(reply.parse), asked;
  }

  method RepairConsolidation(reply: Answer) returns (result: Result)
    ensures result.Ok? <==> reply.Draft? && |reply.parse.items| == 1 && reply.parse.decision.Single? && reply.parse.consolidated.None?
    ensures result.Ok? ==> reply == Draft(result.parse)
    ensures result.Fail? ==> result.fault.TimeoutFault? || result.fault.ConsolidationInvalid?
  {
    if reply.TimedOut? {
      return Fail(TimeoutFault);
    }
    if !reply.Draft? || |reply.parse.items| != 1 || !reply.parse.decision.Single? || reply.parse.consolidated.Some? {
      return Fail(ConsolidationInvalid);
    }
    return Ok(reply.parse);
  }

  /** The answer proposes several items that are not accepted, and brings the one item to use instead. */
  predicate FallsBack(p: Parse, s: Source, threshold: real) {
    p.decision.Multiple? && !Accepted(p, s, threshold) && p.consolidated.Some?
  }

  /** Normalization asks the provider at most once more. With explicit segments it fails or returns one item for each;
      the policy's missing-fallback error never comes up; and an acceptable answer is not touched. */
  method NormalizeItemization(parsed: Parse, s: Source, explicit: Answer, consolidation: Answer, threshold: real)
      returns (result: Result, calls: nat)
    requires SchemaOk(parsed) && ValidSource(s)
    requires explicit.Draft? ==> SchemaOk(explicit.parse)
    requires consolidation.Draft? ==> SchemaOk(consolidation.parse)
    ensures calls <= 1
    ensures result.Fail? ==> calls == 1 && !result.fault.NoFallback? && !result.fault.RenumberingFault?
    ensures result.Ok? ==> if FallsBack(parsed, s, threshold) then result.parse.items == [parsed.consolidated.value]
                           else ProperItems(result.parse.items) && NoSelfDependency(result.parse.items)
    ensures s.segments >= 2 && result.Ok? ==> |result.parse.items| == s.segments && result.parse.decision.Multiple?
    ensures result.Ok? ==> ValidParse(result.parse)
    ensures result.Ok? && result.parse.decision.Multiple? ==> Accepted(result.parse, s, threshold)
    ensures calls == 0 && (parsed.decision.Single? || Accepted(parsed, s, threshold)) ==> result == Ok(parsed)
    ensures FallsBack(parsed, s, threshold) ==> calls == 0 && result.Ok?
    ensures result.Ok? ==> Itemizes(parsed, s, explicit, consolidation, threshold, result.parse)
  {
    calls := 0;
    var current, asked := RepairExplicit(parsed, s, explicit);
    if asked {
      calls := calls + 1;
    }
    if current.Fail? {
      return current, calls;
    }
    var draft := current.parse;
    if draft.consolidated.None? && !Accepted(draft, s, threshold) && |draft.items| > 1 {
      var repaired := RepairConsolidation(consolidation);
      calls := calls + 1;
      if repaired.Fail? {
        return repaired, calls;
      }
      draft := repaired.parse;
    }
    result := Policy(draft, s, threshold);
  }

  /** Tasks whose wording asks for contact become follow-ups; which ones, the wording decides. */
  function Retyped(items: seq<DraftItem>, contacts: set<nat>): (r: seq<DraftItem>)
    ensures |r| == |items|
  {
    seq(|items|, n requires 0 <= n < |items| =>
      if n in contacts && items[n].dtype.DraftTask? then items[n].(dtype := DraftFollowUp) else items[n])
  }

  /** A date in front of a sequence applies to each item without one. */
  function WithSharedDue(items: seq<DraftItem>, leading: bool): (r: seq<DraftItem>)
    ensures |r| == |items|
  {
    if |items| < 2 || !leading || items[0].due.None? || !items[0].due.value.status.Resolved? then items
    else seq(|items|, n requires 0 <= n < |items| => if items[n].due.None? then items[n].(due := items[0].due) else items[n])
  }

  /** Both adjustments, item by item: only a task becomes a follow-up, and only an item without a date gets the shared one. */
  lemma AdjustedTells(items: seq<DraftItem>, contacts: set<nat>, leading: bool, n: nat)
    requires n < |items|
    ensures var item := WithSharedDue(Retyped(items, contacts), leading)[n];
            && item.dtype == (if items[n].dtype == DraftTask && n in contacts then DraftFollowUp else items[n].dtype)
            && item.due == (if items[n].due.None? && leading && |items| >= 2 && items[0].due.Some? && items[0].due.value.status == Resolved
                            then items[0].due else items[n].due)
            && item.(dtype := items[n].dtype, due := items[n].due) == items[n]
  {}

  lemma AdjustedIsProper(items: seq<DraftItem>, contacts: set<nat>, leading: bool)
    ensures ProperItems(WithSharedDue(Retyped(items, contacts), leading)) <==> ProperItems(items)
    ensures NoSelfDependency(WithSharedDue(Retyped(items, contacts), leading)) <==> NoSelfDependency(items)
  {
    hide Words;
    var adjusted := WithSharedDue(Retyped(items, contacts), leading);
    assert forall n :: 0 <= n < |items| ==> adjusted[n].dependencies == items[n].dependencies;
    assert forall n :: 0 <= n < |items| ==> WellFormed(adjusted[n]) == WellFormed(items[n]);
    assert forall n :: 0 <= n < |items| ==> TargetsIn(adjusted[n], |items|) == TargetsIn(items[n], |items|);
  }

  datatype Analysis = Analysed(items: seq<DraftItem>) | Unparsed(fault: Fault)

  /** A whole parse: at most two calls of the provider, and with explicit segments one analysed item for each or none at
      all. Renumbering fails in exactly one case: the fallback item depends on an item number that is gone with the
      others, which the schema does not rule out. */
  method ParseDraft(first: Answer, s: Source, explicit: Answer, consolidation: Answer, threshold: real,
                    contacts: set<nat>, leading: bool, fold: Folding) returns (analysis: Analysis, calls: nat)
    requires ValidSource(s)
    requires first.Draft? ==> SchemaOk(first.parse)
    requires explicit.Draft? ==> SchemaOk(explicit.parse)
    requires consolidation.Draft? ==> SchemaOk(consolidation.parse)
    ensures 1 <= calls <= 2
    ensures analysis.Analysed? && s.segments >= 2 ==> |analysis.items| == s.segments
    ensures analysis.Analysed? ==> NoSelfDependency(analysis.items)
    ensures analysis.Unparsed? ==> !analysis.fault.NoFallback?
    ensures analysis.Analysed? ==>
              && first.Draft?
              && exists p :: && Itemizes(first.parse, s, explicit, consolidation, threshold, p) && ProperItems(p.items)
                             && analysis.items == KeptItems(WithSharedDue(Retyped(p.items, contacts), leading), s.segments >= 2, fold)
    ensures analysis == Unparsed(RenumberingFault) <==>
              first.Draft? && FallsBack(first.parse, s, threshold) && !TargetsIn(first.parse.consolidated.value, 1)
  {
    hide WellFormed, TargetsIn, Deduplicated, Prepared, KeptItems, NoSelfDependency;
    calls := 1;
    if !first.Draft? {
      return Unparsed(if first.TimedOut? then TimeoutFault else InvalidAnswer), calls;
    }
    var result, repairs := NormalizeItemization(first.parse, s, explicit, consolidation, threshold);
    calls := calls + repairs;
    if result.Fail? {
      return Unparsed(result.fault), calls;
    }
    var items := WithSharedDue(Retyped(result.parse.items, contacts), leading);
    AdjustedIsProper(result.parse.items, contacts, leading);
    if s.segments >= 2 {
      KeptItemsHaveNoSelf(items, true, fold);
      KeptOneByOne(items, fold);
      return Analysed(KeptItems(items, true, fold)), calls;
    }
    if !ProperItems(items) {
      return Unparsed(RenumberingFault), calls;
    }
    var out, _ := DeduplicateItems(items, fold);
    KeptItemsHaveNoSelf(items, false, fold);
    KeptByMerging(items, fold);
    return Analysed(out), calls;
  }

  lemma KeptByMerging(items: seq<DraftItem>, fold: Folding)
    requires ProperItems(items)
    ensures KeptItems(items, false, fold) == Deduplicated(items, fold)
  {}

  function PlainItem(title: string, dependencies: seq<Dependency>): DraftItem {
    DraftItem(DraftTask, title, None, None, None, [], [], [], [], [], dependencies, 0.5)
  }

  /** An answer with two items of one uncertain goal, and a single item in their stead that waits for the second. */
  const DANGLING := Parse([PlainItem("a", []), PlainItem("b", [])], Multiple, Uncertain, 0.5,
                          Some(PlainItem("ab", [Dependency(Relation.After, "b", Some(2), None)])))

  /** The renumbering failure occurs: the schema admits such an answer, and for a text that says nothing about its
      itemization it falls back on the item whose target is gone. */
  lemma RenumberingCanFail()
    ensures SchemaOk(DANGLING) && ValidSource(Source(false, false, 0))
    ensures FallsBack(DANGLING, Source(false, false, 0), 0.8) && !TargetsIn(DANGLING.consolidated.value, 1)
  {
    var dependencies := DANGLING.consolidated.value.dependencies;
    assert dependencies[0].target == Some(2);
  }
}
