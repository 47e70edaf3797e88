/** What the answers of the Butler synthesis validator mean: the citations of an accepted synthesis come from metadata,
    and whatever one is refused for is true of it. */
module ButlerAnswers {
  import opened Prelude
  import opened Grounding
  import opened ButlerGrounding

  // ---------------------------------------------------------------- accepted

  /** How a metadata value reads as text: as it is shown, or as the given text if it counts as nothing. */
  ghost predicate ReadsAs(f: Raw, other: string, text: string) {
    match f
    case Absent => text == other
    case Value(t) => text == if t == "" then other else t
    case Other(falsy, shown) => text == if falsy then other else shown
  }

  /** Every field but the reference comes from the metadata of the source; a missing title is the reference. */
  ghost predicate Rewritten(c: Citation, m: Metadata, precedents: set<string>) {
    && ReadsAs(m.title, c.ref, c.title)
    && (exists kind :: ReadsAs(m.sourceType, "", kind) && c.sourceType == if kind == "document_segment" then "attachment" else kind)
    && (c.internalPrecedent <==> c.ref in precedents)
    && c.locator == Read(m.locator) && c.contentHash == Read(m.contentHash) && c.kind == Read(m.authorityType)
    && c.role == Read(m.role) && c.status == Read(m.status) && c.metadataStatus == Read(m.metadataStatus)
    && c.jurisdiction == Read(m.jurisdiction) && c.from == ReadDate(m.from) && c.to == ReadDate(m.to)
  }

  lemma CanonicalRewrites(c: Citation, q: Citation, precedents: set<string>, metadata: Authorities)
    requires ButlerGrounding.Canonical(c, precedents, metadata) == Ok(q)
    ensures q.ref == c.ref && c.ref in metadata && Rewritten(q, metadata[c.ref], precedents)
  {
    var m := metadata[c.ref];
    assert ReadsAs(m.title, c.ref, TextOr(m.title, c.ref)) && ReadsAs(m.sourceType, "", TextOr(m.sourceType, ""));
  }

  /** An accepted synthesis keeps everything but its citations; these keep their order and references and take every other
      field from the metadata of their source. Without metadata it is returned as it is. */
  lemma CitationsFromMetadata(s: Synthesis, x: Inputs, q: Synthesis)
    requires Outcome(s, x, Ok(q))
    ensures x.metadata.None? ==> q == s
    ensures q == s.(citations := q.citations) && SameRefs(s.citations, q.citations)
    ensures x.metadata.Some? ==> forall i :: 0 <= i < |q.citations| ==>
              q.citations[i].ref in x.metadata.value && Rewritten(q.citations[i], x.metadata.value[q.citations[i].ref], x.precedents)
  {
    if x.metadata.Some? {
      AcceptedIsRebuilt(s, x, q);
      forall i | 0 <= i < |q.citations|
        ensures q.citations[i].ref == s.citations[i].ref && q.citations[i].ref in x.metadata.value
        ensures Rewritten(q.citations[i], x.metadata.value[q.citations[i].ref], x.precedents)
      {
        CanonicalRewrites(s.citations[i], q.citations[i], x.precedents, x.metadata.value);
      }
    }
  }

  // ---------------------------------------------------------------- refused

  /** The refusal tells the truth about the synthesis and its context. */
  ghost predicate TrueOf(s: Synthesis, x: Inputs, e: Fault) {
    var md: Authorities := if x.metadata.Some? then x.metadata.value else map[];
    match e
    case UnauthorizedSupport(refs) => refs != {} && forall ref :: ref in refs <==> Supports(s, ref) && ref !in x.authorized
    case UpstreamCited => exists c :: c in s.citations && c.sourceType == "upstream_agent"
    case UnauthorizedCitations(refs) => refs != {} && forall ref :: ref in refs <==> Cited(s, ref) && ref !in x.authorized
    case SupportNotCited(refs) => refs != {} && forall ref :: ref in refs <==> Supports(s, ref) && !Cited(s, ref)
    case Mislabeled(refs) =>
      refs != {} && forall ref :: ref in refs <==> exists c :: c in s.citations && c.ref == ref && c.internalPrecedent != (ref in x.precedents)
    case SourceMetadataRequired(ref) => Supports(s, ref) && ref !in md
    case SourceMetadataInvalid(ref) => Supports(s, ref) && ref in md && Declares(md[ref].authorityType) && !Authoritative(md[ref])
    case SourceJurisdiction(ref) =>
      && Supports(s, ref) && ref in md && x.jurisdiction.Some?
      && md[ref].jurisdiction != Value(x.jurisdiction.value) && md[ref].jurisdiction != Value("ANY")
    case SourceNotEffective(ref) =>
      Supports(s, ref) && ref in md && (md[ref].status == Value("repealed") || md[ref].status == Value("superseded")) && x.historicalAsOf.None?
    case HistoricalDateOutside(ref) =>
      && Supports(s, ref) && ref in md && x.historicalAsOf.Some?
      && ((md[ref].from.On? && x.historicalAsOf.value < md[ref].from.day) || (md[ref].to.On? && x.historicalAsOf.value > md[ref].to.day))
    case UnknownStatusNotHedged => UnknownUsed(s, md) && (s.confidence > 0.6 || s.missingInformation == [])
    case CanonicalMetadataRequired(ref) => Cited(s, ref) && ref !in md
    case CanonicalInvalid(ref) => ref in md && exists c :: c in s.citations && c.ref == ref && !ButlerGrounding.CitationAllowed(c, md)
  }

  ghost predicate Cited(s: Synthesis, ref: string) {
    exists c :: c in s.citations && c.ref == ref
  }

  lemma ContextFaultIsTrue(s: Synthesis, x: Inputs)
    requires ContextFault(s, x).Some?
    ensures TrueOf(s, x, ContextFault(s, x).value)
  {
    forall ref ensures ref in SupportRefs(s) <==> Supports(s, ref) {
      SupportRefsExactly(s, ref);
    }
    assert forall ref :: ref in CitationRefs(s.citations) <==> Cited(s, ref);
    if CitesUpstream(s.citations) {
      var i :| 0 <= i < |s.citations| && s.citations[i].sourceType == "upstream_agent";
      assert s.citations[i] in s.citations;
    }
  }

  lemma SupportFaultIsTrue(s: Synthesis, x: Inputs, ref: string)
    requires x.metadata.Some? && ref in SupportRefs(s) && SupportFault(ref, x, x.metadata.value).Some?
    ensures TrueOf(s, x, SupportFault(ref, x, x.metadata.value).value)
  {
    SupportRefsExactly(s, ref);
  }

  lemma UnhedgedIsTrue(s: Synthesis, x: Inputs, metadata: Authorities)
    requires x.metadata == Some(metadata) && !SomeSupportFault(s, x, metadata) && !Hedged(s, metadata)
    ensures TrueOf(s, x, UnknownStatusNotHedged)
  {
    SupportsAllowed(s, x, metadata);
    HedgedExactly(s, metadata);
  }

  lemma CitationFaultIsTrue(s: Synthesis, x: Inputs, metadata: Authorities)
    requires x.metadata == Some(metadata) && AllOk(ButlerGrounding.Canonicals(s.citations, x.precedents, metadata)).Err?
    ensures TrueOf(s, x, AllOk(ButlerGrounding.Canonicals(s.citations, x.precedents, metadata)).error)
  {
    var i := FirstError(ButlerGrounding.Canonicals(s.citations, x.precedents, metadata));
    ButlerGrounding.CanonicalExists(s.citations[i], x.precedents, metadata);
    assert s.citations[i] in s.citations;
  }

  /** Whatever a synthesis is refused for is true of it, whichever of several faulty sources is named. */
  lemma RefusalIsTrue(s: Synthesis, x: Inputs, e: Fault)
    requires Outcome(s, x, Err(e))
    ensures TrueOf(s, x, e)
  {
    if ContextFault(s, x).Some? {
      ContextFaultIsTrue(s, x);
    } else {
      var metadata := x.metadata.value;
      if SomeSupportFault(s, x, metadata) {
        var ref :| ref in SupportRefs(s) && SupportFault(ref, x, metadata) == Some(e);
        SupportFaultIsTrue(s, x, ref);
      } else if !Hedged(s, metadata) {
        UnhedgedIsTrue(s, x, metadata);
      } else {
        CitationFaultIsTrue(s, x, metadata);
      }
    }
  }
}
