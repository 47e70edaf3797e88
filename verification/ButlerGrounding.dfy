/** The Butler synthesis validator: every statement is backed by an authorised, cited source, and citations are
    rebuilt from canonical metadata. */
module ButlerGrounding {
  import opened Prelude
  import opened Grounding

  /** A fact, issue, risk, strategy, action or conflict with the sources it rests on. */
  datatype Supported = Supported(text: string, refs: seq<string>)

  datatype Synthesis = Synthesis(
    facts: seq<Supported>, issues: seq<Supported>, risks: seq<Supported>, strategy: seq<Supported>,
    actions: seq<Supported>, conflicts: seq<Supported>,
    missingInformation: seq<string>, citations: seq<Citation>, confidence: real, draft: string)

  datatype Inputs = Inputs(authorized: set<string>, precedents: set<string>, metadata: Option<Authorities>,
                           jurisdiction: Option<string>, historicalAsOf: Option<int>)

  datatype Fault =
    | UnauthorizedSupport(refs: set<string>)
    | UpstreamCited
    | UnauthorizedCitations(refs: set<string>)
    | SupportNotCited(refs: set<string>)
    | Mislabeled(refs: set<string>)
    | SourceMetadataRequired(ref: string)
    | SourceMetadataInvalid(ref: string)
    | SourceJurisdiction(ref: string)
    | SourceNotEffective(ref: string)
    | HistoricalDateOutside(ref: string)
    | UnknownStatusNotHedged
    | CanonicalMetadataRequired(ref: string)
    | CanonicalInvalid(ref: string)

  function Statements(s: Synthesis): seq<Supported> {
    s.facts + s.issues + s.risks + s.strategy + s.actions + s.conflicts
  }

  function SupportRefs(s: Synthesis): set<string> {
    set item, ref | item in Statements(s) && ref in item.refs :: ref
  }

  function CitationRefs(cs: seq<Citation>): set<string> {
    set c | c in cs :: c.ref
  }

  function MislabeledRefs(cs: seq<Citation>, precedents: set<string>): set<string> {
    set c | c in cs && c.internalPrecedent != (c.ref in precedents) :: c.ref
  }

  predicate CitesUpstream(cs: seq<Citation>) {
    exists i :: 0 <= i < |cs| && cs[i].sourceType == "upstream_agent"
  }

  predicate Truthy(f: Raw) {
    match f
    case Absent => false
    case Value(text) => text != ""
    case Other(falsy, _) => !falsy
  }

  /** str(value or other) */
  function TextOr(f: Raw, other: string): string {
    if !Truthy(f) then other
    else match f
      case Value(text) => text
      case Other(_, shown) => shown
      case Absent => other
  }

  /** The authority a source declares, if it declares any. */
  function DeclaredAuthority(ref: string, metadata: Authorities): Option<Authority> {
    if ref in metadata && Truthy(metadata[ref].authorityType) then ReadAuthority(metadata[ref]) else None
  }

  function SupportFault(ref: string, x: Inputs, metadata: Authorities): Option<Fault> {
    if ref !in metadata then Some(SourceMetadataRequired(ref))
    else if !Truthy(metadata[ref].authorityType) then None
    else
      var authority := ReadAuthority(metadata[ref]);
      if authority.None? then Some(SourceMetadataInvalid(ref))
      else
        var a := authority.value;
        if x.jurisdiction.Some? && x.jurisdiction.value != "" && a.jurisdiction !in {x.jurisdiction.value, "ANY"}
        then Some(SourceJurisdiction(ref))
        else if a.status == "unknown" then None
        else if a.status in {"repealed", "superseded"} then
          if x.historicalAsOf.None? then Some(SourceNotEffective(ref))
          else if OutsideDates(x.historicalAsOf.value, a) then Some(HistoricalDateOutside(ref))
          else None
        else None
  }

  predicate UnknownSupport(ref: string, metadata: Authorities) {
    var a := DeclaredAuthority(ref, metadata);
    a.Some? && a.value.status == "unknown"
  }

  function Canonical(c: Citation, precedents: set<string>, metadata: Authorities): Result<Citation, Fault> {
    if c.ref !in metadata then Err(CanonicalMetadataRequired(c.ref))
    else
      var m := metadata[c.ref];
      var rebuilt := Rebuild(c.ref, TextOr(m.title, c.ref), SourceTypeOf(TextOr(m.sourceType, "")), c.ref in precedents, m);
      if rebuilt.Some? then Ok(rebuilt.value) else Err(CanonicalInvalid(c.ref))
  }

  function Canonicals(cs: seq<Citation>, precedents: set<string>, metadata: Authorities): seq<Result<Citation, Fault>> {
    seq(|cs|, i requires 0 <= i < |cs| => Canonical(cs[i], precedents, metadata))
  }

  // ---------------------------------------------------------------- one validation

  /** The checks that read only the synthesis and the authorised context. */
  function ContextFault(s: Synthesis, x: Inputs): Option<Fault> {
    var support := SupportRefs(s);
    var cited := CitationRefs(s.citations);
    if support - x.authorized != {} then Some(UnauthorizedSupport(support - x.authorized))
    else if CitesUpstream(s.citations) then Some(UpstreamCited)
    else if cited - x.authorized != {} then Some(UnauthorizedCitations(cited - x.authorized))
    else if support - cited != {} then Some(SupportNotCited(support - cited))
    else if MislabeledRefs(s.citations, x.precedents) != {} then Some(Mislabeled(MislabeledRefs(s.citations, x.precedents)))
    else None
  }

  ghost predicate Hedged(s: Synthesis, metadata: Authorities) {
    (exists ref :: ref in SupportRefs(s) && UnknownSupport(ref, metadata)) ==> s.confidence <= 0.6 && s.missingInformation != []
  }

  ghost predicate SomeSupportFault(s: Synthesis, x: Inputs, metadata: Authorities) {
    exists ref :: ref in SupportRefs(s) && SupportFault(ref, x, metadata).Some?
  }

  /** The possible outcomes; the source walks a set, so any one of several faulty sources may be reported. */
  ghost predicate Outcome(s: Synthesis, x: Inputs, r: Result<Synthesis, Fault>) {
    if ContextFault(s, x).Some? then r == Err(ContextFault(s, x).value)
    else if x.metadata.None? then r == Ok(s)
    else if SomeSupportFault(s, x, x.metadata.value) then
      r.Err? && exists ref :: ref in SupportRefs(s) && SupportFault(ref, x, x.metadata.value) == Some(r.error)
    else if !Hedged(s, x.metadata.value) then r == Err(UnknownStatusNotHedged)
    else
      match AllOk(Canonicals(s.citations, x.precedents, x.metadata.value))
      case Ok(citations) => r == Ok(s.(citations := citations))
      case Err(fault) => r == Err(fault)
  }

  method Validate(s: Synthesis, x: Inputs) returns (r: Result<Synthesis, Fault>)
    ensures Outcome(s, x, r)
  {
    var contextFault := ContextFault(s, x);
    if contextFault.Some? {
      return Err(contextFault.value);
    }
    if x.metadata.None? {
      return Ok(s);
    }
    var metadata := x.metadata.value;
    var fault, unknownStatusUsed := CheckSupport(SupportRefs(s), x, metadata);
    if fault.Some? {
      return Err(fault.value);
    }
    if unknownStatusUsed && (s.confidence > 0.6 || s.missingInformation == []) {
      return Err(UnknownStatusNotHedged);
    }
    var canonical, broken := RebuildAll(s.citations, x.precedents, metadata);
    if broken.Some? {
      return Err(broken.value);
    }
    return Ok(s.(citations := canonical));
  }

  method CheckSupport(refs: set<string>, x: Inputs, metadata: Authorities) returns (fault: Option<Fault>, unknownStatusUsed: bool)
    ensures fault.Some? ==> exists ref :: ref in refs && SupportFault(ref, x, metadata) == fault
    ensures fault.None? ==> forall ref :: ref in refs ==> SupportFault(ref, x, metadata).None?
    ensures fault.None? ==> unknownStatusUsed == exists ref :: ref in refs && UnknownSupport(ref, metadata)
  {
    unknownStatusUsed := false;
    var left := refs;
    while left != {}
      invariant left <= refs
      invariant forall ref :: ref in refs - left ==> SupportFault(ref, x, metadata).None?
      invariant unknownStatusUsed == exists ref :: ref in refs - left && UnknownSupport(ref, metadata)
      decreases left
    {
      var ref :| ref in left;
      var found := SupportFault(ref, x, metadata);
      if found.Some? {
        return found, unknownStatusUsed;
      }
      assert refs - (left - {ref}) == refs - left + {ref};
      left := left - {ref};
      if UnknownSupport(ref, metadata) {
        unknownStatusUsed := true;
      }
    }
    assert refs - left == refs;
    fault := None;
  }

  method RebuildAll(cs: seq<Citation>, precedents: set<string>, metadata: Authorities)
    returns (canonical: seq<Citation>, broken: Option<Fault>)
    ensures AllOk(Canonicals(cs, precedents, metadata)) == if broken.Some? then Err(broken.value) else Ok(canonical)
  {
    canonical := [];
    ghost var all := Canonicals(cs, precedents, metadata);
    for i := 0 to |cs|
      invariant AllOk(all[..i]) == Ok(canonical)
    {
      var rebuilt := Canonical(cs[i], precedents, metadata);
      AllOkNext(all, i, canonical);
      if rebuilt.Err? {
        return canonical, Some(rebuilt.error);
      }
      canonical := canonical + [rebuilt.value];
    }
    assert all[..|cs|] == all;
    broken := None;
  }

  // ---------------------------------------------------------------- what acceptance means

  /** A source may support a statement: its metadata is known and, if it declares an authority, that one is
      readable, of the analysed jurisdiction, and in force then or covering the historical date. */
  ghost predicate SourceAllowed(ref: string, x: Inputs, metadata: Authorities) {
    && ref in metadata
    && var m := metadata[ref];
       Declares(m.authorityType) ==>
         && Authoritative(m)
         && (x.jurisdiction.Some? && x.jurisdiction.value != "" ==> m.jurisdiction.text == x.jurisdiction.value || m.jurisdiction.text == "ANY")
         && (m.status.text == "repealed" || m.status.text == "superseded" ==>
               && x.historicalAsOf.Some?
               && (m.from.On? ==> m.from.day <= x.historicalAsOf.value)
               && (m.to.On? ==> x.historicalAsOf.value <= m.to.day))
  }

  /** The metadata says what kind of authority the source is, in whatever form. */
  predicate Declares(f: Raw) {
    match f
    case Absent => false
    case Value(text) => text != ""
    case Other(falsy, _) => !falsy
  }

  /** Some statement of the synthesis, of whichever kind, rests on the source. */
  ghost predicate Supports(s: Synthesis, ref: string) {
    exists item: Supported ::
      && (item in s.facts || item in s.issues || item in s.risks || item in s.strategy || item in s.actions || item in s.conflicts)
      && ref in item.refs
  }

  lemma SupportRefsExactly(s: Synthesis, ref: string)
    ensures ref in SupportRefs(s) <==> Supports(s, ref)
  {
    assert forall item: Supported :: item in Statements(s) <==>
             item in s.facts || item in s.issues || item in s.risks || item in s.strategy || item in s.actions || item in s.conflicts;
    if ref in SupportRefs(s) {
      var item :| item in Statements(s) && ref in item.refs;
    }
  }

  ghost predicate ContextAllowed(s: Synthesis, x: Inputs) {
    && (forall ref :: Supports(s, ref) ==> ref in x.authorized && exists i :: 0 <= i < |s.citations| && s.citations[i].ref == ref)
    && (forall i :: 0 <= i < |s.citations| ==>
          && s.citations[i].ref in x.authorized
          && s.citations[i].sourceType != "upstream_agent"
          && (s.citations[i].internalPrecedent <==> s.citations[i].ref in x.precedents))
  }

  /** The text of a field, as the source shows it, names a kind of source. */
  predicate NamesType(f: Raw) {
    match f
    case Absent => false
    case Value(text) => text == "document_segment" || text in SOURCE_TYPES
    case Other(falsy, shown) => !falsy && (shown == "document_segment" || shown in SOURCE_TYPES)
  }

  /** A citation can be rebuilt: its metadata names a kind of source and holds nothing of a wrong type; a missing
      title is made up from the reference. */
  ghost predicate CitationAllowed(c: Citation, metadata: Authorities) {
    && c.ref in metadata && c.ref != ""
    && var m := metadata[c.ref];
    && NamesType(m.sourceType) && (m.title.Other? && !m.title.falsy ==> m.title.shown != "")
    && !m.locator.Other? && !m.contentHash.Other? && !m.jurisdiction.Other? && !m.from.NotADate? && !m.to.NotADate?
    && MissingOr(m.authorityType, AUTHORITY_TYPES) && MissingOr(m.role, ROLES)
    && MissingOr(m.status, STATUSES) && MissingOr(m.metadataStatus, METADATA_STATUSES)
  }

  /** A source of unknown status is used. */
  ghost predicate UnknownUsed(s: Synthesis, metadata: Authorities) {
    exists ref :: Supports(s, ref) && ref in metadata && Declares(metadata[ref].authorityType) && metadata[ref].status == Value("unknown")
  }

  ghost predicate Allowed(s: Synthesis, x: Inputs) {
    && ContextAllowed(s, x)
    && (x.metadata.Some? ==>
          && (forall ref :: Supports(s, ref) ==> SourceAllowed(ref, x, x.metadata.value))
          && (UnknownUsed(s, x.metadata.value) ==> s.confidence <= 0.6 && s.missingInformation != [])
          && (forall i :: 0 <= i < |s.citations| ==> CitationAllowed(s.citations[i], x.metadata.value)))
  }

  lemma NoContextFault(s: Synthesis, x: Inputs)
    ensures ContextFault(s, x).None? <==> ContextAllowed(s, x)
  {
    var support, cited := SupportRefs(s), CitationRefs(s.citations);
    forall ref ensures ref in support <==> Supports(s, ref) {
      SupportRefsExactly(s, ref);
    }
    forall i | 0 <= i < |s.citations| ensures s.citations[i].ref in cited {
      assert s.citations[i] in s.citations;
    }
    forall ref | ref in cited ensures exists i :: 0 <= i < |s.citations| && s.citations[i].ref == ref {
      var c :| c in s.citations && c.ref == ref;
      var i :| 0 <= i < |s.citations| && s.citations[i] == c;
    }
    if ContextFault(s, x).None? {
      assert support <= x.authorized && cited <= x.authorized && support <= cited by {
        assert support - x.authorized == {} && cited - x.authorized == {} && support - cited == {};
        assert forall ref :: ref in support && ref !in x.authorized ==> ref in support - x.authorized;
        assert forall ref :: ref in cited && ref !in x.authorized ==> ref in cited - x.authorized;
        assert forall ref :: ref in support && ref !in cited ==> ref in support - cited;
      }
      forall i | 0 <= i < |s.citations| ensures s.citations[i].internalPrecedent <==> s.citations[i].ref in x.precedents {
        assert s.citations[i] in s.citations;
        assert s.citations[i].ref !in MislabeledRefs(s.citations, x.precedents);
      }
    }
    if ContextAllowed(s, x) {
      assert support - x.authorized == {} && cited - x.authorized == {} && support - cited == {};
      assert MislabeledRefs(s.citations, x.precedents) == {};
    }
  }

  lemma SourceAllowedExactly(ref: string, x: Inputs, metadata: Authorities)
    ensures SupportFault(ref, x, metadata).None? <==> SourceAllowed(ref, x, metadata)
  {
  }

  lemma HedgedExactly(s: Synthesis, metadata: Authorities)
    requires forall ref :: Supports(s, ref) ==> ref in metadata && (Declares(metadata[ref].authorityType) ==> Authoritative(metadata[ref]))
    ensures Hedged(s, metadata) <==> (UnknownUsed(s, metadata) ==> s.confidence <= 0.6 && s.missingInformation != [])
  {
    forall ref ensures ref in SupportRefs(s) <==> Supports(s, ref) {
      SupportRefsExactly(s, ref);
    }
    forall ref | Supports(s, ref)
      ensures UnknownSupport(ref, metadata) <==> Declares(metadata[ref].authorityType) && metadata[ref].status == Value("unknown")
    {
    }
  }

  lemma SupportsAllowed(s: Synthesis, x: Inputs, metadata: Authorities)
    ensures SomeSupportFault(s, x, metadata) <==> exists ref :: Supports(s, ref) && !SourceAllowed(ref, x, metadata)
  {
    forall ref ensures (ref in SupportRefs(s) <==> Supports(s, ref)) && (SupportFault(ref, x, metadata).None? <==> SourceAllowed(ref, x, metadata)) {
      SupportRefsExactly(s, ref);
      SourceAllowedExactly(ref, x, metadata);
    }
  }

  /** Validation succeeds exactly for allowed syntheses, and only the citations of the result may differ. */
  lemma AcceptsExactly(s: Synthesis, x: Inputs, r: Result<Synthesis, Fault>)
    requires Outcome(s, x, r)
    ensures r.Ok? <==> Allowed(s, x)
    ensures r.Ok? ==> r.value == s.(citations := r.value.citations)
  {
    NoContextFault(s, x);
    if x.metadata.Some? {
      SupportsAllowed(s, x, x.metadata.value);
      if !SomeSupportFault(s, x, x.metadata.value) { HedgedExactly(s, x.metadata.value); }
      CanonicalsOk(s.citations, x.precedents, x.metadata.value);
    }
  }

  lemma CanonicalExists(c: Citation, precedents: set<string>, metadata: Authorities)
    ensures Canonical(c, precedents, metadata).Ok? <==> CitationAllowed(c, metadata)
  {
    if c.ref in metadata {
      var m := metadata[c.ref];
      assert "document_segment" !in SOURCE_TYPES && "" !in SOURCE_TYPES && "attachment" in SOURCE_TYPES;
      assert SourceTypeOf(TextOr(m.sourceType, "")) in SOURCE_TYPES <==> NamesType(m.sourceType);
    }
  }

  lemma CanonicalsOk(cs: seq<Citation>, precedents: set<string>, metadata: Authorities)
    ensures AllOk(Canonicals(cs, precedents, metadata)).Ok? <==> forall i :: 0 <= i < |cs| ==> CitationAllowed(cs[i], metadata)
  {
    var all := Canonicals(cs, precedents, metadata);
    AllOkMeans(all);
    forall i | 0 <= i < |cs| ensures all[i].Ok? <==> CitationAllowed(cs[i], metadata) {
      CanonicalExists(cs[i], precedents, metadata);
    }
  }

  // ---------------------------------------------------------------- validating again

  lemma CanonicalAgain(c: Citation, precedents: set<string>, metadata: Authorities)
    requires Canonical(c, precedents, metadata).Ok?
    ensures var q := Canonical(c, precedents, metadata).value;
            && q.ref == c.ref && q.internalPrecedent == (c.ref in precedents) && c.ref in metadata
            && q.sourceType == SourceTypeOf(TextOr(metadata[c.ref].sourceType, ""))
            && Canonical(q, precedents, metadata) == Ok(q)
  {
  }

  ghost predicate Rebuilt(cs: seq<Citation>, out: seq<Citation>, precedents: set<string>, metadata: Authorities) {
    |cs| == |out| && forall i :: 0 <= i < |cs| ==> Canonical(cs[i], precedents, metadata) == Ok(out[i])
  }

  lemma RebuiltKeeps(cs: seq<Citation>, out: seq<Citation>, precedents: set<string>, metadata: Authorities)
    requires Rebuilt(cs, out, precedents, metadata)
    ensures Rebuilt(out, out, precedents, metadata) && SameRefs(cs, out)
    ensures forall i :: 0 <= i < |out| ==>
              && out[i].internalPrecedent == (out[i].ref in precedents) && cs[i].ref in metadata
              && out[i].sourceType == SourceTypeOf(TextOr(metadata[cs[i].ref].sourceType, ""))
  {
    forall i | 0 <= i < |cs|
      ensures Canonical(out[i], precedents, metadata) == Ok(out[i]) && cs[i].ref == out[i].ref && cs[i].ref in metadata
      ensures out[i].internalPrecedent == (out[i].ref in precedents)
      ensures out[i].sourceType == SourceTypeOf(TextOr(metadata[cs[i].ref].sourceType, ""))
    {
      CanonicalAgain(cs[i], precedents, metadata);
    }
  }

  /** An accepted synthesis holds citations rebuilt from metadata. */
  lemma AcceptedIsRebuilt(s: Synthesis, x: Inputs, q: Synthesis)
    requires Outcome(s, x, Ok(q)) && x.metadata.Some?
    ensures Rebuilt(s.citations, q.citations, x.precedents, x.metadata.value) && q == s.(citations := q.citations)
  {
    AllOkMeans(Canonicals(s.citations, x.precedents, x.metadata.value));
  }

  /** The metadata calls a cited source the output of another agent. */
  ghost predicate UpstreamSource(s: Synthesis, metadata: Authorities) {
    exists i :: 0 <= i < |s.citations| && s.citations[i].ref in metadata
                && TextOr(metadata[s.citations[i].ref].sourceType, "") == "upstream_agent"
  }

  /** Validating an accepted synthesis again returns it unchanged, unless the metadata itself names an upstream
      agent: the check reads the label the model wrote, before the canonical one replaces it. */
  lemma ValidatedAgain(s: Synthesis, x: Inputs, q: Synthesis, r: Result<Synthesis, Fault>)
    requires Outcome(s, x, Ok(q)) && x.metadata.Some? && Outcome(q, x, r)
    ensures r == Ok(q) <==> !UpstreamSource(s, x.metadata.value)
    ensures UpstreamSource(s, x.metadata.value) ==> r == Err(UpstreamCited)
  {
    var metadata := x.metadata.value;
    AcceptsExactly(s, x, Ok(q));
    AcceptsExactly(q, x, r);
    AcceptedIsRebuilt(s, x, q);
    RebuiltKeeps(s.citations, q.citations, x.precedents, metadata);
    assert Statements(q) == Statements(s) && SupportRefs(q) == SupportRefs(s);
    if UpstreamSource(s, metadata) {
      var i :| 0 <= i < |s.citations| && s.citations[i].ref in metadata
               && TextOr(metadata[s.citations[i].ref].sourceType, "") == "upstream_agent";
      assert q.citations[i].sourceType == "upstream_agent";
      UpstreamRejected(q, x, r);
    } else {
      RebuiltAllowed(s, x, q);
      AllOkMeans(Canonicals(q.citations, x.precedents, metadata));
      if r.Ok? {
        AcceptedIsRebuilt(q, x, r.value);
        assert r.value.citations == q.citations;
      }
    }
  }

  lemma UpstreamRejected(q: Synthesis, x: Inputs, r: Result<Synthesis, Fault>)
    requires Outcome(q, x, r) && CitesUpstream(q.citations) && SupportRefs(q) <= x.authorized
    ensures r == Err(UpstreamCited)
  {
    assert SupportRefs(q) - x.authorized == {};
  }

  lemma RebuiltAllowed(s: Synthesis, x: Inputs, q: Synthesis)
    requires x.metadata.Some? && Allowed(s, x) && !UpstreamSource(s, x.metadata.value)
    requires Rebuilt(s.citations, q.citations, x.precedents, x.metadata.value) && q == s.(citations := q.citations)
    ensures Allowed(q, x)
  {
    var metadata := x.metadata.value;
    RebuiltKeeps(s.citations, q.citations, x.precedents, metadata);
    SameSupports(s, q);
    forall ref | Supports(q, ref) ensures exists i :: 0 <= i < |q.citations| && q.citations[i].ref == ref {
      var i :| 0 <= i < |s.citations| && s.citations[i].ref == ref;
      assert q.citations[i].ref == ref;
    }
    forall i | 0 <= i < |q.citations|
      ensures q.citations[i].sourceType != "upstream_agent" && q.citations[i].ref in x.authorized
      ensures CitationAllowed(q.citations[i], metadata)
    {
      assert s.citations[i].ref in metadata;
      CanonicalExists(q.citations[i], x.precedents, metadata);
    }
    assert UnknownUsed(q, metadata) == UnknownUsed(s, metadata);
  }

  lemma SameSupports(s: Synthesis, q: Synthesis)
    requires q == s.(citations := q.citations)
    ensures forall ref :: Supports(q, ref) <==> Supports(s, ref)
  {
  }

  const UPSTREAM := Metadata(Value("Answer"), Value("upstream_agent"), Absent, Absent, Absent, Absent, Absent,
                             Absent, Absent, NoDate, NoDate)
  const ONE_SOURCE := Inputs({"s"}, {}, Some(map["s" := UPSTREAM]), None, None)
  const LABELLED_ATTACHMENT :=
    Citation("s", "Answer", "attachment", None, None, false, None, None, None, None, None, None, None)
  const RELABELLED := LABELLED_ATTACHMENT.(sourceType := "upstream_agent")
  const ONE_STATEMENT :=
    Synthesis([Supported("fact", ["s"])], [], [], [], [], [], [], [LABELLED_ATTACHMENT], 0.5, "draft")

  lemma OneReference(s: Synthesis)
    requires Statements(s) == [Supported("fact", ["s"])]
    ensures SupportRefs(s) == {"s"}
  {
    assert Statements(s)[0] in Statements(s);
    assert "s" in Statements(s)[0].refs;
  }

  /** A citation the model calls an attachment is accepted and comes out as an upstream agent's, which the same
      validator then refuses. */
  lemma RelabelledExample()
    ensures Outcome(ONE_STATEMENT, ONE_SOURCE, Ok(ONE_STATEMENT.(citations := [RELABELLED])))
    ensures Outcome(ONE_STATEMENT.(citations := [RELABELLED]), ONE_SOURCE, Err(UpstreamCited))
  {
    var s, x := ONE_STATEMENT, ONE_SOURCE;
    var q := s.(citations := [RELABELLED]);
    assert Statements(s) == [s.facts[0]] && Statements(q) == [s.facts[0]];
    OneReference(s);
    OneReference(q);
    assert CitationRefs(s.citations) == {"s"} by { assert LABELLED_ATTACHMENT in s.citations; }
    assert ContextAllowed(s, x) by { assert s.citations[0].ref == "s"; }
    NoContextFault(s, x);
    var all := Canonicals(s.citations, x.precedents, x.metadata.value);
    assert Canonical(LABELLED_ATTACHMENT, {}, x.metadata.value) == Ok(RELABELLED);
    AllOkMeans(all);
    assert all[0] == Ok(RELABELLED);
    assert AllOk(all).value == [RELABELLED];
    assert q.citations[0].sourceType == "upstream_agent";
    assert CitesUpstream(q.citations);
    assert SupportRefs(q) - x.authorized == {};
  }
}
