/** The specialist validator: no reference outside the authorised context, legal bases that meet their
    source's authority, date and jurisdiction, and citations rebuilt from canonical metadata. */
module Grounding {
  import opened Prelude
  import opened Text

  // ---------------------------------------------------------------- references anywhere in an output

  /** A dumped product; dates are leaves of their own. */
  datatype Json =
    | Null
    | Bool(b: bool)
    | Number(n: real)
    | Date(day: int)
    | Str(text: string)
    | List(items: seq<Json>)
    | Dict(entries: seq<Entry>)

  datatype Entry = Entry(key: string, value: Json)

  const REFERENCE_LISTS := {"sourceRefs", "supportRefs", "basisRefs", "evidenceRefs"}

  predicate IsReferenceList(field: Option<string>) {
    field.Some? && field.value in REFERENCE_LISTS
  }

  /** What the recursive walk collects; `field` is the dictionary key right above the value. */
  function References(v: Json, field: Option<string>): set<string> {
    match v
    case List(items) =>
      if IsReferenceList(field) then set i | 0 <= i < |items| && items[i].Str? :: items[i].text
      else set i, r | 0 <= i < |items| && r in References(items[i], None) :: r
    case Dict(entries) =>
      set i, r | 0 <= i < |entries| && r in References(entries[i].value, Some(entries[i].key)) :: r
    case Str(text) => if field == Some("sourceRef") then {text} else {}
    case _ => {}
  }

  ghost function FromItems(items: seq<Json>, n: nat): set<string>
    requires n <= |items|
  {
    set k, r | 0 <= k < n && r in References(items[k], None) :: r
  }

  ghost function FromEntries(entries: seq<Entry>, n: nat): set<string>
    requires n <= |entries|
  {
    set k, r | 0 <= k < n && r in References(entries[k].value, Some(entries[k].key)) :: r
  }

  lemma ItemsCollected(items: seq<Json>, v: Json, field: Option<string>)
    requires v == List(items) && !IsReferenceList(field)
    ensures FromItems(items, |items|) == References(v, field)
  {
    forall r ensures r in FromItems(items, |items|) <==> r in References(v, field) {
    }
  }

  lemma EntriesCollected(entries: seq<Entry>, v: Json, field: Option<string>)
    requires v == Dict(entries)
    ensures FromEntries(entries, |entries|) == References(v, field)
  {
    forall r ensures r in FromEntries(entries, |entries|) <==> r in References(v, field) {
    }
  }

  method Collect(v: Json, field: Option<string>, before: set<string>) returns (used: set<string>)
    ensures used == before + References(v, field)
    decreases v
  {
    used := before;
    match v {
      case List(items) =>
        if IsReferenceList(field) {
          used := used + set i | 0 <= i < |items| && items[i].Str? :: items[i].text;
          assert used == before + References(v, field);
        } else {
          for i := 0 to |items|
            invariant used == before + FromItems(items, i)
          {
            used := Collect(items[i], None, used);
          }
          ItemsCollected(items, v, field);
        }
      case Dict(entries) =>
        for i := 0 to |entries|
          invariant used == before + FromEntries(entries, i)
        {
          used := Collect(entries[i].value, Some(entries[i].key), used);
        }
        EntriesCollected(entries, v, field);
      case Str(text) =>
        if field == Some("sourceRef") {
          used := used + {text};
        }
        assert used == before + References(v, field);
      case _ =>
        assert References(v, field) == {};
    }
  }

  /** One step down an output tree. */
  datatype Step = Item(index: nat) | Member(index: nat, key: string)

  function At(v: Json, path: seq<Step>): Option<Json> {
    if path == [] then Some(v)
    else match path[0]
      case Item(i) => if v.List? && i < |v.items| then At(v.items[i], path[1..]) else None
      case Member(i, key) =>
        if v.Dict? && i < |v.entries| && v.entries[i].key == key then At(v.entries[i].value, path[1..]) else None
  }

  /** The dictionary key right above the value that the first `n` steps lead to. */
  function KeyAbove(field: Option<string>, path: seq<Step>, n: nat): Option<string>
    requires n <= |path|
  {
    if n == 0 then field
    else match path[n - 1]
      case Item(_) => None
      case Member(_, key) => Some(key)
  }

  /** The path leads to `ref` as a source reference or as an entry of a reference list, and does not pass
      through an entry of a reference list on the way. */
  ghost predicate Cites(v: Json, field: Option<string>, path: seq<Step>, ref: string) {
    && At(v, path) == Some(Str(ref))
    && (KeyAbove(field, path, |path|) == Some("sourceRef") ||
        (|path| >= 1 && path[|path| - 1].Item? && IsReferenceList(KeyAbove(field, path, |path| - 1))))
    && forall i :: 0 <= i < |path| - 1 && path[i].Item? ==> !IsReferenceList(KeyAbove(field, path, i))
  }

  lemma KeyAboveTail(field: Option<string>, step: Step, path: seq<Step>, n: nat)
    requires n <= |path|
    ensures KeyAbove(field, [step] + path, n + 1) == KeyAbove(if step.Item? then None else Some(step.key), path, n)
  {
  }

  lemma CitesAbove(v: Json, field: Option<string>, step: Step, child: Json, path: seq<Step>, ref: string)
    requires At(v, [step]) == Some(child) && !(step.Item? && IsReferenceList(field))
    requires Cites(child, if step.Item? then None else Some(step.key), path, ref)
    ensures Cites(v, field, [step] + path, ref)
  {
    var whole := [step] + path;
    assert whole[1..] == path && [step][1..] == [];
    forall i | 0 <= i < |whole| - 1 && whole[i].Item? ensures !IsReferenceList(KeyAbove(field, whole, i)) {
      if i > 0 {
        KeyAboveTail(field, step, path, i - 1);
        assert whole[i] == path[i - 1];
      }
    }
    KeyAboveTail(field, step, path, |path|);
    if path != [] { KeyAboveTail(field, step, path, |path| - 1); }
  }

  lemma CitesBelow(v: Json, field: Option<string>, step: Step, child: Json, path: seq<Step>, ref: string)
    requires At(v, [step]) == Some(child) && !(step.Item? && IsReferenceList(field))
    requires Cites(v, field, [step] + path, ref)
    ensures Cites(child, if step.Item? then None else Some(step.key), path, ref)
  {
    var below := if step.Item? then None else Some(step.key);
    var whole := [step] + path;
    assert whole[1..] == path && [step][1..] == [];
    forall i | 0 <= i < |path| - 1 && path[i].Item? ensures !IsReferenceList(KeyAbove(below, path, i)) {
      KeyAboveTail(field, step, path, i);
      assert whole[i + 1] == path[i];
    }
    KeyAboveTail(field, step, path, |path|);
    if path != [] { KeyAboveTail(field, step, path, |path| - 1); }
  }

  /** A step in front of a citing path, unless it enters a reference list. */
  lemma CitesDown(v: Json, field: Option<string>, step: Step, child: Json, path: seq<Step>, ref: string)
    requires At(v, [step]) == Some(child) && !(step.Item? && IsReferenceList(field))
    ensures Cites(v, field, [step] + path, ref) <==> Cites(child, if step.Item? then None else Some(step.key), path, ref)
  {
    if Cites(v, field, [step] + path, ref) { CitesBelow(v, field, step, child, path, ref); }
    if Cites(child, if step.Item? then None else Some(step.key), path, ref) { CitesAbove(v, field, step, child, path, ref); }
  }

  lemma {:induction false} CollectedIsCited(v: Json, field: Option<string>, ref: string) returns (path: seq<Step>)
    requires ref in References(v, field)
    ensures Cites(v, field, path, ref)
    decreases v
  {
    match v
    case List(items) =>
      if IsReferenceList(field) {
        var i :| 0 <= i < |items| && items[i].Str? && items[i].text == ref;
        path := [Item(i)];
      } else {
        var i :| 0 <= i < |items| && ref in References(items[i], None);
        var rest := CollectedIsCited(items[i], None, ref);
        path := [Item(i)] + rest;
        CitesDown(v, field, Item(i), items[i], rest, ref);
      }
    case Dict(entries) =>
      var i :| 0 <= i < |entries| && ref in References(entries[i].value, Some(entries[i].key));
      var rest := CollectedIsCited(entries[i].value, Some(entries[i].key), ref);
      path := [Member(i, entries[i].key)] + rest;
      CitesDown(v, field, Member(i, entries[i].key), entries[i].value, rest, ref);
    case Str(text) => path := [];
  }

  lemma {:induction false} CitedIsCollected(v: Json, field: Option<string>, path: seq<Step>, ref: string)
    requires Cites(v, field, path, ref)
    ensures ref in References(v, field)
    decreases |path|
  {
    if path != [] {
      var rest := path[1..];
      assert path == [path[0]] + rest;
      match path[0]
      case Item(i) =>
        if IsReferenceList(field) {
          assert |path| == 1 && rest == [];
          assert At(v, path) == At(v.items[i], rest) == Some(v.items[i]);
        } else {
          assert At(v, [path[0]]) == Some(v.items[i]);
          CitesDown(v, field, path[0], v.items[i], rest, ref);
          CitedIsCollected(v.items[i], None, rest, ref);
        }
      case Member(i, key) =>
        assert At(v, [path[0]]) == Some(v.entries[i].value);
        CitesDown(v, field, path[0], v.entries[i].value, rest, ref);
        CitedIsCollected(v.entries[i].value, Some(key), rest, ref);
    }
  }

  /** The walk finds a reference exactly when some path through the output cites it. */
  lemma CollectFindsAll(v: Json, ref: string)
    ensures ref in References(v, None) <==> exists path :: Cites(v, None, path, ref)
  {
    if ref in References(v, None) {
      var path := CollectedIsCited(v, None, ref);
    }
    if path :| Cites(v, None, path, ref) {
      CitedIsCollected(v, None, path, ref);
    }
  }

  // ---------------------------------------------------------------- metadata of sources

  /** An entry of the metadata mapping; any value that is not text shows as some text and may be falsy. */
  datatype Raw = Absent | Value(text: string) | Other(falsy: bool, shown: string)

  datatype RawDate = NoDate | On(day: int) | NotADate

  datatype Metadata = Metadata(
    title: Raw, sourceType: Raw, contentHash: Raw, locator: Raw,
    authorityType: Raw, role: Raw, status: Raw, metadataStatus: Raw, jurisdiction: Raw,
    from: RawDate, to: RawDate)

  const AUTHORITY_TYPES := {
    "unknown", "law", "administrative_regulation", "judicial_interpretation", "department_rule", "local_regulation",
    "local_government_rule", "normative_document", "guiding_case", "court_case", "regulatory_guidance", "contract",
    "company_policy", "business_rule", "legal_opinion", "internal_precedent"}
  const ROLES := {"formal_legal_basis", "persuasive_authority", "contractual_basis", "internal_basis",
                  "strategy_reference"}
  const STATUSES := {"effective", "superseded", "repealed", "unknown"}
  const METADATA_STATUSES := {"ready", "pending_metadata"}
  const SOURCE_TYPES := {"context_snapshot", "feishu_message", "attachment", "knowledge_document", "historical_matter",
                         "approved_example", "upstream_agent"}

  /** SourceAuthorityMetadata */
  datatype Authority = Authority(kind: string, role: Option<string>, status: string, metadataStatus: string,
                                 jurisdiction: string, from: Option<int>, to: Option<int>)

  predicate OneOf(f: Raw, allowed: set<string>) {
    f.Value? && f.text in allowed
  }

  function Read(f: Raw): Option<string> {
    if f.Value? then Some(f.text) else None
  }

  function ReadDate(f: RawDate): Option<int> {
    if f.On? then Some(f.day) else None
  }

  /** Type, status, metadata status and jurisdiction are required; the role and the dates may be missing. */
  function ReadAuthority(m: Metadata): Option<Authority> {
    if OneOf(m.authorityType, AUTHORITY_TYPES) && (m.role.Absent? || OneOf(m.role, ROLES)) && OneOf(m.status, STATUSES)
       && OneOf(m.metadataStatus, METADATA_STATUSES) && m.jurisdiction.Value? && m.jurisdiction.text != ""
       && !m.from.NotADate? && !m.to.NotADate?
    then Some(Authority(m.authorityType.text, Read(m.role), m.status.text, m.metadataStatus.text, m.jurisdiction.text,
                        ReadDate(m.from), ReadDate(m.to)))
    else None
  }

  datatype Citation = Citation(
    ref: string, title: string, sourceType: string, locator: Option<string>, contentHash: Option<string>,
    internalPrecedent: bool, kind: Option<string>, role: Option<string>, status: Option<string>,
    metadataStatus: Option<string>, jurisdiction: Option<string>, from: Option<int>, to: Option<int>)

  predicate MissingOr(f: Raw, allowed: set<string>) {
    f.Absent? || OneOf(f, allowed)
  }

  /** LegalCitation.model_validate on canonical metadata. */
  function Rebuild(ref: string, title: string, sourceType: string, precedent: bool, m: Metadata): (c: Option<Citation>)
    ensures c.Some? ==> c.value.ref == ref
  {
    if ref != "" && title != "" && sourceType in SOURCE_TYPES && !m.locator.Other? && !m.contentHash.Other?
       && MissingOr(m.authorityType, AUTHORITY_TYPES) && MissingOr(m.role, ROLES) && MissingOr(m.status, STATUSES)
       && MissingOr(m.metadataStatus, METADATA_STATUSES) && !m.jurisdiction.Other? && !m.from.NotADate? && !m.to.NotADate?
    then Some(Citation(ref, title, sourceType, Read(m.locator), Read(m.contentHash), precedent, Read(m.authorityType), Read(m.role),
                       Read(m.status), Read(m.metadataStatus), Read(m.jurisdiction), ReadDate(m.from), ReadDate(m.to)))
    else None
  }

  function SourceTypeOf(text: string): string {
    if text == "document_segment" then "attachment" else text
  }

  // ---------------------------------------------------------------- products

  datatype BasisItem = BasisItem(proposition: string, refs: seq<string>, role: string, jurisdiction: string,
                                 effectiveDate: int, historical: bool)

  /** `rest` holds every other field of the product under its output name, whatever its shape. */
  datatype Product = Product(legalBasis: seq<BasisItem>, citations: seq<Citation>, confidence: real,
                             missingInformation: seq<string>, rest: seq<Entry>)

  function Strings(s: seq<string>): Json {
    List(seq(|s|, i requires 0 <= i < |s| => Str(s[i])))
  }

  function OrNull(s: Option<string>): Json {
    if s.Some? then Str(s.value) else Null
  }

  function DayOrNull(d: Option<int>): Json {
    if d.Some? then Date(d.value) else Null
  }

  function DumpBasis(b: BasisItem): Json {
    Dict([Entry("proposition", Str(b.proposition)), Entry("sourceRefs", Strings(b.refs)), Entry("authorityRole", Str(b.role)),
          Entry("jurisdiction", Str(b.jurisdiction)), Entry("effectiveDate", Date(b.effectiveDate)),
          Entry("historicalAnalysis", Bool(b.historical))])
  }

  function DumpCitation(c: Citation): Json {
    Dict([Entry("sourceRef", Str(c.ref)), Entry("title", Str(c.title)), Entry("sourceType", Str(c.sourceType)),
          Entry("locator", OrNull(c.locator)), Entry("contentHash", OrNull(c.contentHash)),
          Entry("internalPrecedent", Bool(c.internalPrecedent)), Entry("authorityType", OrNull(c.kind)),
          Entry("authorityRole", OrNull(c.role)), Entry("authorityStatus", OrNull(c.status)),
          Entry("metadataStatus", OrNull(c.metadataStatus)), Entry("jurisdiction", OrNull(c.jurisdiction)),
          Entry("effectiveFrom", DayOrNull(c.from)), Entry("effectiveTo", DayOrNull(c.to))])
  }

  function Dump(p: Product): Json {
    Dict([Entry("legalBasis", List(seq(|p.legalBasis|, i requires 0 <= i < |p.legalBasis| => DumpBasis(p.legalBasis[i])))),
          Entry("citations", List(seq(|p.citations|, i requires 0 <= i < |p.citations| => DumpCitation(p.citations[i])))),
          Entry("confidence", Number(p.confidence)), Entry("missingInformation", Strings(p.missingInformation))] + p.rest)
  }

  // ---------------------------------------------------------------- the checks, in the order of the source

  datatype Error =
    | Unauthorized(refs: set<string>)
    | PrecedentInBasis(refs: set<string>)
    | HistoricalMode
    | DateMismatch
    | MetadataRequired(ref: string)
    | MetadataInvalid(ref: string)
    | RoleMismatch(ref: string)
    | JurisdictionMismatch(ref: string)
    | NotEffective(ref: string)
    | OutsideValidity(ref: string)
    | FormalNotEffective(ref: string)
    | UnknownNotHedged
    | CitationMetadataRequired(ref: string)
    | CitationIncomplete(ref: string)
    | CitationInvalid(ref: string)

  type Authorities = map<string, Metadata>

  datatype Context = Context(authorized: set<string>, precedents: set<string>, authorities: Option<Authorities>,
                             analysisDate: Option<int>, historicalAsOf: Option<int>)

  function ExpectedDate(x: Context): Option<int> {
    if x.historicalAsOf.Some? then x.historicalAsOf else x.analysisDate
  }

  predicate OutsideDates(day: int, a: Authority) {
    (a.from.Some? && day < a.from.value) || (a.to.Some? && day > a.to.value)
  }

  /** The first check one source of one legal basis fails. */
  function SourceFault(item: BasisItem, ref: string, authorities: Authorities): Option<Error> {
    if ref !in authorities then Some(MetadataRequired(ref))
    else
      var authority := ReadAuthority(authorities[ref]);
      if authority.None? then Some(MetadataInvalid(ref))
      else
        var a := authority.value;
        if a.role != Some(item.role) then Some(RoleMismatch(ref))
        else if a.jurisdiction !in {item.jurisdiction, "ANY"} then Some(JurisdictionMismatch(ref))
        else if a.status == "unknown" then None
        else if a.status in {"repealed", "superseded"} && !item.historical then Some(NotEffective(ref))
        else if OutsideDates(item.effectiveDate, a) then Some(OutsideValidity(ref))
        else if item.role == "formal_legal_basis" && a.status != "effective" && !item.historical then Some(FormalNotEffective(ref))
        else None
  }

  /** Every status but "effective" is dealt with before the last check, so that one never fails. */
  lemma FormalCheckNeverFails(item: BasisItem, ref: string, authorities: Authorities)
    ensures SourceFault(item, ref, authorities) != Some(FormalNotEffective(ref))
  {
  }

  predicate UnknownStatus(ref: string, authorities: Authorities) {
    ref in authorities && OneOf(authorities[ref].status, {"unknown"})
  }

  function RefsFault(item: BasisItem, refs: seq<string>, authorities: Authorities): Option<Error> {
    if refs == [] then None
    else
      var front := RefsFault(item, refs[..|refs| - 1], authorities);
      if front.Some? then front else SourceFault(item, refs[|refs| - 1], authorities)
  }

  function ItemFault(item: BasisItem, x: Context, authorities: Authorities): Option<Error> {
    if item.historical != x.historicalAsOf.Some? then Some(HistoricalMode)
    else if ExpectedDate(x).Some? && item.effectiveDate != ExpectedDate(x).value then Some(DateMismatch)
    else RefsFault(item, item.refs, authorities)
  }

  function BasisFault(items: seq<BasisItem>, x: Context, authorities: Authorities): Option<Error> {
    if items == [] then None
    else
      var front := BasisFault(items[..|items| - 1], x, authorities);
      if front.Some? then front else ItemFault(items[|items| - 1], x, authorities)
  }

  ghost predicate AnyUnknown(refs: seq<string>, authorities: Authorities) {
    exists k :: 0 <= k < |refs| && UnknownStatus(refs[k], authorities)
  }

  ghost predicate SomeUnknown(items: seq<BasisItem>, authorities: Authorities) {
    exists i :: 0 <= i < |items| && AnyUnknown(items[i].refs, authorities)
  }

  predicate Complete(f: Raw) {
    f.Value? && !IsBlank(f.text)
  }

  /** A citation rebuilt from metadata, or why it cannot be. */
  function Canonical(c: Citation, precedents: set<string>, authorities: Authorities): Result<Citation, Error> {
    if c.ref !in authorities then Err(CitationMetadataRequired(c.ref))
    else
      var m := authorities[c.ref];
      if !Complete(m.title) || !Complete(m.sourceType) || !Complete(m.contentHash) then Err(CitationIncomplete(c.ref))
      else
        var rebuilt := Rebuild(c.ref, m.title.text, SourceTypeOf(m.sourceType.text), c.ref in precedents, m);
        if rebuilt.Some? then Ok(rebuilt.value) else Err(CitationInvalid(c.ref))
  }

  function Canonicals(cs: seq<Citation>, precedents: set<string>, authorities: Authorities): seq<Result<Citation, Error>> {
    seq(|cs|, i requires 0 <= i < |cs| => Canonical(cs[i], precedents, authorities))
  }

  function PrecedentRefs(items: seq<BasisItem>, precedents: set<string>): set<string> {
    set i, ref | 0 <= i < |items| && ref in items[i].refs && ref in precedents :: ref
  }

  ghost function Checked(p: Product, x: Context): Result<Product, Error> {
    var used := References(Dump(p), None);
    if !(used <= x.authorized) then Err(Unauthorized(used - x.authorized))
    else if PrecedentRefs(p.legalBasis, x.precedents) != {} then Err(PrecedentInBasis(PrecedentRefs(p.legalBasis, x.precedents)))
    else if x.authorities.None? then Ok(p)
    else
      var fault := BasisFault(p.legalBasis, x, x.authorities.value);
      if fault.Some? then Err(fault.value)
      else if SomeUnknown(p.legalBasis, x.authorities.value) && (p.confidence > 0.6 || p.missingInformation == [])
      then Err(UnknownNotHedged)
      else
        var citations := AllOk(Canonicals(p.citations, x.precedents, x.authorities.value));
        if citations.Err? then Err(citations.error) else Ok(p.(citations := citations.value))
  }

  method Validate(p: Product, x: Context) returns (r: Result<Product, Error>)
    ensures r == Checked(p, x)
  {
    var used := Collect(Dump(p), None, {});
    assert used == References(Dump(p), None);
    var unauthorized := used - x.authorized;
    if unauthorized != {} {
      return Err(Unauthorized(unauthorized));
    }
    var invalidBasis := PrecedentRefs(p.legalBasis, x.precedents);
    if invalidBasis != {} {
      return Err(PrecedentInBasis(invalidBasis));
    }
    if x.authorities.None? {
      return Ok(p);
    }
    var authorities := x.authorities.value;
    var fault, unknownStatusUsed := CheckBasis(p.legalBasis, x, authorities);
    if fault.Some? {
      return Err(fault.value);
    }
    if unknownStatusUsed && (p.confidence > 0.6 || p.missingInformation == []) {
      return Err(UnknownNotHedged);
    }
    var canonical: seq<Citation> := [];
    ghost var all := Canonicals(p.citations, x.precedents, authorities);
    for i := 0 to |p.citations|
      invariant AllOk(all[..i]) == Ok(canonical)
    {
      var rebuilt := Canonical(p.citations[i], x.precedents, authorities);
      AllOkNext(all, i, canonical);
      if rebuilt.Err? {
        return Err(rebuilt.error);
      }
      canonical := canonical + [rebuilt.value];
    }
    assert all[..|p.citations|] == all;
    return Ok(p.(citations := canonical));
  }

  method CheckSources(item: BasisItem, authorities: Authorities) returns (fault: Option<Error>, unknown: bool)
    ensures fault == RefsFault(item, item.refs, authorities)
    ensures fault.None? ==> unknown == AnyUnknown(item.refs, authorities)
  {
    unknown := false;
    for k := 0 to |item.refs|
      invariant RefsFault(item, item.refs[..k], authorities).None?
      invariant unknown == AnyUnknown(item.refs[..k], authorities)
    {
      assert item.refs[..k + 1][..k] == item.refs[..k];
      fault := SourceFault(item, item.refs[k], authorities);
      if fault.Some? {
        RefsFaultStays(item, k + 1, authorities);
        return;
      }
      AnyUnknownStep(item.refs, k, authorities);
      if UnknownStatus(item.refs[k], authorities) {
        unknown := true;
      }
    }
    assert item.refs[..|item.refs|] == item.refs;
    fault := None;
  }

  lemma AnyUnknownStep(refs: seq<string>, k: nat, authorities: Authorities)
    requires k < |refs|
    ensures AnyUnknown(refs[..k + 1], authorities) <==> AnyUnknown(refs[..k], authorities) || UnknownStatus(refs[k], authorities)
  {
    assert refs[..k + 1][k] == refs[k] && forall j :: 0 <= j < k ==> refs[..k + 1][j] == refs[..k][j];
  }

  method CheckBasis(items: seq<BasisItem>, x: Context, authorities: Authorities)
    returns (fault: Option<Error>, unknownStatusUsed: bool)
    ensures fault == BasisFault(items, x, authorities)
    ensures fault.None? ==> unknownStatusUsed == SomeUnknown(items, authorities)
  {
    unknownStatusUsed := false;
    for i := 0 to |items|
      invariant BasisFault(items[..i], x, authorities).None?
      invariant unknownStatusUsed == SomeUnknown(items[..i], authorities)
    {
      var item := items[i];
      assert items[..i + 1][..i] == items[..i];
      if ItemFault(item, x, authorities).Some? { BasisFaultStays(items, i + 1, x, authorities); }
      if item.historical != x.historicalAsOf.Some? {
        return Some(HistoricalMode), unknownStatusUsed;
      }
      var expected := ExpectedDate(x);
      if expected.Some? && item.effectiveDate != expected.value {
        return Some(DateMismatch), unknownStatusUsed;
      }
      var source, unknown := CheckSources(item, authorities);
      if source.Some? {
        return source, unknownStatusUsed;
      }
      unknownStatusUsed := unknownStatusUsed || unknown;
      SomeUnknownStep(items, i, authorities);
    }
    assert items[..|items|] == items;
    fault := None;
  }

  lemma SomeUnknownStep(items: seq<BasisItem>, i: nat, authorities: Authorities)
    requires i < |items|
    ensures SomeUnknown(items[..i + 1], authorities) <==>
            SomeUnknown(items[..i], authorities) || AnyUnknown(items[i].refs, authorities)
  {
    var shorter, longer := items[..i], items[..i + 1];
    assert longer[i] == items[i] && forall j :: 0 <= j < i ==> longer[j] == shorter[j];
  }

  lemma {:induction false} RefsFaultStays(item: BasisItem, n: nat, authorities: Authorities)
    requires n <= |item.refs| && RefsFault(item, item.refs[..n], authorities).Some?
    ensures RefsFault(item, item.refs, authorities) == RefsFault(item, item.refs[..n], authorities)
    decreases |item.refs| - n
  {
    if n < |item.refs| {
      assert item.refs[..n + 1][..n] == item.refs[..n];
      RefsFaultStays(item, n + 1, authorities);
    } else {
      assert item.refs[..n] == item.refs;
    }
  }

  lemma {:induction false} BasisFaultStays(items: seq<BasisItem>, n: nat, x: Context, authorities: Authorities)
    requires n <= |items| && BasisFault(items[..n], x, authorities).Some?
    ensures BasisFault(items, x, authorities) == BasisFault(items[..n], x, authorities)
    decreases |items| - n
  {
    if n < |items| {
      assert items[..n + 1][..n] == items[..n];
      BasisFaultStays(items, n + 1, x, authorities);
    } else {
      assert items[..n] == items;
    }
  }

  // ---------------------------------------------------------------- what acceptance means

  /** One source may carry one legal basis: known authority metadata with the declared role, the item's or any
      jurisdiction and, unless its status is unknown, a validity period around the item's date and an effective
      status or a historical analysis. */
  ghost predicate SourceAllowed(item: BasisItem, ref: string, authorities: Authorities) {
    && ref in authorities
    && var m := authorities[ref];
    && Authoritative(m)
    && m.role == Value(item.role)
    && (m.jurisdiction.text == item.jurisdiction || m.jurisdiction.text == "ANY")
    && (m.status.text != "unknown" ==>
          && (m.status.text == "effective" || item.historical)
          && (m.from.On? ==> m.from.day <= item.effectiveDate)
          && (m.to.On? ==> item.effectiveDate <= m.to.day))
  }

  /** The metadata names an authority: its type, status, metadata status and jurisdiction, and nothing unreadable. */
  predicate Authoritative(m: Metadata) {
    && m.authorityType.Value? && m.authorityType.text in AUTHORITY_TYPES
    && (m.role.Absent? || (m.role.Value? && m.role.text in ROLES))
    && m.status.Value? && m.status.text in STATUSES
    && m.metadataStatus.Value? && m.metadataStatus.text in METADATA_STATUSES
    && m.jurisdiction.Value? && m.jurisdiction.text != ""
    && !m.from.NotADate? && !m.to.NotADate?
  }

  ghost predicate BasisAllowed(item: BasisItem, x: Context, authorities: Authorities) {
    && (item.historical <==> x.historicalAsOf.Some?)
    && (x.historicalAsOf.Some? ==> item.effectiveDate == x.historicalAsOf.value)
    && (x.historicalAsOf.None? && x.analysisDate.Some? ==> item.effectiveDate == x.analysisDate.value)
    && forall k :: 0 <= k < |item.refs| ==> SourceAllowed(item, item.refs[k], authorities)
  }

  ghost predicate CitationAllowed(c: Citation, authorities: Authorities) {
    && c.ref in authorities && c.ref != ""
    && var m := authorities[c.ref];
    && Complete(m.title) && Complete(m.sourceType) && Complete(m.contentHash)
    && (m.sourceType.text == "document_segment" || m.sourceType.text in SOURCE_TYPES)
    && !m.locator.Other? && !m.jurisdiction.Other? && !m.from.NotADate? && !m.to.NotADate?
    && MissingOr(m.authorityType, AUTHORITY_TYPES) && MissingOr(m.role, ROLES)
    && MissingOr(m.status, STATUSES) && MissingOr(m.metadataStatus, METADATA_STATUSES)
  }

  ghost predicate AuthorityAllowed(p: Product, x: Context, authorities: Authorities) {
    && (forall i :: 0 <= i < |p.legalBasis| ==> BasisAllowed(p.legalBasis[i], x, authorities))
    && (SomeUnknown(p.legalBasis, authorities) ==> p.confidence <= 0.6 && p.missingInformation != [])
    && (forall i :: 0 <= i < |p.citations| ==> CitationAllowed(p.citations[i], authorities))
  }

  ghost predicate Grounded(p: Product, x: Context) {
    && (forall path, ref :: Cites(Dump(p), None, path, ref) ==> ref in x.authorized)
    && (forall i, k :: 0 <= i < |p.legalBasis| && 0 <= k < |p.legalBasis[i].refs| ==> p.legalBasis[i].refs[k] !in x.precedents)
    && (x.authorities.Some? ==> AuthorityAllowed(p, x, x.authorities.value))
  }

  lemma {:induction false} NoRefsFault(item: BasisItem, refs: seq<string>, authorities: Authorities)
    ensures RefsFault(item, refs, authorities).None? <==> forall k :: 0 <= k < |refs| ==> SourceAllowed(item, refs[k], authorities)
  {
    if refs != [] {
      var n := |refs| - 1;
      NoRefsFault(item, refs[..n], authorities);
      assert SourceFault(item, refs[n], authorities).None? <==> SourceAllowed(item, refs[n], authorities);
      assert forall k :: 0 <= k < n ==> refs[..n][k] == refs[k];
    }
  }

  lemma {:induction false} NoBasisFault(items: seq<BasisItem>, x: Context, authorities: Authorities)
    ensures BasisFault(items, x, authorities).None? <==> forall i :: 0 <= i < |items| ==> BasisAllowed(items[i], x, authorities)
  {
    if items != [] {
      var n := |items| - 1;
      NoBasisFault(items[..n], x, authorities);
      NoRefsFault(items[n], items[n].refs, authorities);
      assert ItemFault(items[n], x, authorities).None? <==> BasisAllowed(items[n], x, authorities);
      assert forall k :: 0 <= k < n ==> items[..n][k] == items[k];
    }
  }

  lemma CanonicalExists(c: Citation, precedents: set<string>, authorities: Authorities)
    ensures Canonical(c, precedents, authorities).Ok? <==> CitationAllowed(c, authorities)
  {
  }

  lemma UsedAreAuthorized(p: Product, authorized: set<string>)
    ensures References(Dump(p), None) <= authorized <==>
            forall path, ref :: Cites(Dump(p), None, path, ref) ==> ref in authorized
  {
    forall path, ref | Cites(Dump(p), None, path, ref) ensures ref in References(Dump(p), None) {
      CitedIsCollected(Dump(p), None, path, ref);
    }
    forall ref | ref in References(Dump(p), None) ensures exists path :: Cites(Dump(p), None, path, ref) {
      CollectFindsAll(Dump(p), ref);
    }
  }

  lemma CitationsAccepted(cs: seq<Citation>, precedents: set<string>, authorities: Authorities)
    ensures AllOk(Canonicals(cs, precedents, authorities)).Ok? <==> forall i :: 0 <= i < |cs| ==> CitationAllowed(cs[i], authorities)
  {
    AllOkMeans(Canonicals(cs, precedents, authorities));
    forall i | 0 <= i < |cs|
      ensures Canonicals(cs, precedents, authorities)[i].Ok? <==> CitationAllowed(cs[i], authorities)
    {
      CanonicalExists(cs[i], precedents, authorities);
    }
  }

  lemma AuthorityAccepted(p: Product, x: Context, authorities: Authorities)
    ensures BasisFault(p.legalBasis, x, authorities).None?
            && (SomeUnknown(p.legalBasis, authorities) ==> p.confidence <= 0.6 && p.missingInformation != [])
            && AllOk(Canonicals(p.citations, x.precedents, authorities)).Ok?
            <==> AuthorityAllowed(p, x, authorities)
  {
    NoBasisFault(p.legalBasis, x, authorities);
    CitationsAccepted(p.citations, x.precedents, authorities);
  }

  /** The validator accepts a product exactly when it is grounded. */
  lemma AcceptsExactly(p: Product, x: Context)
    ensures Checked(p, x).Ok? <==> Grounded(p, x)
  {
    UsedAreAuthorized(p, x.authorized);
    PrecedentsAbsent(p.legalBasis, x.precedents);
    if x.authorities.Some? {
      AuthorityAccepted(p, x, x.authorities.value);
    }
  }

  lemma PrecedentsAbsent(items: seq<BasisItem>, precedents: set<string>)
    ensures PrecedentRefs(items, precedents) == {} <==>
            forall i, k :: 0 <= i < |items| && 0 <= k < |items[i].refs| ==> items[i].refs[k] !in precedents
  {
    forall i, k | 0 <= i < |items| && 0 <= k < |items[i].refs| && items[i].refs[k] in precedents
      ensures items[i].refs[k] in PrecedentRefs(items, precedents)
    {
    }
    forall ref | ref in PrecedentRefs(items, precedents)
      ensures exists i, k :: 0 <= i < |items| && 0 <= k < |items[i].refs| && items[i].refs[k] == ref
    {
      var i :| 0 <= i < |items| && ref in items[i].refs;
      var k :| 0 <= k < |items[i].refs| && items[i].refs[k] == ref;
    }
  }

  // ---------------------------------------------------------------- the rebuilt citations

  /** Everything but the reference comes from the metadata; the label says whether it is a precedent. */
  ghost predicate DescribedBy(c: Citation, m: Metadata, precedents: set<string>) {
    && Some(c.title) == Read(m.title) && c.contentHash == Read(m.contentHash)
    && m.sourceType.Value? && c.sourceType == SourceTypeOf(m.sourceType.text)
    && c.internalPrecedent == (c.ref in precedents)
    && c.locator == Read(m.locator) && c.kind == Read(m.authorityType) && c.role == Read(m.role) && c.status == Read(m.status)
    && c.metadataStatus == Read(m.metadataStatus) && c.jurisdiction == Read(m.jurisdiction)
    && c.from == ReadDate(m.from) && c.to == ReadDate(m.to)
  }

  ghost predicate SameRefs(a: seq<Citation>, b: seq<Citation>) {
    |a| == |b| && forall i :: 0 <= i < |a| ==> a[i].ref == b[i].ref
  }

  lemma CanonicalDescribed(c: Citation, precedents: set<string>, authorities: Authorities)
    requires Canonical(c, precedents, authorities).Ok?
    ensures var q := Canonical(c, precedents, authorities).value;
            q.ref == c.ref && c.ref in authorities && DescribedBy(q, authorities[c.ref], precedents)
  {
  }

  /** An accepted product keeps everything but its citations; these keep their order and references and take
      every other field from the metadata of their source. */
  lemma CitationsFromMetadata(p: Product, x: Context)
    requires Checked(p, x).Ok? && x.authorities.Some?
    ensures var q := Checked(p, x).value;
            && q == p.(citations := q.citations) && SameRefs(p.citations, q.citations)
            && forall i :: 0 <= i < |q.citations| ==>
                 && q.citations[i].ref in x.authorities.value
                 && DescribedBy(q.citations[i], x.authorities.value[q.citations[i].ref], x.precedents)
  {
    var all := Canonicals(p.citations, x.precedents, x.authorities.value);
    AllOkMeans(all);
    forall i | 0 <= i < |p.citations| ensures all[i] == Canonical(p.citations[i], x.precedents, x.authorities.value) && all[i].Ok? {
    }
    forall i | 0 <= i < |p.citations| ensures all[i].value.ref in x.authorities.value && all[i].value.ref == p.citations[i].ref
                                      && DescribedBy(all[i].value, x.authorities.value[all[i].value.ref], x.precedents) {
      CanonicalDescribed(p.citations[i], x.precedents, x.authorities.value);
    }
  }

  // ---------------------------------------------------------------- validating again

  lemma CitationReferences(c: Citation)
    ensures References(DumpCitation(c), None) == {c.ref}
  {
    var v := DumpCitation(c);
    assert v.entries[0] == Entry("sourceRef", Str(c.ref));
    assert c.ref in References(v.entries[0].value, Some(v.entries[0].key));
    forall r | r in References(v, None) ensures r == c.ref {
      var i :| 0 <= i < |v.entries| && r in References(v.entries[i].value, Some(v.entries[i].key));
      assert i == 0;
    }
  }

  function DumpCitations(cs: seq<Citation>): Json {
    List(seq(|cs|, i requires 0 <= i < |cs| => DumpCitation(cs[i])))
  }

  /** A list that is no reference list has the references of its items. */
  lemma ListReferences(items: seq<Json>, field: Option<string>, r: string)
    requires !IsReferenceList(field)
    ensures r in References(List(items), field) <==> exists i :: 0 <= i < |items| && r in References(items[i], None)
  {
  }

  /** A list of values with one reference each has those references. */
  lemma OneEach(items: seq<Json>, refs: seq<string>, field: Option<string>)
    requires |items| == |refs| && !IsReferenceList(field)
    requires forall i :: 0 <= i < |items| ==> References(items[i], None) == {refs[i]}
    ensures References(List(items), field) == Elements(refs)
  {
    forall r ensures r in References(List(items), field) <==> r in Elements(refs) {
      ListReferences(items, field, r);
      if r in refs {
        var i :| 0 <= i < |refs| && refs[i] == r;
        assert r in References(items[i], None);
      }
    }
  }

  function RefsOf(cs: seq<Citation>): seq<string> {
    seq(|cs|, i requires 0 <= i < |cs| => cs[i].ref)
  }

  lemma CitationListReferences(cs: seq<Citation>)
    ensures References(DumpCitations(cs), Some("citations")) == Elements(RefsOf(cs))
  {
    var items := DumpCitations(cs).items;
    forall i | 0 <= i < |items| ensures References(items[i], None) == {RefsOf(cs)[i]} {
      assert items[i] == DumpCitation(cs[i]);
      CitationReferences(cs[i]);
    }
    OneEach(items, RefsOf(cs), Some("citations"));
  }

  lemma SameRefsSameReferences(p: Product, cs: seq<Citation>)
    requires SameRefs(p.citations, cs)
    ensures References(Dump(p.(citations := cs)), None) == References(Dump(p), None)
  {
    CitationListReferences(p.citations);
    CitationListReferences(cs);
    assert RefsOf(p.citations) == RefsOf(cs);
    ReferencesCarryOver(p, p.citations, cs);
    ReferencesCarryOver(p.(citations := cs), cs, p.citations);
  }

  lemma ReferencesCarryOver(p: Product, before: seq<Citation>, after: seq<Citation>)
    requires p.citations == before
    requires References(DumpCitations(before), Some("citations")) <= References(DumpCitations(after), Some("citations"))
    ensures References(Dump(p), None) <= References(Dump(p.(citations := after)), None)
  {
    var v, w := Dump(p), Dump(p.(citations := after));
    assert v.entries[1] == Entry("citations", DumpCitations(before)) && w.entries[1] == Entry("citations", DumpCitations(after));
    forall r | r in References(v, None) ensures r in References(w, None) {
      var i :| 0 <= i < |v.entries| && r in References(v.entries[i].value, Some(v.entries[i].key));
      if i != 1 { assert v.entries[i] == w.entries[i]; }
      assert r in References(w.entries[i].value, Some(w.entries[i].key));
    }
  }

  lemma SameRefsSameCanonicals(a: seq<Citation>, b: seq<Citation>, precedents: set<string>, authorities: Authorities)
    requires SameRefs(a, b)
    ensures Canonicals(a, precedents, authorities) == Canonicals(b, precedents, authorities)
  {
    forall i | 0 <= i < |a| ensures Canonical(a[i], precedents, authorities) == Canonical(b[i], precedents, authorities) {
    }
  }

  /** What the model wrote into a citation besides its reference never changes the outcome. */
  lemma LabelsAreIgnored(p: Product, cs: seq<Citation>, x: Context)
    requires x.authorities.Some? && SameRefs(p.citations, cs)
    ensures Checked(p.(citations := cs), x) == Checked(p, x)
  {
    SameRefsSameReferences(p, cs);
    SameRefsSameCanonicals(p.citations, cs, x.precedents, x.authorities.value);
  }

  /** Validating an accepted product again returns it unchanged. */
  lemma ValidatedStaysValid(p: Product, x: Context)
    requires Checked(p, x).Ok?
    ensures Checked(Checked(p, x).value, x) == Checked(p, x)
  {
    if x.authorities.Some? {
      CitationsFromMetadata(p, x);
      LabelsAreIgnored(p, Checked(p, x).value.citations, x);
    }
  }
}
