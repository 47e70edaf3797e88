/** What the specialist validator's answers mean for each reference: nothing unauthorised passes, and whatever a product
    is refused for is true of it. */
module GroundingAnswers {
  import opened Prelude
  import opened Grounding

  // ---------------------------------------------------------------- accepted

  lemma CitationIsReference(p: Product, i: nat)
    requires i < |p.citations|
    ensures p.citations[i].ref in References(Dump(p), None)
  {
    var v, refs := Dump(p), RefsOf(p.citations);
    CitationListReferences(p.citations);
    assert v.entries[1] == Entry("citations", DumpCitations(p.citations));
    assert refs[i] == p.citations[i].ref && refs[i] in refs;
    assert refs[i] in References(v.entries[1].value, Some(v.entries[1].key));
  }

  lemma RestIsReference(p: Product, e: Entry, path: seq<Step>, ref: string)
    requires e in p.rest && Cites(e.value, Some(e.key), path, ref)
    ensures ref in References(Dump(p), None)
  {
    var v := Dump(p);
    CitedIsCollected(e.value, Some(e.key), path, ref);
    var k :| 0 <= k < |p.rest| && p.rest[k] == e;
    assert v.entries[4 + k] == e;
  }

  /** No reference of an accepted product is unauthorised: those of its bases, of its citations, and those that any other
      field cites under a reference key. */
  lemma AcceptedIsAuthorized(p: Product, x: Context)
    requires Checked(p, x).Ok?
    ensures forall i, k :: 0 <= i < |p.legalBasis| && 0 <= k < |p.legalBasis[i].refs| ==> p.legalBasis[i].refs[k] in x.authorized
    ensures forall i :: 0 <= i < |p.citations| ==> p.citations[i].ref in x.authorized
    ensures forall e, path, ref :: e in p.rest && Cites(e.value, Some(e.key), path, ref) ==> ref in x.authorized
  {
    var used := References(Dump(p), None);
    assert used <= x.authorized;
    forall i, k | 0 <= i < |p.legalBasis| && 0 <= k < |p.legalBasis[i].refs| ensures p.legalBasis[i].refs[k] in used {
      BasisReferences(p, i, k);
    }
    forall i | 0 <= i < |p.citations| ensures p.citations[i].ref in used {
      CitationIsReference(p, i);
    }
    forall e, path, ref | e in p.rest && Cites(e.value, Some(e.key), path, ref) ensures ref in used {
      RestIsReference(p, e, path, ref);
    }
  }

  lemma BasisReferences(p: Product, i: nat, k: nat)
    requires i < |p.legalBasis| && k < |p.legalBasis[i].refs|
    ensures p.legalBasis[i].refs[k] in References(Dump(p), None)
  {
    var v, item, ref := Dump(p), p.legalBasis[i], p.legalBasis[i].refs[k];
    var list, basis := Strings(item.refs), DumpBasis(item);
    assert list.items[k] == Str(ref);
    assert ref in References(list, Some("sourceRefs"));
    assert basis.entries[1] == Entry("sourceRefs", list);
    assert ref in References(basis, None);
    var bases := v.entries[0].value;
    assert v.entries[0].key == "legalBasis" && bases.items[i] == basis;
    assert ref in References(bases, Some("legalBasis"));
  }

  /** Lists under each of the four reference keys are checked item by item, and texts under the single one. */
  lemma ReferenceKeysAreChecked(p: Product, x: Context, e: Entry, ref: string)
    requires Checked(p, x).Ok? && e in p.rest
    ensures e.key in {"sourceRefs", "supportRefs", "basisRefs", "evidenceRefs"} && e.value.List? && Str(ref) in e.value.items ==> ref in x.authorized
    ensures e.key == "sourceRef" && e.value == Str(ref) ==> ref in x.authorized
  {
    AcceptedIsAuthorized(p, x);
    if e.key in {"sourceRefs", "supportRefs", "basisRefs", "evidenceRefs"} && e.value.List? && Str(ref) in e.value.items {
      var i :| 0 <= i < |e.value.items| && e.value.items[i] == Str(ref);
      var path := [Item(i)];
      assert path[1..] == [] && At(e.value, path) == Some(Str(ref));
      assert Cites(e.value, Some(e.key), path, ref);
    }
    if e.key == "sourceRef" && e.value == Str(ref) { assert Cites(e.value, Some(e.key), [], ref); }
  }

  // ---------------------------------------------------------------- refused

  /** The basis rests on the source. */
  ghost predicate RestsOn(p: Product, item: BasisItem, ref: string) {
    item in p.legalBasis && ref in item.refs
  }

  /** The refusal tells the truth about the product and its context. */
  ghost predicate TrueOf(p: Product, x: Context, e: Error) {
    var md: Authorities := if x.authorities.Some? then x.authorities.value else map[];
    match e
    case Unauthorized(refs) => refs != {} && forall ref :: ref in refs <==> ref !in x.authorized && exists path :: Cites(Dump(p), None, path, ref)
    case PrecedentInBasis(refs) => refs != {} && forall ref :: ref in refs <==> ref in x.precedents && exists item :: RestsOn(p, item, ref)
    case HistoricalMode => exists item :: item in p.legalBasis && item.historical != x.historicalAsOf.Some?
    case DateMismatch =>
      exists item :: item in p.legalBasis
                     && (if x.historicalAsOf.Some? then item.effectiveDate != x.historicalAsOf.value
                         else x.analysisDate.Some? && item.effectiveDate != x.analysisDate.value)
    case MetadataRequired(ref) => ref !in md && exists item :: RestsOn(p, item, ref)
    case MetadataInvalid(ref) => ref in md && !Authoritative(md[ref]) && exists item :: RestsOn(p, item, ref)
    case RoleMismatch(ref) => ref in md && exists item :: RestsOn(p, item, ref) && md[ref].role != Value(item.role)
    case JurisdictionMismatch(ref) =>
      ref in md && exists item :: RestsOn(p, item, ref) && md[ref].jurisdiction != Value(item.jurisdiction) && md[ref].jurisdiction != Value("ANY")
    case NotEffective(ref) =>
      && ref in md && (md[ref].status == Value("repealed") || md[ref].status == Value("superseded"))
      && exists item :: RestsOn(p, item, ref) && !item.historical
    case OutsideValidity(ref) =>
      ref in md && exists item :: RestsOn(p, item, ref) && ((md[ref].from.On? && item.effectiveDate < md[ref].from.day)
                                                           || (md[ref].to.On? && item.effectiveDate > md[ref].to.day))
    case FormalNotEffective(_) => false
    case UnknownNotHedged =>
      && (p.confidence > 0.6 || p.missingInformation == [])
      && exists item, ref :: RestsOn(p, item, ref) && ref in md && md[ref].status == Value("unknown")
    case CitationMetadataRequired(ref) => ref !in md && exists c :: c in p.citations && c.ref == ref
    case CitationIncomplete(ref) =>
      && ref in md && !(Complete(md[ref].title) && Complete(md[ref].sourceType) && Complete(md[ref].contentHash))
      && exists c :: c in p.citations && c.ref == ref
    case CitationInvalid(ref) =>
      && ref in md && Complete(md[ref].title) && Complete(md[ref].sourceType) && Complete(md[ref].contentHash)
      && exists c :: c in p.citations && c.ref == ref && !CitationAllowed(c, md)
  }

  lemma {:induction false} RefsFaultTrue(p: Product, x: Context, item: BasisItem, refs: seq<string>, authorities: Authorities)
    requires x.authorities == Some(authorities) && item in p.legalBasis && refs <= item.refs && RefsFault(item, refs, authorities).Some?
    ensures TrueOf(p, x, RefsFault(item, refs, authorities).value)
  {
    var n := |refs| - 1;
    if RefsFault(item, refs[..n], authorities).Some? {
      RefsFaultTrue(p, x, item, refs[..n], authorities);
    } else {
      assert refs[n] == item.refs[n] && RestsOn(p, item, refs[n]);
      FormalCheckNeverFails(item, refs[n], authorities);
    }
  }

  lemma {:induction false} BasisFaultTrue(p: Product, x: Context, items: seq<BasisItem>, authorities: Authorities)
    requires x.authorities == Some(authorities) && items <= p.legalBasis && BasisFault(items, x, authorities).Some?
    ensures TrueOf(p, x, BasisFault(items, x, authorities).value)
  {
    var n := |items| - 1;
    if BasisFault(items[..n], x, authorities).Some? {
      BasisFaultTrue(p, x, items[..n], authorities);
    } else {
      assert items[n] == p.legalBasis[n] && items[n] in p.legalBasis;
      if ItemFault(items[n], x, authorities) == RefsFault(items[n], items[n].refs, authorities) {
        RefsFaultTrue(p, x, items[n], items[n].refs, authorities);
      }
    }
  }

  lemma UnknownRests(p: Product, authorities: Authorities)
    requires SomeUnknown(p.legalBasis, authorities)
    ensures exists item, ref :: RestsOn(p, item, ref) && ref in authorities && authorities[ref].status == Value("unknown")
  {
    var i :| 0 <= i < |p.legalBasis| && AnyUnknown(p.legalBasis[i].refs, authorities);
    var k :| 0 <= k < |p.legalBasis[i].refs| && UnknownStatus(p.legalBasis[i].refs[k], authorities);
    assert RestsOn(p, p.legalBasis[i], p.legalBasis[i].refs[k]);
  }

  lemma UnauthorizedIsTrue(p: Product, x: Context)
    requires !(References(Dump(p), None) <= x.authorized)
    ensures TrueOf(p, x, Unauthorized(References(Dump(p), None) - x.authorized))
  {
    var ref :| ref in References(Dump(p), None) && ref !in x.authorized;
    assert ref in References(Dump(p), None) - x.authorized;
    forall ref ensures ref in References(Dump(p), None) <==> exists path :: Cites(Dump(p), None, path, ref) {
      CollectFindsAll(Dump(p), ref);
    }
  }

  lemma PrecedentIsTrue(p: Product, x: Context)
    requires PrecedentRefs(p.legalBasis, x.precedents) != {}
    ensures TrueOf(p, x, PrecedentInBasis(PrecedentRefs(p.legalBasis, x.precedents)))
  {
    forall ref ensures ref in PrecedentRefs(p.legalBasis, x.precedents) <==> ref in x.precedents && exists item :: RestsOn(p, item, ref) {
      if item :| RestsOn(p, item, ref) {
        var i :| 0 <= i < |p.legalBasis| && p.legalBasis[i] == item;
      }
      if ref in PrecedentRefs(p.legalBasis, x.precedents) {
        var i :| 0 <= i < |p.legalBasis| && ref in p.legalBasis[i].refs;
        assert RestsOn(p, p.legalBasis[i], ref);
      }
    }
  }

  lemma AuthorityRefusalIsTrue(p: Product, x: Context, md: Authorities)
    requires Checked(p, x).Err? && x.authorities == Some(md)
    requires References(Dump(p), None) <= x.authorized && PrecedentRefs(p.legalBasis, x.precedents) == {}
    ensures TrueOf(p, x, Checked(p, x).error)
  {
    if BasisFault(p.legalBasis, x, md).Some? {
      BasisFaultTrue(p, x, p.legalBasis, md);
    } else if SomeUnknown(p.legalBasis, md) && (p.confidence > 0.6 || p.missingInformation == []) {
      UnknownRests(p, md);
    } else {
      CitationRefusalIsTrue(p, x, md);
    }
  }

  lemma CitationRefusalIsTrue(p: Product, x: Context, md: Authorities)
    requires x.authorities == Some(md) && AllOk(Canonicals(p.citations, x.precedents, md)).Err?
    ensures TrueOf(p, x, AllOk(Canonicals(p.citations, x.precedents, md)).error)
  {
    var i := FirstError(Canonicals(p.citations, x.precedents, md));
    CanonicalExists(p.citations[i], x.precedents, md);
    assert p.citations[i] in p.citations;
  }

  /** Whatever a product is refused for is true of it. */
  lemma RefusalIsTrue(p: Product, x: Context)
    requires Checked(p, x).Err?
    ensures TrueOf(p, x, Checked(p, x).error)
  {
    var used := References(Dump(p), None);
    if !(used <= x.authorized) {
      UnauthorizedIsTrue(p, x);
    } else if PrecedentRefs(p.legalBasis, x.precedents) != {} {
      PrecedentIsTrue(p, x);
    } else {
      AuthorityRefusalIsTrue(p, x, x.authorities.value);
    }
  }
}
