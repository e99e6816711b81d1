/** Structural conformance of one provider result against independent server-owned inputs. */
module Conformance {
  import opened Collections
  import opened Snapshot

  datatype Role = OfficialVerifier | CandidateOnly | ProviderNeutral

  datatype ResultStatus = Found | NotFound | PartialResult | ErrorResult

  datatype Payload = Payload(
    status: ResultStatus,
    providerId: string,
    sourceIds: seq<string>,
    evidenceIds: seq<string>,
    candidateCount: nat,
    coverageComplete: bool,
    privacyCodes: seq<string>)

  datatype Request = Request(
    providerId: string,
    role: Role,
    boundedScope: Option<string>,
    materials: seq<string>,
    requireReceipt: bool)

  datatype Source = Source(
    sourceId: string,
    providerId: string,
    evidenceEligible: bool,
    fetchedAt: int,
    verifiedAt: Option<int>,
    expiresAt: int,
    material: string)

  datatype Evidence = Evidence(evidenceId: string, sourceId: string, claimEligible: bool)

  /** What the server knows independently of the provider. */
  datatype Server = Server(
    sourceIds: seq<string>,
    evidenceIds: seq<string>,
    sources: Option<map<string, Source>>,
    evidence: Option<map<string, Evidence>>,
    receipts: Option<seq<Receipt>>)

  datatype Decision = Conforming | QualifiedResult | BlockedResult

  datatype Conformance = Conformance(
    decision: Decision,
    eligibleSources: seq<string>,
    eligibleEvidence: seq<string>,
    absenceAllowed: bool,
    ordinaryEligible: bool,
    snapshot: Consistency,
    reasonCodes: seq<string>,
    candidateCount: nat)
  {
    /** The validator every result has to pass. */
    ghost predicate Valid() {
      && Distinct(eligibleSources) && Distinct(eligibleEvidence)
      && (!decision.Conforming? ==> !absenceAllowed && !ordinaryEligible)
      && (absenceAllowed ==> eligibleSources == [])
      && (ordinaryEligible ==> eligibleSources != [] || absenceAllowed)
    }
  }

  // ----- Single identifiers -------------------------------------------------------------

  function SourceOf(server: Server, id: string): Option<Source> {
    if server.sources.Some? && id in server.sources.value then Some(server.sources.value[id]) else None
  }

  function EvidenceOf(server: Server, id: string): Option<Evidence> {
    if server.evidence.Some? && id in server.evidence.value then Some(server.evidence.value[id]) else None
  }

  /** The first objection to a source identifier, in the order in which they are raised. */
  function SourceObjection(p: Payload, q: Request, server: Server, now: int, id: string): Option<string> {
    var found := SourceOf(server, id);
    if id !in server.sourceIds || found.None? then Some("PROVIDER_SOURCE_NOT_SERVER_BOUND")
    else
      var source := found.value;
      if source.sourceId != id || source.providerId != p.providerId then Some("PROVIDER_SOURCE_IDENTITY_MISMATCH")
      else if !source.evidenceEligible then Some("PROVIDER_SOURCE_NOT_EVIDENCE_ELIGIBLE")
      else if source.expiresAt <= now then Some("PROVIDER_SOURCE_STALE")
      else if source.fetchedAt > now || (source.verifiedAt.Some? && source.verifiedAt.value > now) then
        Some("PROVIDER_SOURCE_TIMESTAMP_FUTURE")
      else if q.materials != [] && source.material !in q.materials then Some("PROVIDER_MATERIAL_TYPE_MISMATCH")
      else None
  }

  function EvidenceObjection(server: Server, eligibleSources: seq<string>, id: string): Option<string> {
    var found := EvidenceOf(server, id);
    if id !in server.evidenceIds || found.None? then Some("PROVIDER_EVIDENCE_NOT_SERVER_BOUND")
    else if found.value.evidenceId != id then Some("PROVIDER_EVIDENCE_IDENTITY_MISMATCH")
    else if found.value.sourceId !in eligibleSources then Some("PROVIDER_EVIDENCE_SOURCE_NOT_ELIGIBLE")
    else if !found.value.claimEligible then Some("PROVIDER_EVIDENCE_NOT_CLAIM_ELIGIBLE")
    else None
  }

  /** A source the server itself holds for this provider, verified, current and of an expected kind. */
  predicate SourceBound(p: Payload, q: Request, server: Server, now: int, id: string) {
    && id in server.sourceIds && SourceOf(server, id).Some?
    && var source := SourceOf(server, id).value;
    && source.sourceId == id && source.providerId == p.providerId && source.evidenceEligible
    && source.fetchedAt <= now < source.expiresAt && (source.verifiedAt.Some? ==> source.verifiedAt.value <= now)
    && (q.materials == [] || source.material in q.materials)
  }

  /** A span the server itself holds, of one of the result's sources, usable for claims. */
  predicate EvidenceBound(p: Payload, server: Server, id: string) {
    && id in server.evidenceIds && EvidenceOf(server, id).Some?
    && var evidence := EvidenceOf(server, id).value;
    && evidence.evidenceId == id && evidence.claimEligible && evidence.sourceId in p.sourceIds
  }

  // ----- The decision -------------------------------------------------------------------

  ghost predicate IdentifiersBound(p: Payload, q: Request, server: Server, now: int) {
    && Distinct(p.sourceIds) && Distinct(p.evidenceIds) && Distinct(server.sourceIds) && Distinct(server.evidenceIds)
    && (forall id | id in p.sourceIds :: SourceBound(p, q, server, now, id))
    && (forall id | id in p.evidenceIds :: EvidenceBound(p, server, id))
  }

  ghost predicate ReceiptsBound(p: Payload, q: Request, server: Server, receipts: seq<Receipt>, now: int) {
    && (forall r | r in receipts :: r.provider == p.providerId)
    && (receipts != [] ==> StatusOf(receipts, server.receipts, now).Consistent?)
    && (q.requireReceipt ==> receipts != [])
  }

  predicate StatusCoherent(p: Payload) {
    && !p.status.ErrorResult?
    && (p.status.PartialResult? ==> !p.coverageComplete)
    && (p.status.Found? ==> p.sourceIds != [] || p.evidenceIds != [] || p.candidateCount > 0)
    && (p.status.NotFound? ==> p.candidateCount == 0)
  }

  /** Nothing about the result blocks it. */
  ghost predicate Passes(p: Payload, q: Request, server: Server, receipts: seq<Receipt>, now: int) {
    && p.privacyCodes == [] && p.providerId == q.providerId
    && (q.role.CandidateOnly? ==> p.sourceIds == [] && p.evidenceIds == [])
    && IdentifiersBound(p, q, server, now)
    && ReceiptsBound(p, q, server, receipts, now)
    && StatusCoherent(p)
  }

  predicate ScopedAbsence(p: Payload, q: Request) {
    q.boundedScope.Some? && q.boundedScope.value != "" && p.sourceIds == [] && p.evidenceIds == [] && p.candidateCount == 0
  }

  /** The result also answers its question: sources found under receipts, or a scoped absence. */
  ghost predicate Answers(p: Payload, q: Request, receipts: seq<Receipt>) {
    && p.coverageComplete && !q.role.CandidateOnly?
    && (p.sourceIds != [] || p.evidenceIds != [] ==> receipts != [])
    && match p.status
       case Found => p.sourceIds != []
       case NotFound => ScopedAbsence(p, q)
       case _ => false
  }

  // ----- The reasons --------------------------------------------------------------------

  ghost function EnvelopeCodes(p: Payload, q: Request, server: Server): set<string> {
    Elems(p.privacyCodes)
    + (if p.providerId != q.providerId then {"PROVIDER_ID_MISMATCH"} else {})
    + (if Distinct(p.sourceIds) then {} else {"PROVIDER_SOURCE_ID_DUPLICATE"})
    + (if Distinct(p.evidenceIds) then {} else {"PROVIDER_EVIDENCE_ID_DUPLICATE"})
    + (if Distinct(server.sourceIds) then {} else {"PROVIDER_SERVER_SOURCE_BINDING_INVALID"})
    + (if Distinct(server.evidenceIds) then {} else {"PROVIDER_SERVER_EVIDENCE_BINDING_INVALID"})
    + BindingCodes(p, q, server)
  }

  ghost function BindingCodes(p: Payload, q: Request, server: Server): set<string> {
    (if q.role.CandidateOnly? && (p.sourceIds != [] || p.evidenceIds != []) then {"PROVIDER_CANDIDATE_PROMOTION_FORBIDDEN"} else {})
    + (if p.sourceIds != [] && server.sourceIds == [] then {"PROVIDER_SERVER_SOURCE_BINDING_REQUIRED"} else {})
    + (if p.evidenceIds != [] && server.evidenceIds == [] then {"PROVIDER_SERVER_EVIDENCE_BINDING_REQUIRED"} else {})
  }

  ghost function SourceCodes(p: Payload, q: Request, server: Server, now: int): set<string> {
    (if p.sourceIds != [] && server.sources.None? then {"PROVIDER_SERVER_SOURCE_OBJECTS_REQUIRED"} else {})
    + SourceObjections(p, q, server, now, p.sourceIds)
  }

  ghost function SourceObjections(p: Payload, q: Request, server: Server, now: int, ids: seq<string>): set<string> {
    set id | id in ids && SourceObjection(p, q, server, now, id).Some? :: SourceObjection(p, q, server, now, id).value
  }

  lemma SourceObjectionsAppend(p: Payload, q: Request, server: Server, now: int, ids: seq<string>, id: string)
    ensures var objection := SourceObjection(p, q, server, now, id);
            SourceObjections(p, q, server, now, ids + [id])
            == SourceObjections(p, q, server, now, ids) + if objection.Some? then {objection.value} else {}
  {
    hide SourceObjection;
    assert forall x :: x in ids + [id] <==> x in ids || x == id;
  }

  /** The sources against which nothing can be said. */
  function EligibleOf(p: Payload, q: Request, server: Server, now: int, ids: seq<string>): seq<string> {
    if ids == [] then []
    else
      var last := ids[|ids| - 1];
      EligibleOf(p, q, server, now, ids[..|ids| - 1]) + if SourceObjection(p, q, server, now, last).None? then [last] else []
  }

  lemma EligibleAppend(p: Payload, q: Request, server: Server, now: int, ids: seq<string>, id: string)
    ensures EligibleOf(p, q, server, now, ids + [id])
            == EligibleOf(p, q, server, now, ids) + if SourceObjection(p, q, server, now, id).None? then [id] else []
  {
    hide SourceObjection;
    assert (ids + [id])[..|ids|] == ids;
  }

  ghost function EvidenceCodes(p: Payload, server: Server, eligibleSources: seq<string>): set<string> {
    (if p.evidenceIds != [] && server.evidence.None? then {"PROVIDER_SERVER_EVIDENCE_OBJECTS_REQUIRED"} else {})
    + EvidenceObjections(server, eligibleSources, p.evidenceIds)
  }

  ghost function EvidenceObjections(server: Server, eligibleSources: seq<string>, ids: seq<string>): set<string> {
    set id | id in ids && EvidenceObjection(server, eligibleSources, id).Some? :: EvidenceObjection(server, eligibleSources, id).value
  }

  lemma EvidenceObjectionsAppend(server: Server, eligibleSources: seq<string>, ids: seq<string>, id: string)
    ensures var objection := EvidenceObjection(server, eligibleSources, id);
            EvidenceObjections(server, eligibleSources, ids + [id])
            == EvidenceObjections(server, eligibleSources, ids) + if objection.Some? then {objection.value} else {}
  {
    hide EvidenceObjection;
    assert forall x :: x in ids + [id] <==> x in ids || x == id;
  }

  ghost function ReceiptCodes(p: Payload, q: Request, receipts: seq<Receipt>, snapshot: Consistency): set<string> {
    (if exists r | r in receipts :: r.provider != p.providerId then {"PROVIDER_SNAPSHOT_PROVIDER_MISMATCH"} else {})
    + (if !snapshot.Consistent? && receipts != [] then {"PROVIDER_SNAPSHOT_NOT_CONSISTENT"} else {})
    + (if q.requireReceipt && (receipts == [] || !snapshot.Consistent?) then {"PROVIDER_SNAPSHOT_RECEIPT_REQUIRED"} else {})
  }

  ghost function StatusCodes(p: Payload): set<string> {
    (if p.status.ErrorResult? then {"PROVIDER_ERROR_RETRY_REQUIRED"}
     else if p.coverageComplete && p.status.PartialResult? then {"PROVIDER_COVERAGE_STATUS_CONFLICT"} else {})
    + (if p.status.Found? && p.sourceIds == [] && p.evidenceIds == [] && p.candidateCount == 0 then {"PROVIDER_FOUND_RESULT_EMPTY"} else {})
    + (if p.status.NotFound? && p.candidateCount > 0 then {"PROVIDER_NOT_FOUND_WITH_CANDIDATES"} else {})
  }

  /** Every reason that blocks the result. */
  ghost function BlockingCodes(p: Payload, q: Request, server: Server, receipts: seq<Receipt>, now: int): set<string> {
    EnvelopeCodes(p, q, server) + SourceCodes(p, q, server, now)
    + EvidenceCodes(p, server, EligibleOf(p, q, server, now, p.sourceIds))
    + ReceiptCodes(p, q, receipts, StatusOf(receipts, server.receipts, now)) + StatusCodes(p)
  }

  ghost function QualifyingCodes(p: Payload, q: Request, receipts: seq<Receipt>): set<string> {
    (if p.status.PartialResult? || !p.coverageComplete then {"PROVIDER_COVERAGE_PARTIAL"}
     else if p.status.NotFound? && !ScopedAbsence(p, q) then {"PROVIDER_BOUNDED_SCOPE_REQUIRED"} else {})
    + (if q.role.CandidateOnly? then {"PROVIDER_CANDIDATE_ONLY"} else {})
    + (if p.status.Found? && p.sourceIds == [] then {"PROVIDER_CANDIDATES_ONLY"} else {})
    + (if (p.sourceIds != [] || p.evidenceIds != []) && receipts == [] then {"PROVIDER_SNAPSHOT_RECEIPT_MISSING"} else {})
  }

  /** After the sources of a list are looked at: what is objected to, and which are left. */
  ghost predicate SourcesChecked(p: Payload, q: Request, server: Server, now: int, ids: seq<string>,
                                 start: seq<string>, blockers: seq<string>, eligible: seq<string>) {
    && (blockers == [] <==> start == [] && forall id | id in ids :: SourceBound(p, q, server, now, id))
    && (blockers == [] ==> eligible == ids)
    && eligible == EligibleOf(p, q, server, now, ids)
    && Elems(blockers) == Elems(start) + SourceObjections(p, q, server, now, ids)
  }

  lemma SourceChecked(p: Payload, q: Request, server: Server, now: int, ids: seq<string>,
                      start: seq<string>, blockers: seq<string>, eligible: seq<string>, id: string)
    requires SourcesChecked(p, q, server, now, ids, start, blockers, eligible)
    ensures var objection := SourceObjection(p, q, server, now, id);
            if objection.Some? then SourcesChecked(p, q, server, now, ids + [id], start, blockers + [objection.value], eligible)
            else SourcesChecked(p, q, server, now, ids + [id], start, blockers, eligible + [id])
  {
    ObjectionMeans(p, q, server, now, id);
    SourceObjectionsAppend(p, q, server, now, ids, id);
    EligibleAppend(p, q, server, now, ids, id);
    var objection := SourceObjection(p, q, server, now, id);
    if objection.Some? {
      ElemsAppend(blockers, objection.value);
    }
    assert forall x :: x in ids + [id] <==> x in ids || x == id;
    hide SourceBound;
    hide SourceObjection;
    hide SourceObjections;
    hide EligibleOf;
    hide Elems;
  }

  /** Adds the objections to the listed sources, and collects the ones without. */
  method CheckSources(p: Payload, q: Request, server: Server, now: int, blockers0: seq<string>)
    returns (blockers: seq<string>, eligible: seq<string>)
    ensures blockers == [] <==> blockers0 == [] && forall id | id in p.sourceIds :: SourceBound(p, q, server, now, id)
    ensures blockers == [] ==> eligible == p.sourceIds
    ensures eligible == EligibleOf(p, q, server, now, p.sourceIds)
    ensures Elems(blockers) == Elems(blockers0) + SourceCodes(p, q, server, now)
  {
    hide SourceBound;
    hide SourceObjection;
    eligible := [];
    blockers := AddIf(blockers0, p.sourceIds != [] && server.sources.None?, "PROVIDER_SERVER_SOURCE_OBJECTS_REQUIRED");
    if p.sourceIds != [] && server.sources.None? {
      UnboundWithoutObjects(p, q, server, now);
      assert p.sourceIds[0] in p.sourceIds;
    }
    ghost var start := blockers;
    assert SourcesChecked(p, q, server, now, [], start, blockers, eligible);
    hide Elems;
    for i := 0 to |p.sourceIds|
      invariant SourcesChecked(p, q, server, now, p.sourceIds[..i], start, blockers, eligible)
    {
      hide SourcesChecked;
      var id := p.sourceIds[i];
      assert p.sourceIds[..i + 1] == p.sourceIds[..i] + [id];
      SourceChecked(p, q, server, now, p.sourceIds[..i], start, blockers, eligible, id);
      var objection := SourceObjection(p, q, server, now, id);
      if objection.Some? {
        blockers := blockers + [objection.value];
      } else {
        eligible := eligible + [id];
      }
    }
    assert p.sourceIds[..|p.sourceIds|] == p.sourceIds;
    hide SourceObjections;
    hide EligibleOf;
  }

  lemma ObjectionMeans(p: Payload, q: Request, server: Server, now: int, id: string)
    ensures SourceObjection(p, q, server, now, id).None? <==> SourceBound(p, q, server, now, id)
  {
  }

  lemma UnboundWithoutObjects(p: Payload, q: Request, server: Server, now: int)
    requires server.sources.None?
    ensures forall id :: !SourceBound(p, q, server, now, id)
  {
  }

  method CheckEvidence(p: Payload, server: Server, eligibleSources: seq<string>, blockers0: seq<string>)
    returns (blockers: seq<string>, eligible: seq<string>)
    requires blockers0 == [] ==> eligibleSources == p.sourceIds
    ensures blockers == [] <==> blockers0 == [] && forall id | id in p.evidenceIds :: EvidenceBound(p, server, id)
    ensures blockers == [] ==> eligible == p.evidenceIds
    ensures Elems(blockers) == Elems(blockers0) + EvidenceCodes(p, server, eligibleSources)
  {
    eligible := [];
    blockers := AddIf(blockers0, p.evidenceIds != [] && server.evidence.None?, "PROVIDER_SERVER_EVIDENCE_OBJECTS_REQUIRED");
    if p.evidenceIds != [] && server.evidence.None? {
      assert p.evidenceIds[0] in p.evidenceIds && !EvidenceBound(p, server, p.evidenceIds[0]);
    }
    hide EvidenceBound;
    hide EvidenceObjection;
    hide Elems;
    ghost var start := blockers;
    assert EvidenceObjections(server, eligibleSources, []) == {};
    hide EvidenceObjections;
    for i := 0 to |p.evidenceIds|
      invariant blockers == [] <==> start == [] && forall id | id in p.evidenceIds[..i] :: EvidenceBound(p, server, id)
      invariant blockers == [] ==> eligible == p.evidenceIds[..i]
      invariant Elems(blockers) == Elems(start) + EvidenceObjections(server, eligibleSources, p.evidenceIds[..i])
    {
      var id := p.evidenceIds[i];
      assert p.evidenceIds[..i + 1] == p.evidenceIds[..i] + [id];
      EvidenceObjectionMeans(p, server, eligibleSources, id);
      EvidenceObjectionsAppend(server, eligibleSources, p.evidenceIds[..i], id);
      var objection := EvidenceObjection(server, eligibleSources, id);
      if objection.Some? {
        ElemsAppend(blockers, objection.value);
        blockers := blockers + [objection.value];
      } else {
        eligible := eligible + [id];
      }
    }
    assert p.evidenceIds[..|p.evidenceIds|] == p.evidenceIds;
  }

  lemma EvidenceObjectionMeans(p: Payload, server: Server, eligibleSources: seq<string>, id: string)
    ensures eligibleSources == p.sourceIds ==>
              (EvidenceObjection(server, eligibleSources, id).None? <==> EvidenceBound(p, server, id))
  {
  }

  predicate Bindable(p: Payload, q: Request, server: Server) {
    && (q.role.CandidateOnly? ==> p.sourceIds == [] && p.evidenceIds == [])
    && (p.sourceIds != [] ==> server.sourceIds != []) && (p.evidenceIds != [] ==> server.evidenceIds != [])
  }

  /** The objections to the result as a whole, before its identifiers are looked up. */
  method EnvelopeBlockers(p: Payload, q: Request, server: Server) returns (blockers: seq<string>)
    ensures blockers == [] <==>
              && p.privacyCodes == [] && p.providerId == q.providerId
              && Distinct(p.sourceIds) && Distinct(p.evidenceIds) && Distinct(server.sourceIds) && Distinct(server.evidenceIds)
              && Bindable(p, q, server)
    ensures Elems(blockers) == EnvelopeCodes(p, q, server)
  {
    hide Distinct;
    hide Elems;
    hide AddIf;
    blockers := p.privacyCodes;
    blockers := AddIf(blockers, p.providerId != q.providerId, "PROVIDER_ID_MISMATCH");
    blockers := AddIf(blockers, !AllUnique(p.sourceIds), "PROVIDER_SOURCE_ID_DUPLICATE");
    blockers := AddIf(blockers, !AllUnique(p.evidenceIds), "PROVIDER_EVIDENCE_ID_DUPLICATE");
    blockers := AddIf(blockers, !AllUnique(server.sourceIds), "PROVIDER_SERVER_SOURCE_BINDING_INVALID");
    blockers := AddIf(blockers, !AllUnique(server.evidenceIds), "PROVIDER_SERVER_EVIDENCE_BINDING_INVALID");
    blockers := BindingBlockers(p, q, server, blockers);
  }

  method BindingBlockers(p: Payload, q: Request, server: Server, blockers0: seq<string>) returns (blockers: seq<string>)
    ensures blockers == [] <==> blockers0 == [] && Bindable(p, q, server)
    ensures Elems(blockers) == Elems(blockers0) + BindingCodes(p, q, server)
  {
    hide Elems;
    hide AddIf;
    blockers := AddIf(blockers0, q.role.CandidateOnly? && (p.sourceIds != [] || p.evidenceIds != []), "PROVIDER_CANDIDATE_PROMOTION_FORBIDDEN");
    blockers := AddIf(blockers, p.sourceIds != [] && server.sourceIds == [], "PROVIDER_SERVER_SOURCE_BINDING_REQUIRED");
    blockers := AddIf(blockers, p.evidenceIds != [] && server.evidenceIds == [], "PROVIDER_SERVER_EVIDENCE_BINDING_REQUIRED");
  }

  method ReceiptBlockers(p: Payload, q: Request, server: Server, receipts: seq<Receipt>, now: int, snapshot: Consistency, blockers0: seq<string>)
    returns (blockers: seq<string>)
    requires snapshot == StatusOf(receipts, server.receipts, now)
    ensures blockers == [] <==> blockers0 == [] && ReceiptsBound(p, q, server, receipts, now)
    ensures Elems(blockers) == Elems(blockers0) + ReceiptCodes(p, q, receipts, snapshot)
  {
    hide StatusOf;
    hide Elems;
    hide AddIf;
    blockers := AddIf(blockers0, receipts != [] && exists r | r in receipts :: r.provider != p.providerId, "PROVIDER_SNAPSHOT_PROVIDER_MISMATCH");
    blockers := AddIf(blockers, !snapshot.Consistent? && receipts != [], "PROVIDER_SNAPSHOT_NOT_CONSISTENT");
    blockers := AddIf(blockers, q.requireReceipt && (receipts == [] || !snapshot.Consistent?), "PROVIDER_SNAPSHOT_RECEIPT_REQUIRED");
  }

  method StatusBlockers(p: Payload, blockers0: seq<string>) returns (blockers: seq<string>)
    ensures blockers == [] <==> blockers0 == [] && StatusCoherent(p)
    ensures Elems(blockers) == Elems(blockers0) + StatusCodes(p)
  {
    hide Elems;
    hide AddIf;
    blockers := blockers0;
    if p.status.ErrorResult? {
      blockers := AddIf(blockers, true, "PROVIDER_ERROR_RETRY_REQUIRED");
    } else if p.coverageComplete && p.status.PartialResult? {
      blockers := AddIf(blockers, true, "PROVIDER_COVERAGE_STATUS_CONFLICT");
    }
    blockers := AddIf(blockers, p.status.Found? && p.sourceIds == [] && p.evidenceIds == [] && p.candidateCount == 0, "PROVIDER_FOUND_RESULT_EMPTY");
    blockers := AddIf(blockers, p.status.NotFound? && p.candidateCount > 0, "PROVIDER_NOT_FOUND_WITH_CANDIDATES");
  }

  /** Whether a result that nothing blocks answers its question, and what qualifies it otherwise. */
  method Qualify(p: Payload, q: Request, receipts: seq<Receipt>, snapshot: Consistency)
    returns (conforming: bool, absence: bool, reasons: seq<string>)
    requires StatusCoherent(p) && (receipts != [] ==> snapshot.Consistent?)
    ensures conforming <==> Answers(p, q, receipts)
    ensures conforming ==> (absence <==> p.status.NotFound?)
    ensures conforming <==> reasons == []
    ensures Elems(reasons) == QualifyingCodes(p, q, receipts)
  {
    conforming, absence, reasons := true, false, [];
    assert Elems<string>([]) == {};
    hide Elems;
    hide AddIf;
    if p.status.PartialResult? || !p.coverageComplete {
      conforming := false;
      reasons := AddIf(reasons, true, "PROVIDER_COVERAGE_PARTIAL");
    } else if p.status.NotFound? {
      if ScopedAbsence(p, q) {
        absence := true;
      } else {
        conforming := false;
        reasons := AddIf(reasons, true, "PROVIDER_BOUNDED_SCOPE_REQUIRED");
      }
    }
    if q.role.CandidateOnly? {
      conforming := false;
      reasons := AddIf(reasons, true, "PROVIDER_CANDIDATE_ONLY");
    }
    if p.status.Found? && p.sourceIds == [] {
      conforming := false;
      reasons := AddIf(reasons, true, "PROVIDER_CANDIDATES_ONLY");
    }
    if receipts != [] && !snapshot.Consistent? {
      conforming := false;
      reasons := AddIf(reasons, true, "PROVIDER_SNAPSHOT_NOT_CERTIFIED");
    }
    if (p.sourceIds != [] || p.evidenceIds != []) && receipts == [] {
      conforming := false;
      reasons := AddIf(reasons, true, "PROVIDER_SNAPSHOT_RECEIPT_MISSING");
    }
  }

  /** All or nothing: the eligible identifiers are the payload's own lists, or none. A payload that
      does not parse is blocked. */
  method ValidateConformance(parsed: Option<Payload>, q: Request, server: Server, receipts: seq<Receipt>, now: int)
    returns (r: Conformance)
    ensures r.Valid()
    ensures r.snapshot == StatusOf(receipts, server.receipts, now)
    ensures r.decision.BlockedResult? <==> parsed.None? || !Passes(parsed.value, q, server, receipts, now)
    ensures r.decision.Conforming? <==>
              parsed.Some? && Passes(parsed.value, q, server, receipts, now) && Answers(parsed.value, q, receipts)
    ensures r.ordinaryEligible <==> r.decision.Conforming?
    ensures r.decision.Conforming? ==> r.eligibleSources == parsed.value.sourceIds && r.eligibleEvidence == parsed.value.evidenceIds
    ensures !r.decision.Conforming? ==> r.eligibleSources == [] && r.eligibleEvidence == []
    ensures r.decision.Conforming? && parsed.value.sourceIds != [] ==> Grounded(parsed.value, q, server, receipts, now)
    ensures r.absenceAllowed <==> r.decision.Conforming? && parsed.value.status.NotFound?
    ensures r.decision.Conforming? <==> r.reasonCodes == []
    ensures Distinct(r.reasonCodes) && (parsed.None? ==> r.reasonCodes == ["PROVIDER_RESULT_SCHEMA_INVALID", "ValidationError"])
    ensures parsed.Some? && r.decision.BlockedResult? ==> Elems(r.reasonCodes) == BlockingCodes(parsed.value, q, server, receipts, now)
    ensures parsed.Some? && !r.decision.BlockedResult? ==> Elems(r.reasonCodes) == QualifyingCodes(parsed.value, q, receipts)
  {
    hide StatusOf;
    hide SourceBound;
    hide EvidenceBound;
    hide StatusCoherent;
    hide EnvelopeCodes;
    hide SourceCodes;
    hide EvidenceCodes;
    hide ReceiptCodes;
    hide StatusCodes;
    hide QualifyingCodes;
    hide Dedupe;
    ShortListsDistinct();
    var snapshot := AssessSnapshotConsistency(receipts, server.receipts, now);
    if parsed.None? {
      return Conformance(BlockedResult, [], [], false, false, snapshot.status, ["PROVIDER_RESULT_SCHEMA_INVALID", "ValidationError"], 0);
    }
    var p := parsed.value;
    var blockers := EnvelopeBlockers(p, q, server);
    var eligibleSources, eligibleEvidence;
    blockers, eligibleSources := CheckSources(p, q, server, now, blockers);
    blockers, eligibleEvidence := CheckEvidence(p, server, eligibleSources, blockers);
    blockers := ReceiptBlockers(p, q, server, receipts, now, snapshot.status, blockers);
    blockers := StatusBlockers(p, blockers);
    assert blockers == [] <==> Passes(p, q, server, receipts, now) by {
      BoundMeansListed(p, q, server, now);
    }
    hide Elems;
    if blockers != [] {
      DedupeEmpty(blockers);
      return Conformance(BlockedResult, [], [], false, false, snapshot.status, Dedupe(blockers), p.candidateCount);
    }
    var conforming, absence, reasons := Qualify(p, q, receipts, snapshot.status);
    if conforming && p.sourceIds != [] {
      ConformingIsGrounded(p, q, server, receipts, now);
    }
    hide Grounded;
    DedupeEmpty(reasons);
    var ordinary := conforming && (eligibleSources != [] || absence);
    r := Conformance(if conforming then Conforming else QualifiedResult,
                     if conforming then eligibleSources else [], if conforming then eligibleEvidence else [],
                     conforming && absence, ordinary, snapshot.status, Dedupe(reasons), p.candidateCount);
  }

  /** What a conforming result with sources rests on: every source and span is the server's, current
      and identity-matched, under a healthy permutation of its receipts. */
  ghost predicate Grounded(p: Payload, q: Request, server: Server, receipts: seq<Receipt>, now: int) {
    && (forall id | id in p.sourceIds ::
          SourceOf(server, id).Some? && SourceOf(server, id).value.sourceId == id && SourceOf(server, id).value.expiresAt > now)
    && (forall id | id in p.evidenceIds ::
          EvidenceOf(server, id).Some? && EvidenceOf(server, id).value.evidenceId == id
          && EvidenceOf(server, id).value.sourceId in p.sourceIds)
    && server.receipts.Some? && receipts != [] && multiset(receipts) == multiset(server.receipts.value)
    && Reliable(receipts, now)
    && forall r | r in receipts :: r.provider == q.providerId
  }

  lemma ConformingIsGrounded(p: Payload, q: Request, server: Server, receipts: seq<Receipt>, now: int)
    requires Passes(p, q, server, receipts, now) && Answers(p, q, receipts) && p.sourceIds != []
    ensures Grounded(p, q, server, receipts, now)
  {
    ConsistentMeans(receipts, server.receipts, now);
    hide StatusOf;
    hide Distinct;
  }

  lemma ShortListsDistinct()
    ensures Distinct<string>([]) && Distinct(["PROVIDER_RESULT_SCHEMA_INVALID", "ValidationError"])
  {
    assert "PROVIDER_RESULT_SCHEMA_INVALID"[0] != "ValidationError"[0];
  }

  lemma BoundMeansListed(p: Payload, q: Request, server: Server, now: int)
    ensures (forall id | id in p.sourceIds :: SourceBound(p, q, server, now, id)) ==> (p.sourceIds != [] ==> server.sourceIds != [])
    ensures (forall id | id in p.evidenceIds :: EvidenceBound(p, server, id)) ==> (p.evidenceIds != [] ==> server.evidenceIds != [])
  {
    if p.sourceIds != [] {
      assert p.sourceIds[0] in p.sourceIds;
    }
    if p.evidenceIds != [] {
      assert p.evidenceIds[0] in p.evidenceIds;
    }
  }

  /** Reordering the receipts of either side never changes whether a result passes. */
  lemma PassesIsOrderFree(p: Payload, q: Request, server: Server, receipts: seq<Receipt>, receipts': seq<Receipt>,
                          owned: seq<Receipt>, owned': seq<Receipt>, now: int)
    requires Permutes(receipts, receipts') && Permutes(owned, owned')
    ensures Passes(p, q, server.(receipts := Some(owned)), receipts, now) <==>
              Passes(p, q, server.(receipts := Some(owned')), receipts', now)
  {
    StatusIsOrderFree(receipts, receipts', owned, owned', now);
    HealthIsOrderFree(receipts, receipts', now);
    MembersAgree(receipts, receipts');
    hide StatusOf;
    hide Permutes;
    hide Distinct;
  }
}
