/** When a provider result conforms, in terms of the records themselves, and what the objections to
    its identifiers mean. */
module ConformanceLaws {
  import opened Collections
  import opened Snapshot
  import opened Conformance

  // ----- Single identifiers -------------------------------------------------------------

  /** The server lists the source and holds a record of it by this id and this provider, which is
      eligible as evidence, was fetched and verified by now, has not run out, and is of an expected kind. */
  ghost predicate HeldSource(p: Payload, q: Request, server: Server, now: int, id: string) {
    && id in server.sourceIds && server.sources.Some? && id in server.sources.value
    && var s := server.sources.value[id];
    && s.sourceId == id && s.providerId == p.providerId && s.evidenceEligible
    && s.fetchedAt <= now && (s.verifiedAt == None || s.verifiedAt.value <= now) && now < s.expiresAt
    && (q.materials == [] || s.material in q.materials)
  }

  /** The server lists the span and holds a record of it by this id, which may be used for claims and
      belongs to a source of the result. */
  ghost predicate HeldEvidence(p: Payload, server: Server, id: string) {
    && id in server.evidenceIds && server.evidence.Some? && id in server.evidence.value
    && var e := server.evidence.value[id];
    && e.evidenceId == id && e.claimEligible && e.sourceId in p.sourceIds
  }

  lemma BoundIsHeld(p: Payload, q: Request, server: Server, now: int)
    ensures forall id :: SourceBound(p, q, server, now, id) <==> HeldSource(p, q, server, now, id)
    ensures forall id :: EvidenceBound(p, server, id) <==> HeldEvidence(p, server, id)
  {
  }

  /** An objection to a source names a true fault, and the first one in the order of the codes. */
  lemma SourceObjectionsAreTrue(p: Payload, q: Request, server: Server, now: int, id: string)
    ensures var objection := SourceObjection(p, q, server, now, id);
            && (objection == None <==> HeldSource(p, q, server, now, id))
            && (objection.Some? ==>
                  objection.value in {"PROVIDER_SOURCE_NOT_SERVER_BOUND", "PROVIDER_SOURCE_IDENTITY_MISMATCH",
                                      "PROVIDER_SOURCE_NOT_EVIDENCE_ELIGIBLE", "PROVIDER_SOURCE_STALE",
                                      "PROVIDER_SOURCE_TIMESTAMP_FUTURE", "PROVIDER_MATERIAL_TYPE_MISMATCH"})
            && (objection == Some("PROVIDER_SOURCE_NOT_SERVER_BOUND") <==>
                  id !in server.sourceIds || server.sources.None? || id !in server.sources.value)
            && (objection.Some? && objection != Some("PROVIDER_SOURCE_NOT_SERVER_BOUND") ==>
                  var s := server.sources.value[id];
                  && (objection == Some("PROVIDER_SOURCE_IDENTITY_MISMATCH") <==> s.sourceId != id || s.providerId != p.providerId)
                  && (objection == Some("PROVIDER_SOURCE_NOT_EVIDENCE_ELIGIBLE") ==> !s.evidenceEligible)
                  && (objection == Some("PROVIDER_SOURCE_STALE") ==> s.evidenceEligible && s.expiresAt <= now)
                  && (objection == Some("PROVIDER_SOURCE_TIMESTAMP_FUTURE") ==>
                        now < s.expiresAt && (s.fetchedAt > now || (s.verifiedAt.Some? && s.verifiedAt.value > now)))
                  && (objection == Some("PROVIDER_MATERIAL_TYPE_MISMATCH") ==>
                        s.fetchedAt <= now && q.materials != [] && s.material !in q.materials))
  {
  }

  lemma EvidenceObjectionsAreTrue(p: Payload, server: Server, id: string)
    ensures var objection := EvidenceObjection(server, p.sourceIds, id);
            && (objection == None <==> HeldEvidence(p, server, id))
            && (objection.Some? ==>
                  objection.value in {"PROVIDER_EVIDENCE_NOT_SERVER_BOUND", "PROVIDER_EVIDENCE_IDENTITY_MISMATCH",
                                      "PROVIDER_EVIDENCE_SOURCE_NOT_ELIGIBLE", "PROVIDER_EVIDENCE_NOT_CLAIM_ELIGIBLE"})
            && (objection == Some("PROVIDER_EVIDENCE_NOT_SERVER_BOUND") <==>
                  id !in server.evidenceIds || server.evidence.None? || id !in server.evidence.value)
            && (objection.Some? && objection != Some("PROVIDER_EVIDENCE_NOT_SERVER_BOUND") ==>
                  var e := server.evidence.value[id];
                  && (objection == Some("PROVIDER_EVIDENCE_IDENTITY_MISMATCH") <==> e.evidenceId != id)
                  && (objection == Some("PROVIDER_EVIDENCE_SOURCE_NOT_ELIGIBLE") ==> e.sourceId !in p.sourceIds)
                  && (objection == Some("PROVIDER_EVIDENCE_NOT_CLAIM_ELIGIBLE") ==> e.sourceId in p.sourceIds && !e.claimEligible))
  {
  }

  // ----- Whole results ------------------------------------------------------------------

  /** The result comes from the provider that was asked, in a role that may verify, covers its
      question, and is not withheld for privacy. */
  ghost predicate WellAddressed(p: Payload, q: Request) {
    && p.providerId == q.providerId && q.role != CandidateOnly && p.coverageComplete && p.privacyCodes == []
  }

  ghost predicate NoIdTwice(p: Payload, server: Server) {
    Distinct(p.sourceIds) && Distinct(p.evidenceIds) && Distinct(server.sourceIds) && Distinct(server.evidenceIds)
  }

  /** The receipts are a reliable permutation of the server's, all from the provider asked. */
  ghost predicate Certified(q: Request, server: Server, receipts: seq<Receipt>, now: int) {
    && server.receipts.Some? && receipts != [] && multiset(receipts) == multiset(server.receipts.value)
    && Reliable(receipts, now)
    && forall r | r in receipts :: r.provider == q.providerId
  }

  ghost predicate Conforms(p: Payload, q: Request, server: Server, receipts: seq<Receipt>, now: int) {
    Passes(p, q, server, receipts, now) && Answers(p, q, receipts)
  }

  /** A result with findings conforms exactly when it names sources, each source and span is held by
      the server, and the receipts certify it. */
  lemma FindingsConform(p: Payload, q: Request, server: Server, receipts: seq<Receipt>, now: int)
    requires p.status == Found
    ensures Conforms(p, q, server, receipts, now) <==>
              && WellAddressed(p, q) && NoIdTwice(p, server)
              && p.sourceIds != [] && (forall id | id in p.sourceIds :: HeldSource(p, q, server, now, id))
              && (forall id | id in p.evidenceIds :: HeldEvidence(p, server, id))
              && Certified(q, server, receipts, now)
  {
    BoundIsHeld(p, q, server, now);
    ConsistentMeans(receipts, server.receipts, now);
    hide SourceBound;
    hide EvidenceBound;
    hide HeldSource;
    hide HeldEvidence;
    hide StatusOf;
    hide Reliable;
    hide Distinct;
  }

  /** An absence conforms exactly when it was looked for in a stated scope and nothing at all was found
      there; receipts may be missing unless they are required, but certify it when they are there. */
  lemma AbsenceConforms(p: Payload, q: Request, server: Server, receipts: seq<Receipt>, now: int)
    requires p.status == NotFound
    ensures Conforms(p, q, server, receipts, now) <==>
              && WellAddressed(p, q) && Distinct(server.sourceIds) && Distinct(server.evidenceIds)
              && p.sourceIds == [] && p.evidenceIds == [] && p.candidateCount == 0
              && q.boundedScope.Some? && q.boundedScope.value != []
              && (if receipts == [] then !q.requireReceipt else Certified(q, server, receipts, now))
  {
    ConsistentMeans(receipts, server.receipts, now);
    assert Distinct<string>([]);
    hide SourceBound;
    hide EvidenceBound;
    hide StatusOf;
    hide Reliable;
    hide Distinct;
  }

  /** A partial result or an error never conforms; an error never even passes. */
  lemma OthersNeverConform(p: Payload, q: Request, server: Server, receipts: seq<Receipt>, now: int)
    requires p.status == PartialResult || p.status == ErrorResult
    ensures !Conforms(p, q, server, receipts, now)
    ensures p.status == ErrorResult ==> !Passes(p, q, server, receipts, now)
  {
  }

  /** Nothing blocks a result exactly when it comes from the provider asked and is not withheld, names
      no id twice and only what the server holds, carries certified receipts or, unless they are
      required, none, and contradicts itself in nothing: candidates alone name no source or span, a
      partial result is not complete, findings are not empty, and an absence has no candidates. */
  lemma PassingMeans(p: Payload, q: Request, server: Server, receipts: seq<Receipt>, now: int)
    ensures Passes(p, q, server, receipts, now) <==>
              && p.providerId == q.providerId && p.privacyCodes == [] && NoIdTwice(p, server)
              && (forall id | id in p.sourceIds :: HeldSource(p, q, server, now, id))
              && (forall id | id in p.evidenceIds :: HeldEvidence(p, server, id))
              && (if receipts == [] then !q.requireReceipt else Certified(q, server, receipts, now))
              && (q.role == CandidateOnly ==> p.sourceIds == [] && p.evidenceIds == [])
              && match p.status
                 case Found => p.sourceIds != [] || p.evidenceIds != [] || p.candidateCount > 0
                 case NotFound => p.candidateCount == 0
                 case PartialResult => !p.coverageComplete
                 case ErrorResult => false
  {
    BoundIsHeld(p, q, server, now);
    ConsistentMeans(receipts, server.receipts, now);
    hide SourceBound;
    hide EvidenceBound;
    hide HeldSource;
    hide HeldEvidence;
    hide StatusOf;
    hide Reliable;
    hide Distinct;
  }
}
