/** Which requests are admitted and which sources are in force, in terms of the records themselves. */
module ApplicabilityFacts {
  import opened Collections
  import opened Applicability

  // ----- Admission ----------------------------------------------------------------------

  const CAPITALS: set<char> := {
    'A', 'B', 'C', 'D', 'E', 'F', 'G', 'H', 'I', 'J', 'K', 'L', 'M', 'N', 'O', 'P', 'Q', 'R', 'S', 'T', 'U', 'V', 'W', 'X', 'Y', 'Z'}
  const LETTERS: set<char> := {
    'a', 'b', 'c', 'd', 'e', 'f', 'g', 'h', 'i', 'j', 'k', 'l', 'm', 'n', 'o', 'p', 'q', 'r', 's', 't', 'u', 'v', 'w', 'x', 'y', 'z'}
  const DIGITS: set<char> := {'0', '1', '2', '3', '4', '5', '6', '7', '8', '9'}

  ghost predicate LetterOrDigit(c: char) {
    c in CAPITALS + LETTERS + DIGITS
  }

  /** A letter or digit, followed by at most 79 letters, digits, points, underscores, colons and
      hyphens. */
  ghost predicate WellFormed(id: string) {
    && id != [] && |id| < 81 && LetterOrDigit(id[0])
    && forall i | 1 <= i < |id| :: LetterOrDigit(id[i]) || Punctuation(id[i])
  }

  /** The server has named its sources: at least one, none twice, each by a well-formed identifier. */
  ghost predicate Bound(serverIds: Option<seq<string>>) {
    && serverIds.Some? && serverIds.value != []
    && (forall i, j | 0 <= i < j < |serverIds.value| :: serverIds.value[i] != serverIds.value[j])
    && forall i | 0 <= i < |serverIds.value| :: WellFormed(serverIds.value[i])
  }

  /** The server vouches for the source: it is its own, and verified or eligible as evidence. */
  ghost predicate Vouched(s: Source) {
    s.serverOwned && (s.trust == OfficialVerified || s.trust == EvidenceEligible)
  }

  /** Every requested source is named by the server, known to the catalog and vouched for. */
  ghost predicate Admitted(cat: Catalog, request: Request) {
    && Bound(cat.serverIds)
    && forall id | id in request.sourceIds :: id in cat.serverIds.value && id in cat.sources && Vouched(cat.sources[id])
  }

  lemma AlphanumericMeans(c: char)
    ensures IsAlphanumeric(c) <==> LetterOrDigit(c)
  {
    assert c in CAPITALS <==> 'A' <= c <= 'Z';
    assert c in LETTERS <==> 'a' <= c <= 'z';
    assert c in DIGITS <==> '0' <= c <= '9';
  }

  predicate Punctuation(c: char) {
    c in {'.', '_', ':', '-'}
  }

  lemma WellFormedIf(id: string)
    requires IsIdentifier(id)
    ensures WellFormed(id)
  {
    AlphanumericMeans(id[0]);
    hide LetterOrDigit;
    forall i | 1 <= i < |id|
      ensures LetterOrDigit(id[i]) || Punctuation(id[i])
    {
      assert id[i] in id;
      AlphanumericMeans(id[i]);
      hide IsAlphanumeric;
    }
  }

  lemma WellFormedAt(id: string, c: char)
    requires WellFormed(id) && c in id
    ensures IsAlphanumeric(c) || Punctuation(c)
  {
    hide IsAlphanumeric;
    hide LetterOrDigit;
    hide Punctuation;
    AlphanumericMeans(c);
    var i :| 0 <= i < |id| && id[i] == c;
    if i > 0 {
      assert LetterOrDigit(id[i]) || Punctuation(id[i]);
    }
  }

  lemma WellFormedOnlyIf(id: string)
    requires WellFormed(id)
    ensures IsIdentifier(id)
  {
    AlphanumericMeans(id[0]);
    forall c | c in id
      ensures IsAlphanumeric(c) || c == '.' || c == '_' || c == ':' || c == '-'
    {
      WellFormedAt(id, c);
    }
    hide WellFormed;
    hide IsAlphanumeric;
    hide LetterOrDigit;
  }

  lemma IdentifierMeans(id: string)
    ensures IsIdentifier(id) <==> WellFormed(id)
  {
    if IsIdentifier(id) {
      WellFormedIf(id);
    }
    if WellFormed(id) {
      WellFormedOnlyIf(id);
    }
    hide IsIdentifier;
    hide WellFormed;
  }

  lemma BindingMeans(serverIds: seq<string>)
    ensures InvalidBinding(serverIds) <==> !Bound(Some(serverIds))
  {
    forall id
      ensures IsIdentifier(id) <==> WellFormed(id)
    {
      IdentifierMeans(id);
    }
    UniqueIsDistinct(serverIds);
    hide WellFormed;
    hide IsIdentifier;
    hide Elems;
  }

  /** The gates let through exactly the admitted requests. */
  lemma GateMeans(cat: Catalog, request: Request)
    ensures Gate(cat, request).None? <==> Admitted(cat, request)
  {
    if cat.serverIds.Some? {
      BindingMeans(cat.serverIds.value);
    }
    assert forall id :: id in Elems(request.sourceIds) <==> id in request.sourceIds;
    hide Elems;
    hide Bound;
    hide InvalidBinding;
  }

  // ----- Turned away --------------------------------------------------------------------

  /** The record of a request that is turned away. */
  ghost function TurnedAway(request: Request, reason: string, limitations: seq<string>): Outcome {
    Returned(Resolution(false, Indeterminate, request.asOf, request.sourceIds, [], None, [], [], [reason], limitations))
  }

  /** The server names every requested source. */
  ghost predicate Named(cat: Catalog, request: Request) {
    Bound(cat.serverIds) && forall id | id in request.sourceIds :: id in cat.serverIds.value
  }

  /** A request that is not admitted is turned away with the first reason that holds, of those on the
      server's list, on the list's form, on sources that it does not name, on sources missing from the
      catalog, and on sources that the server does not own or has not verified. */
  lemma RefusedRequests(cat: Catalog, request: Request)
    requires !Admitted(cat, request)
    ensures Resolve(cat, request) ==
              if cat.serverIds.None? then
                TurnedAway(request, "APPLICABILITY_SERVER_CATALOG_BINDING_REQUIRED", ["APPLICABILITY_SERVER_CATALOG_BINDING_REQUIRED"])
              else if !Bound(cat.serverIds) then TurnedAway(request, "APPLICABILITY_SERVER_CATALOG_BINDING_INVALID", [])
              else if !Named(cat, request) then
                TurnedAway(request, "APPLICABILITY_SOURCE_NOT_SERVER_BOUND", ["APPLICABILITY_SERVER_CATALOG_SCOPE_LIMITED"])
              else if !Known(cat, request) then
                TurnedAway(request, "APPLICABILITY_SOURCE_NOT_FOUND", ["APPLICABILITY_SERVER_CATALOG_INCOMPLETE"])
              else if exists id | id in request.sourceIds :: !cat.sources[id].serverOwned then
                TurnedAway(request, "APPLICABILITY_SOURCE_NOT_SERVER_OWNED", [])
              else TurnedAway(request, "APPLICABILITY_SOURCE_NOT_VERIFIED", [])
  {
    GateNames(cat, request);
    GateMeans(cat, request);
    hide Bound;
    hide Named;
    hide Admitted;
    hide Gate;
    hide Conclude;
    hide NoneActive;
    hide Assessments;
    hide ActiveIds;
    hide ScanRequest;
  }

  lemma GateNames(cat: Catalog, request: Request)
    ensures var gate := Gate(cat, request);
            if cat.serverIds.None? then
              gate == Some(("APPLICABILITY_SERVER_CATALOG_BINDING_REQUIRED", ["APPLICABILITY_SERVER_CATALOG_BINDING_REQUIRED"]))
            else if !Bound(cat.serverIds) then gate == Some(("APPLICABILITY_SERVER_CATALOG_BINDING_INVALID", []))
            else if !Named(cat, request) then
              gate == Some(("APPLICABILITY_SOURCE_NOT_SERVER_BOUND", ["APPLICABILITY_SERVER_CATALOG_SCOPE_LIMITED"]))
            else if !Known(cat, request) then
              gate == Some(("APPLICABILITY_SOURCE_NOT_FOUND", ["APPLICABILITY_SERVER_CATALOG_INCOMPLETE"]))
            else if exists id | id in request.sourceIds :: !cat.sources[id].serverOwned then
              gate == Some(("APPLICABILITY_SOURCE_NOT_SERVER_OWNED", []))
            else gate.None? || gate == Some(("APPLICABILITY_SOURCE_NOT_VERIFIED", []))
  {
    if cat.serverIds.Some? {
      BindingMeans(cat.serverIds.value);
    }
    assert forall id :: id in Elems(request.sourceIds) <==> id in request.sourceIds;
    hide Elems;
    hide Bound;
    hide InvalidBinding;
  }

  // ----- In force -----------------------------------------------------------------------

  /** On that date the source has taken effect, has not run out and is not repealed. */
  ghost predicate InForce(s: Source, asOf: int) {
    && (s.effectiveFrom == None || s.effectiveFrom.value <= asOf)
    && (s.effectiveUntil == None || asOf <= s.effectiveUntil.value)
    && (s.repealedOn == None || asOf < s.repealedOn.value)
  }

  ghost predicate StartsLater(s: Source, asOf: int) {
    s.effectiveFrom.Some? && s.effectiveFrom.value > asOf
  }

  ghost predicate MatchesScope(s: Source, request: Request) {
    request.scopeKey == None || s.scopeKey == request.scopeKey
  }

  /** Each source is assessed as out of scope, not yet in force, no longer in force, or in force. */
  lemma AssessmentMeans(s: Source, request: Request)
    ensures Assess(s, request) ==
              if !MatchesScope(s, request) then Assessment(s.sourceId, Undetermined, false, ["APPLICABILITY_SCOPE_MISMATCH"])
              else if InForce(s, request.asOf) then Assessment(s.sourceId, Applies, true, [])
              else if StartsLater(s, request.asOf) then
                Assessment(s.sourceId, NotYetEffective, false, ["APPLICABILITY_SOURCE_NOT_YET_EFFECTIVE"])
              else Assessment(s.sourceId, ExpiredOrRepealed, false, ["APPLICABILITY_SOURCE_EXPIRED_OR_REPEALED"])
  {
  }

  /** The requested sources of the requested scope that are in force on the requested date. */
  ghost function IdsInForce(cat: Catalog, request: Request): set<string>
    requires Known(cat, request)
  {
    set id | id in request.sourceIds && MatchesScope(cat.sources[id], request) && InForce(cat.sources[id], request.asOf)
  }

  lemma ActiveMeans(cat: Catalog, request: Request)
    requires Known(cat, request)
    ensures ActiveIds(cat, request) == IdsInForce(cat, request)
  {
    forall id | id in request.sourceIds
      ensures Assess(cat.sources[id], request).active <==>
                MatchesScope(cat.sources[id], request) && InForce(cat.sources[id], request.asOf)
    {
      AssessmentMeans(cat.sources[id], request);
    }
    hide Assess;
    hide InForce;
    hide MatchesScope;
  }
}
