/** The finalization contract: building a posture from server-owned facts, and validating a
    contract that may come from anywhere against one server-owned run. */
module Finalization {
  import opened Collections
  import opened Sorting
  import opened Snapshot
  import opened Sufficiency

  const MAX_EVIDENCE_PREVIEW := 512
  const MAX_SOURCES := 256
  const MAX_QUALIFICATIONS := 64
  const MAX_PENDING := 128
  const MAX_BLOCKERS := 64
  const MAX_ACTIONS := 32
  const MAX_RECEIPTS := 64
  const MAX_GATE_ENTRIES := 32

  // Short names for the texts that are shown.
  const QUALIFY_COVERAGE := "coverage"
  const QUALIFY_TIME := "time"
  const QUALIFY_AUTHORITY := "authority"
  const QUALIFY_COUNTER := "counter"
  const QUALIFY_CONSENSUS := "consensus"
  const QUALIFY_ABSENCE := "absence"
  const QUALIFY_RECEIPT := "no-receipt"
  const QUALIFY_DEFAULT := "conditional"
  const QUALIFY_UNRECEIPTED := "receipt-not-supplied"
  const ACTION_RESEARCH := "research"
  const ACTION_CONFIRM := "confirm"

  datatype CounterGate = CounterGate(required: bool, coverageComplete: bool, consensusRequested: bool, consensusAllowed: bool, limitations: seq<string>)

  datatype AbsenceGate = AbsenceGate(requested: bool, allowed: bool, scope: Option<string>, reasonCodes: seq<string>)

  datatype Authorization = Authorization(count: nat, digest: string, previewCount: nat, complete: bool)

  datatype Blocker = Blocker(code: string, retryable: bool)

  datatype Contract = Contract(
    runId: string,
    workflowComplete: bool,
    level: Level,
    mode: Mode,
    sources: seq<string>,
    evidence: seq<string>,
    authorization: Option<Authorization>,
    qualification: seq<string>,
    pendingSupport: seq<string>,
    pendingLookups: seq<string>,
    blockers: seq<Blocker>,
    actions: seq<string>,
    retryable: bool,
    counter: CounterGate,
    absence: AbsenceGate,
    receipts: seq<Receipt>,
    snapshot: Option<Consistency>,
    draft: Option<string>)

  /** What the server knows when it builds a contract. */
  datatype Facts = Facts(
    runId: string,
    workflowComplete: bool,
    level: Level,
    sources: seq<string>,
    evidence: seq<string>,
    serverSources: Option<seq<string>>,
    serverEvidence: Option<seq<string>>,
    coverageComplete: bool,
    timeComplete: bool,
    authorityComplete: bool,
    evidenceAvailable: bool,
    counter: CounterGate,
    absence: AbsenceGate,
    qualification: seq<string>,
    pendingSupport: seq<string>,
    pendingLookups: seq<string>,
    blockers: seq<Blocker>,
    actions: seq<string>,
    retryable: bool,
    receipts: seq<Receipt>,
    serverReceipts: Option<seq<Receipt>>,
    supportUnsafe: bool,
    privacyDenied: bool)

  // ----- The evidence summary -----------------------------------------------------------

  function Preview(evidence: seq<string>): seq<string> {
    var sorted := Sort(evidence);
    if |sorted| <= MAX_EVIDENCE_PREVIEW then sorted else sorted[..MAX_EVIDENCE_PREVIEW]
  }

  /** A digest of the whole sorted list, and how much of it the preview shows. */
  function Summary(digest: seq<string> -> string, evidence: seq<string>): Authorization {
    var sorted := Sort(evidence);
    var shown := if |sorted| <= MAX_EVIDENCE_PREVIEW then |sorted| else MAX_EVIDENCE_PREVIEW;
    Authorization(|sorted|, digest(sorted), shown, shown == |sorted|)
  }

  lemma PreviewIs(digest: seq<string> -> string, evidence: seq<string>)
    ensures |Preview(evidence)| == Summary(digest, evidence).previewCount
    ensures Preview(evidence) == [] <==> evidence == []
    ensures Elems(Preview(evidence)) <= Elems(evidence)
    ensures Distinct(evidence) ==> Distinct(Preview(evidence))
  {
    SortSorts(evidence);
    SortKeepsDistinct(evidence);
    hide Sort;
    hide Ascending;
    var sorted := Sort(evidence);
    forall x | x in Elems(Preview(evidence))
      ensures x in Elems(evidence)
    {
      assert x in sorted;
    }
  }

  // ----- The posture a contract may have ------------------------------------------------

  ghost predicate ListsUnique(c: Contract) {
    && Distinct(c.sources) && Distinct(c.evidence) && Distinct(c.qualification)
    && Distinct(c.pendingSupport) && Distinct(c.pendingLookups) && Distinct(c.actions)
  }

  /** The limits on the lists of a contract and of its two gates. */
  ghost predicate ListsSized(c: Contract) {
    && |c.sources| <= 256 && |c.evidence| <= 512 && |c.qualification| <= 64
    && |c.pendingSupport| <= 128 && |c.pendingLookups| <= 128
    && |c.blockers| <= 64 && |c.actions| <= 32 && |c.receipts| <= 64
    && |c.counter.limitations| <= 32 && |c.absence.reasonCodes| <= 32
  }

  ghost predicate OrdinaryPosture(c: Contract) {
    && c.level.Sufficient? && c.workflowComplete
    && c.sources != [] && c.evidence != []
    && c.pendingSupport == [] && c.pendingLookups == [] && c.blockers == []
    && (c.counter.required ==> c.counter.coverageComplete)
    && (c.counter.consensusRequested ==> c.counter.consensusAllowed)
    && (c.absence.requested ==> c.absence.allowed)
    && c.snapshot == Some(Consistent)
  }

  ghost predicate PostureValid(c: Contract) {
    && ListsUnique(c) && ListsSized(c)
    && (c.authorization.Some? ==> c.authorization.value.previewCount == |c.evidence|)
    && (c.mode.RefusalOnly? || c.blockers != [] ==> c.draft.None?)
    && (c.mode.Conditional? ==> c.qualification != [])
    && (c.mode.Ordinary? ==> OrdinaryPosture(c))
  }

  method CheckSizes(c: Contract) returns (ok: bool)
    ensures ok <==> ListsSized(c)
  {
    if |c.sources| > MAX_SOURCES || |c.evidence| > MAX_EVIDENCE_PREVIEW || |c.qualification| > MAX_QUALIFICATIONS {
      return false;
    }
    if |c.pendingSupport| > MAX_PENDING || |c.pendingLookups| > MAX_PENDING {
      return false;
    }
    if |c.blockers| > MAX_BLOCKERS || |c.actions| > MAX_ACTIONS || |c.receipts| > MAX_RECEIPTS {
      return false;
    }
    return |c.counter.limitations| <= MAX_GATE_ENTRIES && |c.absence.reasonCodes| <= MAX_GATE_ENTRIES;
  }

  /** An ordinary answer needs every gate open. */
  method CheckOrdinary(c: Contract) returns (ok: bool)
    ensures ok <==> OrdinaryPosture(c)
  {
    if !c.level.Sufficient? || !c.workflowComplete || c.sources == [] || c.evidence == [] {
      return false;
    }
    if c.pendingSupport != [] || c.pendingLookups != [] || c.blockers != [] {
      return false;
    }
    if c.counter.required && !c.counter.coverageComplete {
      return false;
    }
    if c.counter.consensusRequested && !c.counter.consensusAllowed {
      return false;
    }
    if c.absence.requested && !c.absence.allowed {
      return false;
    }
    return c.snapshot == Some(Consistent);
  }

  /** The checks made whenever a contract is built. */
  method ValidatePosture(c: Contract) returns (ok: bool)
    ensures ok <==> PostureValid(c)
  {
    var lists := AllUnique(c.sources) && AllUnique(c.evidence) && AllUnique(c.qualification)
                 && AllUnique(c.pendingSupport) && AllUnique(c.pendingLookups) && AllUnique(c.actions);
    hide Distinct;
    hide AllUnique;
    hide ListsSized;
    hide OrdinaryPosture;
    var sized := CheckSizes(c);
    if !lists || !sized {
      return false;
    }
    if c.authorization.Some? && c.authorization.value.previewCount != |c.evidence| {
      return false;
    }
    if (c.mode.RefusalOnly? || c.blockers != []) && c.draft.Some? {
      return false;
    }
    if c.mode.Conditional? && c.qualification == [] {
      return false;
    }
    if c.mode.Ordinary? {
      ok := CheckOrdinary(c);
      return ok;
    }
    return true;
  }

  // ----- What the facts decide ----------------------------------------------------------

  ghost predicate WithinServer(ids: seq<string>, server: Option<seq<string>>) {
    server.Some? && Elems(ids) <= Elems(server.value)
  }

  ghost predicate ReceiptsConsistent(f: Facts, now: int) {
    StatusOf(f.receipts, f.serverReceipts, now) == Consistent
  }

  ghost predicate ReceiptsMissing(f: Facts, now: int) {
    StatusOf(f.receipts, f.serverReceipts, now) == LegacyNoReceipt
  }

  /** The facts under which only a refusal can be given. */
  ghost predicate Blocking(f: Facts, now: int) {
    || f.blockers != []
    || !WithinServer(f.sources, f.serverSources) || !WithinServer(f.evidence, f.serverEvidence)
    || !f.workflowComplete || f.level.RetryRequired? || f.level.Insufficient?
    || f.pendingSupport != [] || f.pendingLookups != []
    || !f.evidenceAvailable || f.evidence == []
    || (!ReceiptsMissing(f, now) && !ReceiptsConsistent(f, now))
    || f.supportUnsafe || f.privacyDenied
  }

  ghost predicate Unqualified(f: Facts, now: int) {
    && f.level.Sufficient? && f.coverageComplete && f.timeComplete && f.authorityComplete
    && f.sources != []
    && (f.counter.required ==> f.counter.coverageComplete)
    && (f.counter.consensusRequested ==> f.counter.consensusAllowed)
    && (f.absence.requested ==> f.absence.allowed)
    && ReceiptsConsistent(f, now)
  }

  ghost function ModeFor(f: Facts, now: int): Mode {
    if Blocking(f, now) then RefusalOnly else if Unqualified(f, now) then Ordinary else Conditional
  }

  /** Every qualification the facts call for, the ones already given included. */
  ghost function Qualifications(f: Facts, now: int): set<string> {
    Elems(f.qualification)
    + (if f.coverageComplete then {} else {QUALIFY_COVERAGE})
    + (if f.timeComplete then {} else {QUALIFY_TIME})
    + (if f.authorityComplete then {} else {QUALIFY_AUTHORITY})
    + (if f.counter.required && !f.counter.coverageComplete then {QUALIFY_COUNTER} else {})
    + (if f.counter.consensusRequested && !f.counter.consensusAllowed then {QUALIFY_CONSENSUS} else {})
    + (if f.absence.requested && !f.absence.allowed then {QUALIFY_ABSENCE} else {})
    + (if ReceiptsMissing(f, now) then {QUALIFY_RECEIPT} else {})
  }

  ghost function QualificationsFor(f: Facts, now: int): set<string> {
    match ModeFor(f, now)
    case Ordinary => {}
    case Conditional => if Qualifications(f, now) == {} then {QUALIFY_DEFAULT} else Qualifications(f, now)
    case RefusalOnly => Qualifications(f, now)
  }

  /** Something to do next is always named, except beside an ordinary answer. */
  function ActionsFor(actions: seq<string>, mode: Mode): seq<string> {
    if actions != [] then actions
    else match mode
      case RefusalOnly => [ACTION_RESEARCH]
      case Conditional => [ACTION_CONFIRM]
      case Ordinary => []
  }

  /** The contract is built from the facts. */
  ghost predicate IsBuilt(digest: seq<string> -> string, f: Facts, now: int, c: Contract) {
    && c.runId == f.runId && c.workflowComplete == f.workflowComplete && c.level == f.level
    && c.mode == ModeFor(f, now)
    && c.sources == f.sources && c.evidence == Preview(f.evidence) && c.authorization == Some(Summary(digest, f.evidence))
    && Elems(c.qualification) == QualificationsFor(f, now)
    && c.pendingSupport == f.pendingSupport && c.pendingLookups == f.pendingLookups
    && f.blockers <= c.blockers && (c.blockers == [] <==> !Blocking(f, now)) && Codes(c.blockers) == BlockerCodes(f, now)
    && |c.blockers| == BlockerCount(f, now)
    && OnlyRetry(f.blockers, c.blockers) && RetryNoted(f.level, f.blockers, c.blockers)
    && (c.retryable <==> f.retryable || exists b | b in c.blockers :: b.retryable)
    && c.actions == ActionsFor(f.actions, c.mode)
    && c.counter == f.counter && c.absence == f.absence
    && c.receipts == f.receipts && c.snapshot == Some(StatusOf(f.receipts, f.serverReceipts, now))
    && c.draft == None
  }

  /** Exactly when the facts can be put into a contract: no list repeats an entry. */
  ghost predicate FactsUnique(f: Facts, now: int) {
    && Distinct(f.sources) && Distinct(f.evidence)
    && Distinct(f.pendingSupport) && Distinct(f.pendingLookups) && Distinct(f.actions)
    && (ModeFor(f, now).Ordinary? || Distinct(f.qualification))
  }

  /** And no list is longer than it may be, the computed ones included. */
  ghost predicate FactsSized(f: Facts, now: int) {
    && |f.sources| <= 256 && |QualificationsFor(f, now)| <= 64
    && |f.pendingSupport| <= 128 && |f.pendingLookups| <= 128
    && BlockerCount(f, now) <= 64 && |f.actions| <= 32 && |f.receipts| <= 64
    && |f.counter.limitations| <= 32 && |f.absence.reasonCodes| <= 32
  }

  // ----- Adding to the lists ------------------------------------------------------------

  function AddQualification(values: seq<string>, condition: bool, message: string): (r: seq<string>)
    ensures Elems(r) == Elems(values) + if condition then {message} else {}
    ensures Distinct(r) <==> Distinct(values)
  {
    ElemsAppend(values, message);
    DistinctAppend(values, message);
    assert message in values <==> message in Elems(values);
    hide Distinct;
    if condition && message !in values then values + [message] else values
  }

  function Codes(blockers: seq<Blocker>): set<string> {
    set b | b in blockers :: b.code
  }

  /** How many blockers repeat a code. */
  function Repeats(blockers: seq<Blocker>): int {
    |blockers| - |Codes(blockers)|
  }

  function AddBlocker(blockers: seq<Blocker>, condition: bool, code: string, retryable: bool): (r: seq<Blocker>)
    ensures blockers <= r
    ensures r == [] <==> blockers == [] && !condition
    ensures Codes(r) == Codes(blockers) + if condition then {code} else {}
    ensures Repeats(r) == Repeats(blockers)
    ensures forall b | b in r && b !in blockers :: b == Blocker(code, retryable)
  {
    if condition && !exists b | b in blockers :: b.code == code then
      CodesAppend(blockers, Blocker(code, retryable));
      blockers + [Blocker(code, retryable)]
    else blockers
  }

  const RETRY_CODE := "RESEARCH_RETRY_REQUIRED"

  /** No blocker that was added asks for a retry. */
  ghost predicate NoRetry(before: seq<Blocker>, blockers: seq<Blocker>) {
    forall b | b in blockers && b !in before :: !b.retryable
  }

  /** Of the blockers that were added only the one for research to be retried asks for a retry. */
  ghost predicate OnlyRetry(before: seq<Blocker>, blockers: seq<Blocker>) {
    forall b | b in blockers && b !in before :: b.retryable ==> b.code == RETRY_CODE
  }

  /** Research to be retried is blocked with a retry, unless its code was there already. */
  ghost predicate RetryNoted(level: Level, before: seq<Blocker>, blockers: seq<Blocker>) {
    level.RetryRequired? ==> RETRY_CODE in Codes(before) || exists b | b in blockers :: b.code == RETRY_CODE && b.retryable
  }

  lemma CodesAppend(blockers: seq<Blocker>, b: Blocker)
    ensures Codes(blockers + [b]) == Codes(blockers) + {b.code}
  {
    assert b in blockers + [b];
    assert forall x | x in blockers :: x in blockers + [b];
  }

  // ----- The codes of the blockers ------------------------------------------------------

  ghost function BindingCodes(f: Facts): set<string> {
    (if f.serverSources.None? then {"FINALIZATION_SERVER_BINDING_REQUIRED"}
     else if !WithinServer(f.sources, f.serverSources) then {"FINALIZATION_SOURCE_NOT_SERVER_OWNED"} else {})
    + (if f.serverEvidence.None? then {"FINALIZATION_SERVER_BINDING_REQUIRED"}
       else if !WithinServer(f.evidence, f.serverEvidence) then {"FINALIZATION_EVIDENCE_NOT_SERVER_OWNED"} else {})
  }

  ghost function ResearchCodes(f: Facts): set<string> {
    (if !f.workflowComplete then {"WORKFLOW_INCOMPLETE"} else {})
    + (if f.level.RetryRequired? then {"RESEARCH_RETRY_REQUIRED"} else if f.level.Insufficient? then {"RESEARCH_INSUFFICIENT"} else {})
  }

  ghost function WorkCodes(f: Facts): set<string> {
    ResearchCodes(f)
    + (if f.pendingSupport != [] then {"PENDING_CLAIM_SUPPORT"} else {})
    + (if f.pendingLookups != [] then {"PENDING_SUPPORT_LOOKUP"} else {})
    + (if !f.evidenceAvailable || f.evidence == [] then {"SERVER_EVIDENCE_REQUIRED"} else {})
  }

  ghost function OutputCodes(f: Facts, now: int): set<string> {
    (if !ReceiptsMissing(f, now) && !ReceiptsConsistent(f, now) then {"SNAPSHOT_RECEIPT_MISMATCH"} else {})
    + (if f.supportUnsafe then {"CLAIM_SUPPORT_UNSAFE"} else {})
    + (if f.privacyDenied then {"ANSWER_PRIVACY_NOT_ALLOWED"} else {})
  }

  ghost function BlockerCodes(f: Facts, now: int): set<string> {
    Codes(f.blockers) + BindingCodes(f) + WorkCodes(f) + OutputCodes(f, now)
  }

  /** The blockers given, and one for each further code. */
  ghost function BlockerCount(f: Facts, now: int): int {
    Repeats(f.blockers) + |BlockerCodes(f, now)|
  }

  /** Identifiers outside the server's own lists, or lists the server did not give. */
  method BindingBlockers(f: Facts) returns (blockers: seq<Blocker>)
    ensures f.blockers <= blockers
    ensures blockers == [] <==>
              f.blockers == [] && WithinServer(f.sources, f.serverSources) && WithinServer(f.evidence, f.serverEvidence)
    ensures Codes(blockers) == Codes(f.blockers) + BindingCodes(f)
    ensures Repeats(blockers) == Repeats(f.blockers)
    ensures NoRetry(f.blockers, blockers)
  {
    hide Elems;
    hide Codes;
    hide AddBlocker;
    hide Repeats;
    blockers := f.blockers;
    if f.serverSources.Some? {
      blockers := AddBlocker(blockers, !(Elems(f.sources) <= Elems(f.serverSources.value)), "FINALIZATION_SOURCE_NOT_SERVER_OWNED", false);
    } else {
      blockers := AddBlocker(blockers, true, "FINALIZATION_SERVER_BINDING_REQUIRED", false);
    }
    if f.serverEvidence.Some? {
      blockers := AddBlocker(blockers, !(Elems(f.evidence) <= Elems(f.serverEvidence.value)), "FINALIZATION_EVIDENCE_NOT_SERVER_OWNED", false);
    } else {
      blockers := AddBlocker(blockers, true, "FINALIZATION_SERVER_BINDING_REQUIRED", false);
    }
  }

  method ResearchBlockers(f: Facts, blockers0: seq<Blocker>) returns (blockers: seq<Blocker>)
    ensures blockers0 <= blockers
    ensures OnlyRetry(blockers0, blockers) && RetryNoted(f.level, blockers0, blockers)
    ensures blockers == [] <==> blockers0 == [] && f.workflowComplete && !f.level.RetryRequired? && !f.level.Insufficient?
    ensures Codes(blockers) == Codes(blockers0) + ResearchCodes(f)
    ensures Repeats(blockers) == Repeats(blockers0)
  {
    hide Codes;
    hide AddBlocker;
    hide Repeats;
    blockers := AddBlocker(blockers0, !f.workflowComplete, "WORKFLOW_INCOMPLETE", false);
    if f.level.RetryRequired? {
      ghost var before := blockers;
      blockers := AddBlocker(blockers, true, "RESEARCH_RETRY_REQUIRED", true);
      RetryIsNoted(f.level, blockers0, before, blockers);
    } else if f.level.Insufficient? {
      blockers := AddBlocker(blockers, true, "RESEARCH_INSUFFICIENT", false);
    }
  }

  lemma RetryIsNoted(level: Level, before: seq<Blocker>, middle: seq<Blocker>, blockers: seq<Blocker>)
    requires Codes(middle) <= Codes(before) + {"WORKFLOW_INCOMPLETE"}
    requires RETRY_CODE in Codes(blockers) && forall b | b in blockers && b !in middle :: b == Blocker(RETRY_CODE, true)
    ensures RetryNoted(level, before, blockers)
  {
    assert RETRY_CODE[0] != "WORKFLOW_INCOMPLETE"[0];
    var b :| b in blockers && b.code == RETRY_CODE;
    if b in middle {
      assert b.code in Codes(middle);
    }
  }

  /** Unfinished work and missing evidence. */
  method WorkBlockers(f: Facts, blockers0: seq<Blocker>) returns (blockers: seq<Blocker>)
    ensures blockers0 <= blockers
    ensures OnlyRetry(blockers0, blockers) && RetryNoted(f.level, blockers0, blockers)
    ensures blockers == [] <==>
              && blockers0 == [] && f.workflowComplete && !f.level.RetryRequired? && !f.level.Insufficient?
              && f.pendingSupport == [] && f.pendingLookups == [] && f.evidenceAvailable && f.evidence != []
    ensures Codes(blockers) == Codes(blockers0) + WorkCodes(f)
    ensures Repeats(blockers) == Repeats(blockers0)
  {
    hide Codes;
    hide AddBlocker;
    hide Repeats;
    hide ResearchCodes;
    blockers := ResearchBlockers(f, blockers0);
    blockers := AddBlocker(blockers, f.pendingSupport != [], "PENDING_CLAIM_SUPPORT", false);
    blockers := AddBlocker(blockers, f.pendingLookups != [], "PENDING_SUPPORT_LOOKUP", false);
    blockers := AddBlocker(blockers, !f.evidenceAvailable || f.evidence == [], "SERVER_EVIDENCE_REQUIRED", false);
  }

  /** What the receipts and the attached validator results add. */
  method OutputBlockers(f: Facts, snapshot: Assessment, now: int, blockers0: seq<Blocker>) returns (blockers: seq<Blocker>)
    requires snapshot.status == StatusOf(f.receipts, f.serverReceipts, now) && (snapshot.consistent <==> snapshot.status.Consistent?)
    ensures blockers0 <= blockers
    ensures blockers == [] <==>
              blockers0 == [] && (snapshot.status.LegacyNoReceipt? || snapshot.consistent) && !f.supportUnsafe && !f.privacyDenied
    ensures Codes(blockers) == Codes(blockers0) + OutputCodes(f, now)
    ensures Repeats(blockers) == Repeats(blockers0)
    ensures NoRetry(blockers0, blockers)
  {
    hide Codes;
    hide StatusOf;
    hide AddBlocker;
    hide Repeats;
    blockers := AddBlocker(blockers0, !snapshot.status.LegacyNoReceipt? && !snapshot.consistent, "SNAPSHOT_RECEIPT_MISMATCH", false);
    blockers := AddBlocker(blockers, f.supportUnsafe, "CLAIM_SUPPORT_UNSAFE", false);
    blockers := AddBlocker(blockers, f.privacyDenied, "ANSWER_PRIVACY_NOT_ALLOWED", false);
  }

  method AddQualifications(f: Facts, receiptsMissing: bool, now: int) returns (qualification: seq<string>)
    requires receiptsMissing <==> ReceiptsMissing(f, now)
    ensures Elems(qualification) == Qualifications(f, now)
    ensures Distinct(qualification) <==> Distinct(f.qualification)
  {
    hide ReceiptsMissing;
    hide Distinct;
    hide Elems;
    hide AddQualification;
    qualification := AddQualification(f.qualification, !f.coverageComplete, QUALIFY_COVERAGE);
    qualification := AddQualification(qualification, !f.timeComplete, QUALIFY_TIME);
    qualification := AddQualification(qualification, !f.authorityComplete, QUALIFY_AUTHORITY);
    qualification := AddQualification(qualification, f.counter.required && !f.counter.coverageComplete, QUALIFY_COUNTER);
    qualification := AddQualification(qualification, f.counter.consensusRequested && !f.counter.consensusAllowed, QUALIFY_CONSENSUS);
    qualification := AddQualification(qualification, f.absence.requested && !f.absence.allowed, QUALIFY_ABSENCE);
    qualification := AddQualification(qualification, receiptsMissing, QUALIFY_RECEIPT);
  }

  /** Every blocker the facts call for. */
  method Blockers(f: Facts, snapshot: Assessment, now: int) returns (blockers: seq<Blocker>)
    requires snapshot.status == StatusOf(f.receipts, f.serverReceipts, now) && (snapshot.consistent <==> snapshot.status.Consistent?)
    ensures f.blockers <= blockers && (blockers == [] <==> !Blocking(f, now)) && Codes(blockers) == BlockerCodes(f, now)
    ensures Repeats(blockers) == Repeats(f.blockers)
    ensures OnlyRetry(f.blockers, blockers) && RetryNoted(f.level, f.blockers, blockers)
  {
    hide StatusOf;
    hide WithinServer;
    hide Repeats;
    hide Codes;
    hide BindingCodes;
    hide WorkCodes;
    hide OutputCodes;
    hide OnlyRetry;
    hide NoRetry;
    hide RetryNoted;
    var binding := BindingBlockers(f);
    var work := WorkBlockers(f, binding);
    blockers := OutputBlockers(f, snapshot, now, work);
    RetryStaysNoted(f, binding, work, blockers);
  }

  lemma RetryStaysNoted(f: Facts, binding: seq<Blocker>, work: seq<Blocker>, blockers: seq<Blocker>)
    requires binding <= work <= blockers && Codes(binding) == Codes(f.blockers) + BindingCodes(f)
    requires NoRetry(f.blockers, binding) && OnlyRetry(binding, work) && NoRetry(work, blockers)
    requires RetryNoted(f.level, binding, work)
    ensures OnlyRetry(f.blockers, blockers) && RetryNoted(f.level, f.blockers, blockers)
  {
    NotABinding(f);
    hide BindingCodes;
    hide Codes;
  }

  lemma NotABinding(f: Facts)
    ensures RETRY_CODE !in BindingCodes(f)
  {
    hide WithinServer;
    assert RETRY_CODE[0] == 'R' && "FINALIZATION_SERVER_BINDING_REQUIRED"[0] == 'F' && "FINALIZATION_SOURCE_NOT_SERVER_OWNED"[0] == 'F'
           && "FINALIZATION_EVIDENCE_NOT_SERVER_OWNED"[0] == 'F';
  }

  method ChoosePosture(f: Facts, now: int, snapshot: Assessment, hardBlocked: bool, called: seq<string>)
    returns (mode: Mode, qualification: seq<string>)
    requires snapshot.consistent <==> ReceiptsConsistent(f, now)
    requires hardBlocked <==> Blocking(f, now)
    requires Elems(called) == Qualifications(f, now) && (Distinct(called) <==> Distinct(f.qualification))
    ensures mode == ModeFor(f, now) && Elems(qualification) == QualificationsFor(f, now)
    ensures Distinct(qualification) <==> mode.Ordinary? || Distinct(f.qualification)
    ensures mode.Conditional? ==> qualification != []
  {
    EmptyElems(called);
    assert Elems<string>([]) == {} && Distinct<string>([]);
    hide ReceiptsConsistent;
    hide WithinServer;
    hide Qualifications;
    hide Distinct;
    hide Elems;
    hide AddQualification;
    qualification := called;
    var ordinary :=
      && f.workflowComplete && f.level.Sufficient? && f.coverageComplete && f.timeComplete && f.authorityComplete
      && f.evidenceAvailable && f.sources != [] && f.evidence != [] && f.pendingSupport == [] && f.pendingLookups == []
      && !hardBlocked && (!f.counter.required || f.counter.coverageComplete)
      && (!f.counter.consensusRequested || f.counter.consensusAllowed)
      && (!f.absence.requested || f.absence.allowed) && snapshot.consistent;
    if ordinary {
      mode := Ordinary;
      qualification := [];
    } else if hardBlocked {
      mode := RefusalOnly;
    } else {
      mode := Conditional;
      if qualification == [] {
        qualification := AddQualification(qualification, true, QUALIFY_DEFAULT);
      }
    }
  }

  lemma PreviewIsShort(evidence: seq<string>)
    ensures |Preview(evidence)| <= MAX_EVIDENCE_PREVIEW
  {
    hide Sort;
  }

  lemma FewActions(actions: seq<string>, mode: Mode)
    ensures |ActionsFor(actions, mode)| <= MAX_ACTIONS <==> |actions| <= MAX_ACTIONS
  {
  }

  lemma BuiltSizes(digest: seq<string> -> string, f: Facts, now: int, c: Contract)
    requires IsBuilt(digest, f, now, c) && Distinct(c.qualification)
    ensures ListsSized(c) <==> FactsSized(f, now)
  {
    hide Distinct;
    hide Elems;
    hide Codes;
    hide BlockerCodes;
    hide BlockerCount;
    hide StatusOf;
    hide Preview;
    hide Summary;
    hide ModeFor;
    hide QualificationsFor;
    hide Blocking;
    hide ActionsFor;
    DistinctCardinality(c.qualification);
    PreviewIsShort(f.evidence);
    FewActions(f.actions, c.mode);
  }

  /** A contract built from facts fails the posture checks only through a repeated entry or a list
      that is too long. */
  lemma BuiltPosture(digest: seq<string> -> string, f: Facts, now: int, c: Contract)
    requires IsBuilt(digest, f, now, c) && Distinct(f.evidence)
    requires Distinct(c.qualification) <==> c.mode.Ordinary? || Distinct(f.qualification)
    requires c.mode.Conditional? ==> c.qualification != []
    ensures PostureValid(c) <==> FactsUnique(f, now) && FactsSized(f, now)
  {
    PreviewIs(digest, f.evidence);
    if Distinct(c.qualification) {
      BuiltSizes(digest, f, now, c);
    }
    hide FactsSized;
    hide ListsSized;
    hide BlockerCount;
    SingletonsDistinct(f.actions, c.actions);
    hide Codes;
    hide BlockerCodes;
    hide Distinct;
    hide Elems;
    hide StatusOf;
    hide Preview;
    hide Summary;
    hide WithinServer;
    hide QualificationsFor;
  }

  /** Builds a posture from the facts; the only ways to fail are a list with a repeated entry and a
      list that is too long. */
  method BuildContract(digest: seq<string> -> string, f: Facts, now: int) returns (r: Result<Contract>)
    ensures r.Ok? <==> FactsUnique(f, now) && FactsSized(f, now)
    ensures r.Ok? ==> IsBuilt(digest, f, now, r.value) && PostureValid(r.value)
  {
    if !AllUnique(f.evidence) {
      return Err("EVIDENCE_NOT_UNIQUE");
    }
    assert Distinct(f.evidence);
    hide Distinct;
    hide AllUnique;
    hide Elems;
    hide StatusOf;
    hide Preview;
    hide Summary;
    hide Qualifications;
    hide QualificationsFor;
    hide PostureValid;
    hide Unqualified;
    hide FactsUnique;
    hide FactsSized;
    hide Repeats;
    var snapshot := AssessSnapshotConsistency(f.receipts, f.serverReceipts, now);
    hide WithinServer;
    hide Blocking;
    hide ModeFor;
    hide Codes;
    hide BlockerCodes;
    var blockers := Blockers(f, snapshot, now);
    assert |blockers| == BlockerCount(f, now) by {
      CountedBlockers(f, now, blockers);
    }
    hide BlockerCount;
    var qualification := AddQualifications(f, snapshot.status.LegacyNoReceipt?, now);
    var mode;
    mode, qualification := ChoosePosture(f, now, snapshot, blockers != [], qualification);
    var actions := ChooseActions(f.actions, mode);
    var c := Assemble(digest, f, mode, qualification, blockers, actions, snapshot.status);
    AssembledIsBuilt(digest, f, now, mode, qualification, blockers, actions, snapshot.status);
    hide IsBuilt;
    hide Assemble;
    BuiltPosture(digest, f, now, c);
    var ok := ValidatePosture(c);
    if !ok {
      return Err("POSTURE_INVALID");
    }
    r := Ok(c);
  }

  lemma CountedBlockers(f: Facts, now: int, blockers: seq<Blocker>)
    requires Repeats(blockers) == Repeats(f.blockers) && Codes(blockers) == BlockerCodes(f, now)
    ensures |blockers| == BlockerCount(f, now)
  {
    hide Codes;
    hide BlockerCodes;
  }

  method ChooseActions(actions0: seq<string>, mode: Mode) returns (actions: seq<string>)
    ensures actions == ActionsFor(actions0, mode)
  {
    actions := actions0;
    if mode.RefusalOnly? {
      if actions == [] {
        actions := [ACTION_RESEARCH];
      }
    } else if mode.Conditional? {
      if actions == [] {
        actions := [ACTION_CONFIRM];
      }
    }
  }

  function Assemble(digest: seq<string> -> string, f: Facts, mode: Mode, qualification: seq<string>, blockers: seq<Blocker>,
                    actions: seq<string>, status: Consistency): Contract {
    Contract(f.runId, f.workflowComplete, f.level, mode, f.sources, Preview(f.evidence), Some(Summary(digest, f.evidence)),
             qualification, f.pendingSupport, f.pendingLookups, blockers, actions,
             f.retryable || exists b | b in blockers :: b.retryable, f.counter, f.absence, f.receipts, Some(status), None)
  }

  lemma AssembledIsBuilt(digest: seq<string> -> string, f: Facts, now: int, mode: Mode, qualification: seq<string>,
                         blockers: seq<Blocker>, actions: seq<string>, status: Consistency)
    requires mode == ModeFor(f, now) && Elems(qualification) == QualificationsFor(f, now)
    requires f.blockers <= blockers && (blockers == [] <==> !Blocking(f, now)) && Codes(blockers) == BlockerCodes(f, now)
    requires |blockers| == BlockerCount(f, now)
    requires OnlyRetry(f.blockers, blockers) && RetryNoted(f.level, f.blockers, blockers)
    requires actions == ActionsFor(f.actions, mode) && status == StatusOf(f.receipts, f.serverReceipts, now)
    ensures var c := Assemble(digest, f, mode, qualification, blockers, actions, status);
            && IsBuilt(digest, f, now, c)
            && c.mode == mode && c.qualification == qualification
  {
    hide ModeFor;
    hide QualificationsFor;
    hide Blocking;
    hide Codes;
    hide BlockerCodes;
    hide BlockerCount;
    hide Elems;
    hide StatusOf;
    hide Preview;
    hide Summary;
  }

  lemma SingletonsDistinct(before: seq<string>, after: seq<string>)
    requires after == before || (before == [] && |after| <= 1)
    ensures Distinct(after) <==> Distinct(before)
  {
  }

  // ----- Building from a run ------------------------------------------------------------

  function CounterGateOf(run: Run): CounterGate {
    var c := run.coverage;
    var required := Requires(run, CounterAuthorityResearch);
    CounterGate(required,
                !required || (c.counter && if c.counterComplete.Some? then c.counterComplete.value else c.complete),
                false, false, c.limitations)
  }

  function AbsenceGateOf(run: Run): AbsenceGate {
    var c := run.coverage;
    var allowed := c.absenceAllowed && c.boundedScope.Some? && !Blank(c.boundedScope.value);
    AbsenceGate(false, allowed, c.boundedScope,
                if allowed then []
                else if c.absenceAllowed then ["ABSENCE_CLAIM_SCOPE_MISSING"] else ["ABSENCE_CLAIM_NOT_ESTABLISHED"])
  }

  function RunBlockers(run: Run): seq<Blocker> {
    seq(|run.blockers|, i requires 0 <= i < |run.blockers| => Blocker(run.blockers[i].code, false))
  }

  /** The run's own facts: nothing a client may claim is among them. */
  function FactsFrom(run: Run, a: SufficiencyAssessment, receipts: seq<Receipt>, supportUnsafe: bool, privacyDenied: bool): Facts {
    Facts(run.runId, a.workflowComplete, a.level, run.sourceIds, run.evidenceIds, Some(run.sourceIds), Some(run.evidenceIds),
          run.coverage.complete, !Requires(run, LegalTimeContext) || run.coverage.time, run.coverage.complete,
          run.evidenceIds != [], CounterGateOf(run), AbsenceGateOf(run), a.reasonCodes, [], [], RunBlockers(run), [], false,
          receipts, Some(receipts), supportUnsafe, privacyDenied)
  }

  ghost function AssessmentOf(upper: string -> string, run: Run): SufficiencyAssessment {
    SufficiencyAssessment(LevelOf(upper, run), ModeOf(run), WorkflowComplete(run), SortedSet(ReasonsOf(upper, run)),
                          if !WorkflowComplete(run) then PendingKinds(run.obligations) else [])
  }

  ghost function FactsOf(upper: string -> string, run: Run, receipts: seq<Receipt>, supportUnsafe: bool, privacyDenied: bool): Facts {
    FactsFrom(run, AssessmentOf(upper, run), receipts, supportUnsafe, privacyDenied)
  }

  ghost predicate RunUnique(run: Run) {
    Distinct(run.sourceIds) && Distinct(run.evidenceIds)
  }

  lemma RunFactsUnique(upper: string -> string, run: Run, receipts: seq<Receipt>, supportUnsafe: bool, privacyDenied: bool, now: int)
    ensures FactsUnique(FactsOf(upper, run, receipts, supportUnsafe, privacyDenied), now) <==> RunUnique(run)
  {
    hide ModeFor;
    hide LevelOf;
    hide ReasonsOf;
    hide CounterGateOf;
    hide AbsenceGateOf;
  }

  method BuildFromRun(digest: seq<string> -> string, upper: string -> string, run: Run, receipts: seq<Receipt>,
                      supportUnsafe: bool, privacyDenied: bool, now: int)
    returns (r: Result<Contract>)
    ensures r.Ok? <==> RunUnique(run) && FactsSized(FactsOf(upper, run, receipts, supportUnsafe, privacyDenied), now)
    ensures r.Ok? ==> PostureValid(r.value) && IsBuilt(digest, FactsOf(upper, run, receipts, supportUnsafe, privacyDenied), now, r.value)
    ensures r.Ok? ==> GatesOfRun(run, r.value.counter, r.value.absence)
  {
    GatesAreTheRuns(upper, run, receipts, supportUnsafe, privacyDenied);
    hide GatesOfRun;
    hide LevelOf;
    hide ModeOf;
    hide ReasonsOf;
    hide WorkflowComplete;
    hide FactsFrom;
    hide PostureValid;
    hide FactsUnique;
    hide FactsSized;
    hide RunUnique;
    RunFactsUnique(upper, run, receipts, supportUnsafe, privacyDenied, now);
    var assessment := EvaluateSufficiency(upper, run);
    r := BuildContract(digest, FactsFrom(run, assessment, receipts, supportUnsafe, privacyDenied), now);
    if r.Ok? {
      BuiltGates(digest, FactsOf(upper, run, receipts, supportUnsafe, privacyDenied), now, r.value);
    }
    hide IsBuilt;
  }

  lemma BuiltGates(digest: seq<string> -> string, f: Facts, now: int, c: Contract)
    requires IsBuilt(digest, f, now, c)
    ensures c.counter == f.counter && c.absence == f.absence
  {
  }

  /** What the two gates of a contract say of a run. An absence may be claimed when the run's coverage
      allows it and names a scope that is not blank; otherwise one code says which of the two is
      missing. Nobody has asked for an absence or a consensus. A required search for counter-authority
      is complete when it was made and was not cut short. */
  ghost predicate GatesOfRun(run: Run, counter: CounterGate, absence: AbsenceGate) {
    var c := run.coverage;
    var required := exists o | o in run.obligations :: o.required && o.kind == CounterAuthorityResearch;
    && !absence.requested && absence.scope == c.boundedScope
    && (absence.allowed <==> c.absenceAllowed && c.boundedScope.Some? && exists x | x in c.boundedScope.value :: x as int !in SPACES)
    && (absence.allowed <==> absence.reasonCodes == [])
    && (absence.reasonCodes == ["ABSENCE_CLAIM_NOT_ESTABLISHED"] <==> !c.absenceAllowed)
    && (absence.reasonCodes == ["ABSENCE_CLAIM_SCOPE_MISSING"] <==> c.absenceAllowed && !absence.allowed)
    && !counter.consensusRequested && !counter.consensusAllowed && counter.limitations == c.limitations
    && (counter.required <==> required)
    && (counter.coverageComplete <==>
          (required ==> c.counter && (c.counterComplete == Some(true) || (c.counterComplete == None && c.complete))))
  }

  lemma AbsenceCodesDiffer()
    ensures ["ABSENCE_CLAIM_SCOPE_MISSING"] != ["ABSENCE_CLAIM_NOT_ESTABLISHED"]
  {
    assert ["ABSENCE_CLAIM_SCOPE_MISSING"][0][14] != ["ABSENCE_CLAIM_NOT_ESTABLISHED"][0][14];
  }

  lemma GatesAreOfRun(run: Run)
    ensures GatesOfRun(run, CounterGateOf(run), AbsenceGateOf(run))
  {
    if run.coverage.boundedScope.Some? {
      BlankMeans(run.coverage.boundedScope.value);
    }
    hide Blank;
    AbsenceCodesDiffer();
  }

  lemma GatesAreTheRuns(upper: string -> string, run: Run, receipts: seq<Receipt>, supportUnsafe: bool, privacyDenied: bool)
    ensures var f := FactsOf(upper, run, receipts, supportUnsafe, privacyDenied); GatesOfRun(run, f.counter, f.absence)
  {
    GatesAreOfRun(run);
    hide GatesOfRun;
    hide CounterGateOf;
    hide AbsenceGateOf;
    hide AssessmentOf;
    hide RunBlockers;
    hide Requires;
  }

  // ----- Validation against one server-owned run ----------------------------------------

  datatype Server = Server(
    runId: string,
    sourceIds: seq<string>,
    evidenceIds: seq<string>,
    receipts: Option<seq<Receipt>>,
    run: Option<Run>)

  datatype Validation = Validation(
    valid: bool,
    mode: Mode,
    safeToDraft: bool,
    qualification: seq<string>,
    blockers: seq<Blocker>,
    retryable: bool,
    snapshot: Consistency)

  predicate Presentable(c: Contract) {
    !c.mode.RefusalOnly?
  }

  function ServerReceipts(s: Server): seq<Receipt> {
    if s.receipts.Some? then s.receipts.value else []
  }

  ghost function ServerFacts(upper: string -> string, s: Server): Facts
    requires s.run.Some?
  {
    FactsOf(upper, s.run.value, ServerReceipts(s), false, false)
  }

  /** The server's run can be built into a contract again. */
  ghost predicate Rebuildable(upper: string -> string, s: Server, now: int)
    requires s.run.Some?
  {
    RunUnique(s.run.value) && FactsSized(ServerFacts(upper, s), now)
  }

  ghost predicate IdentityBound(c: Contract, s: Server) {
    && c.runId == s.runId && c.draft.None?
    && Elems(c.sources) <= Elems(s.sourceIds) && Elems(c.evidence) <= Elems(s.evidenceIds)
    && Distinct(s.evidenceIds)
  }

  /** Something to present rests on at least one source and one span, on both sides. */
  predicate EvidencePresent(c: Contract, s: Server) {
    Presentable(c) ==> c.sources != [] && c.evidence != [] && s.sourceIds != [] && s.evidenceIds != []
  }

  ghost predicate SummaryBound(digest: seq<string> -> string, c: Contract, s: Server) {
    && (c.authorization.Some? ==> c.authorization.value == Summary(digest, s.evidenceIds) && c.evidence == Preview(s.evidenceIds))
    && (c.authorization.None? ==> |s.evidenceIds| <= 512)
  }

  /** The identifiers the contract carries are the server's, and its evidence summary is exact. */
  ghost predicate ReferencesBound(digest: seq<string> -> string, c: Contract, s: Server) {
    IdentityBound(c, s) && SummaryBound(digest, c, s) && EvidencePresent(c, s)
  }

  ghost predicate RunBound(s: Server)
    requires s.run.Some?
  {
    && s.run.value.runId == s.runId
    && Elems(s.run.value.sourceIds) == Elems(s.sourceIds) && Elems(s.run.value.evidenceIds) == Elems(s.evidenceIds)
  }

  ghost predicate ModeBound(upper: string -> string, c: Contract, s: Server, now: int)
    requires s.run.Some?
  {
    var f := ServerFacts(upper, s);
    && c.workflowComplete == f.workflowComplete && c.level == f.level
    && !ModeFor(f, now).RefusalOnly? && (c.mode.Ordinary? ==> ModeFor(f, now).Ordinary?)
  }

  ghost predicate GatesBound(upper: string -> string, c: Contract, s: Server, now: int)
    requires s.run.Some?
  {
    var f := ServerFacts(upper, s);
    QualificationsFor(f, now) <= Elems(c.qualification) && c.counter == f.counter && c.absence == f.absence
  }

  /** A presentable contract claims no more than the server's own rebuilt posture. */
  ghost predicate PostureBound(upper: string -> string, c: Contract, s: Server, now: int)
    requires s.run.Some?
  {
    ModeBound(upper, c, s, now) && GatesBound(upper, c, s, now)
  }

  ghost predicate OrdinaryGates(c: Contract, s: Server, now: int) {
    && c.workflowComplete && c.level.Sufficient? && c.qualification == []
    && c.pendingSupport == [] && c.pendingLookups == []
    && (c.counter.required ==> c.counter.coverageComplete)
    && (c.counter.consensusRequested ==> c.counter.consensusAllowed)
    && (c.absence.requested ==> c.absence.allowed)
    && StatusOf(c.receipts, s.receipts, now).Consistent?
  }

  /** Exactly what a contract has to meet to be valid for the server's run. */
  ghost predicate Admissible(digest: seq<string> -> string, upper: string -> string, c: Contract, s: Server, now: int) {
    && c.blockers == []
    && ReferencesBound(digest, c, s)
    && (s.run.Some? ==> RunBound(s) && (Presentable(c) ==> PostureBound(upper, c, s, now)))
    && (s.run.None? ==> !Presentable(c))
    && !StatusOf(c.receipts, s.receipts, now).ForeignReceipt? && !StatusOf(c.receipts, s.receipts, now).Mismatch?
    && (c.mode.Ordinary? ==> OrdinaryGates(c, s, now))
  }

  // ----- The codes of a validation ------------------------------------------------------

  ghost function IdentityCodes(c: Contract, s: Server): set<string> {
    (if c.runId != s.runId then {"FINALIZATION_RUN_NOT_SERVER_OWNED"} else {})
    + (if c.draft.Some? then {"FINALIZATION_DRAFT_NOT_ALLOWED"} else {})
    + (if Elems(c.sources) <= Elems(s.sourceIds) then {} else {"FINALIZATION_SOURCE_NOT_SERVER_OWNED"})
    + (if Elems(c.evidence) <= Elems(s.evidenceIds) then {} else {"FINALIZATION_EVIDENCE_NOT_SERVER_OWNED"})
    + (if Distinct(s.evidenceIds) then {} else {"FINALIZATION_SERVER_EVIDENCE_FACTS_INVALID"})
  }

  ghost function ReferenceCodes(digest: seq<string> -> string, c: Contract, s: Server): set<string> {
    IdentityCodes(c, s) + SummaryCodes(digest, c, s) + if EvidencePresent(c, s) then {} else {"FINALIZATION_SERVER_EVIDENCE_REQUIRED"}
  }

  ghost function SummaryCodes(digest: seq<string> -> string, c: Contract, s: Server): set<string> {
    if c.authorization.None? then
      if |s.evidenceIds| > 512 then {"FINALIZATION_EVIDENCE_SET_SUMMARY_REQUIRED"} else {}
    else
      (if Distinct(s.evidenceIds) && c.authorization.value == Summary(digest, s.evidenceIds) then {}
       else {"FINALIZATION_EVIDENCE_SET_MISMATCH"})
      + (if c.evidence == Preview(Dedupe(s.evidenceIds)) then {} else {"FINALIZATION_EVIDENCE_PREVIEW_MISMATCH"})
  }

  ghost function RunCodes(s: Server, run: Run): set<string> {
    (if run.runId != s.runId then {"FINALIZATION_SERVER_RUN_FACTS_MISMATCH"} else {})
    + (if Elems(run.sourceIds) != Elems(s.sourceIds) then {"FINALIZATION_SERVER_SOURCE_FACTS_MISMATCH"} else {})
    + (if Elems(run.evidenceIds) != Elems(s.evidenceIds) then {"FINALIZATION_SERVER_EVIDENCE_FACTS_MISMATCH"} else {})
  }

  ghost function ModeCodes(upper: string -> string, c: Contract, s: Server, now: int): set<string>
    requires s.run.Some?
  {
    var f := ServerFacts(upper, s);
    (if c.workflowComplete != f.workflowComplete then {"FINALIZATION_WORKFLOW_FACTS_MISMATCH"} else {})
    + (if c.level != f.level then {"FINALIZATION_SUFFICIENCY_FACTS_MISMATCH"} else {})
    + (if ModeFor(f, now).RefusalOnly? then {"FINALIZATION_SERVER_REFUSAL"}
       else if c.mode.Ordinary? && !ModeFor(f, now).Ordinary? then {"FINALIZATION_SERVER_POSTURE_NOT_ORDINARY"} else {})
  }

  ghost function GateCodes(upper: string -> string, c: Contract, s: Server, now: int): set<string>
    requires s.run.Some?
  {
    var f := ServerFacts(upper, s);
    (if QualificationsFor(f, now) <= Elems(c.qualification) then {} else {"FINALIZATION_SERVER_QUALIFICATION_MISSING"})
    + (if c.counter != f.counter then {"FINALIZATION_COUNTER_GATE_NOT_SERVER_OWNED"} else {})
    + (if c.absence != f.absence then {"FINALIZATION_ABSENCE_GATE_NOT_SERVER_OWNED"} else {})
  }

  ghost function PostureCodes(upper: string -> string, c: Contract, s: Server, now: int): set<string>
    requires s.run.Some?
  {
    ModeCodes(upper, c, s, now) + GateCodes(upper, c, s, now)
  }

  ghost function FactCodes(upper: string -> string, c: Contract, s: Server, now: int): set<string> {
    if s.run.None? then (if Presentable(c) then {"FINALIZATION_SERVER_FACTS_REQUIRED"} else {})
    else RunCodes(s, s.run.value) + if Presentable(c) then PostureCodes(upper, c, s, now) else {}
  }

  ghost function SnapshotCodes(c: Contract, s: Server, now: int): set<string> {
    var status := StatusOf(c.receipts, s.receipts, now);
    (if status.ForeignReceipt? then {"SNAPSHOT_RECEIPT_NOT_SERVER_OWNED"}
     else if status.Mismatch? then {"SNAPSHOT_RECEIPT_MISMATCH"} else {})
    + (if c.mode.Ordinary? && !OrdinaryGates(c, s, now) then {"ORDINARY_GATE_NOT_SATISFIED"} else {})
  }

  method IdentityBlockers(c: Contract, s: Server) returns (blockers: seq<Blocker>)
    ensures blockers == [] <==> c.blockers == [] && IdentityBound(c, s)
    ensures Codes(blockers) == Codes(c.blockers) + IdentityCodes(c, s)
    ensures NoRetry(c.blockers, blockers)
  {
    var unique := AllUnique(s.evidenceIds);
    hide Codes;
    hide Elems;
    hide AllUnique;
    hide Distinct;
    hide AddBlocker;
    hide Repeats;
    blockers := AddBlocker(c.blockers, c.runId != s.runId, "FINALIZATION_RUN_NOT_SERVER_OWNED", false);
    blockers := AddBlocker(blockers, c.draft.Some?, "FINALIZATION_DRAFT_NOT_ALLOWED", false);
    blockers := AddBlocker(blockers, !(Elems(c.sources) <= Elems(s.sourceIds)), "FINALIZATION_SOURCE_NOT_SERVER_OWNED", false);
    blockers := AddBlocker(blockers, !(Elems(c.evidence) <= Elems(s.evidenceIds)), "FINALIZATION_EVIDENCE_NOT_SERVER_OWNED", false);
    blockers := AddBlocker(blockers, !unique, "FINALIZATION_SERVER_EVIDENCE_FACTS_INVALID", false);
  }

  method SummaryBlockers(digest: seq<string> -> string, c: Contract, s: Server, blockers0: seq<Blocker>) returns (blockers: seq<Blocker>)
    ensures Distinct(s.evidenceIds) ==> (blockers == [] <==> blockers0 == [] && SummaryBound(digest, c, s))
    ensures blockers == [] ==> blockers0 == []
    ensures Codes(blockers) == Codes(blockers0) + SummaryCodes(digest, c, s)
    ensures NoRetry(blockers0, blockers)
  {
    var unique := AllUnique(s.evidenceIds);
    DedupeKeeps(s.evidenceIds);
    hide Codes;
    hide Elems;
    hide AllUnique;
    hide Distinct;
    hide Dedupe;
    hide Sort;
    hide Summary;
    hide Preview;
    hide AddBlocker;
    hide Repeats;
    if c.authorization.Some? {
      blockers := AddBlocker(blockers0, !unique || c.authorization.value != Summary(digest, Dedupe(s.evidenceIds)),
                             "FINALIZATION_EVIDENCE_SET_MISMATCH", false);
      blockers := AddBlocker(blockers, c.evidence != Preview(Dedupe(s.evidenceIds)), "FINALIZATION_EVIDENCE_PREVIEW_MISMATCH", false);
    } else {
      blockers := AddBlocker(blockers0, |s.evidenceIds| > MAX_EVIDENCE_PREVIEW, "FINALIZATION_EVIDENCE_SET_SUMMARY_REQUIRED", false);
    }
  }

  method ReferenceBlockers(digest: seq<string> -> string, c: Contract, s: Server) returns (blockers: seq<Blocker>)
    ensures blockers == [] <==> c.blockers == [] && ReferencesBound(digest, c, s)
    ensures Codes(blockers) == Codes(c.blockers) + ReferenceCodes(digest, c, s)
    ensures NoRetry(c.blockers, blockers)
  {
    assert IdentityBound(c, s) ==> Distinct(s.evidenceIds);
    hide Codes;
    hide IdentityCodes;
    hide SummaryCodes;
    hide IdentityBound;
    hide SummaryBound;
    hide Elems;
    hide Distinct;
    hide AddBlocker;
    hide Repeats;
    hide EvidencePresent;
    blockers := IdentityBlockers(c, s);
    blockers := SummaryBlockers(digest, c, s, blockers);
    blockers := PresenceBlockers(c, s, blockers);
  }

  method PresenceBlockers(c: Contract, s: Server, blockers0: seq<Blocker>) returns (blockers: seq<Blocker>)
    ensures blockers == [] <==> blockers0 == [] && EvidencePresent(c, s)
    ensures Codes(blockers) == Codes(blockers0) + if EvidencePresent(c, s) then {} else {"FINALIZATION_SERVER_EVIDENCE_REQUIRED"}
    ensures NoRetry(blockers0, blockers)
  {
    hide Codes;
    hide AddBlocker;
    hide Repeats;
    blockers := blockers0;
    if Presentable(c) {
      blockers := AddBlocker(blockers, c.sources == [] || c.evidence == [], "FINALIZATION_SERVER_EVIDENCE_REQUIRED", false);
      blockers := AddBlocker(blockers, s.sourceIds == [] || s.evidenceIds == [], "FINALIZATION_SERVER_EVIDENCE_REQUIRED", false);
    }
  }

  method RunFactBlockers(s: Server, run: Run, blockers0: seq<Blocker>) returns (blockers: seq<Blocker>)
    requires s.run == Some(run)
    ensures blockers == [] <==> blockers0 == [] && RunBound(s)
    ensures Codes(blockers) == Codes(blockers0) + RunCodes(s, run)
    ensures NoRetry(blockers0, blockers)
  {
    hide Codes;
    hide Elems;
    hide AddBlocker;
    hide Repeats;
    blockers := AddBlocker(blockers0, run.runId != s.runId, "FINALIZATION_SERVER_RUN_FACTS_MISMATCH", false);
    blockers := AddBlocker(blockers, Elems(run.sourceIds) != Elems(s.sourceIds), "FINALIZATION_SERVER_SOURCE_FACTS_MISMATCH", false);
    blockers := AddBlocker(blockers, Elems(run.evidenceIds) != Elems(s.evidenceIds), "FINALIZATION_SERVER_EVIDENCE_FACTS_MISMATCH", false);
  }

  /** What of the rebuilt contract the caller's posture is compared with. */
  ghost predicate Rebuilt(upper: string -> string, s: Server, now: int, server: Contract)
    requires s.run.Some?
  {
    var f := ServerFacts(upper, s);
    && server.workflowComplete == f.workflowComplete && server.level == f.level && server.mode == ModeFor(f, now)
    && Elems(server.qualification) == QualificationsFor(f, now) && server.counter == f.counter && server.absence == f.absence
  }

  method ModeBlockers(upper: string -> string, c: Contract, s: Server, now: int, server: Contract, blockers0: seq<Blocker>)
    returns (blockers: seq<Blocker>)
    requires s.run.Some? && Rebuilt(upper, s, now, server)
    ensures blockers == [] <==> blockers0 == [] && ModeBound(upper, c, s, now)
    ensures Codes(blockers) == Codes(blockers0) + ModeCodes(upper, c, s, now)
    ensures NoRetry(blockers0, blockers)
  {
    hide Codes;
    hide Elems;
    hide AddBlocker;
    hide Repeats;
    hide ServerFacts;
    hide ModeFor;
    hide QualificationsFor;
    blockers := AddBlocker(blockers0, c.workflowComplete != server.workflowComplete, "FINALIZATION_WORKFLOW_FACTS_MISMATCH", false);
    blockers := AddBlocker(blockers, c.level != server.level, "FINALIZATION_SUFFICIENCY_FACTS_MISMATCH", false);
    if server.mode.RefusalOnly? {
      blockers := AddBlocker(blockers, true, "FINALIZATION_SERVER_REFUSAL", false);
    } else if c.mode.Ordinary? && !server.mode.Ordinary? {
      blockers := AddBlocker(blockers, true, "FINALIZATION_SERVER_POSTURE_NOT_ORDINARY", false);
    }
  }

  method GateBlockers(upper: string -> string, c: Contract, s: Server, now: int, server: Contract, blockers0: seq<Blocker>)
    returns (blockers: seq<Blocker>)
    requires s.run.Some? && Rebuilt(upper, s, now, server)
    ensures blockers == [] <==> blockers0 == [] && GatesBound(upper, c, s, now)
    ensures Codes(blockers) == Codes(blockers0) + GateCodes(upper, c, s, now)
    ensures NoRetry(blockers0, blockers)
  {
    DifferenceEmpty(Elems(server.qualification), Elems(c.qualification));
    hide Codes;
    hide Elems;
    hide AddBlocker;
    hide Repeats;
    hide ServerFacts;
    hide ModeFor;
    hide QualificationsFor;
    blockers := AddBlocker(blockers0, Elems(server.qualification) - Elems(c.qualification) != {}, "FINALIZATION_SERVER_QUALIFICATION_MISSING", false);
    blockers := AddBlocker(blockers, c.counter != server.counter, "FINALIZATION_COUNTER_GATE_NOT_SERVER_OWNED", false);
    blockers := AddBlocker(blockers, c.absence != server.absence, "FINALIZATION_ABSENCE_GATE_NOT_SERVER_OWNED", false);
  }

  lemma BuiltIsRebuilt(digest: seq<string> -> string, upper: string -> string, s: Server, now: int, server: Contract)
    requires s.run.Some? && IsBuilt(digest, ServerFacts(upper, s), now, server)
    ensures Rebuilt(upper, s, now, server)
  {
    hide ServerFacts;
    hide ModeFor;
    hide QualificationsFor;
    hide Elems;
    hide StatusOf;
    hide Blocking;
    hide Codes;
    hide BlockerCodes;
    hide Preview;
    hide Summary;
  }

  /** The contract is compared with the server's run and with the posture rebuilt from it. */
  method FactBlockers(digest: seq<string> -> string, upper: string -> string, c: Contract, s: Server, now: int, blockers0: seq<Blocker>)
    returns (r: Result<seq<Blocker>>)
    ensures r.Ok? <==> (s.run.Some? ==> Rebuildable(upper, s, now))
    ensures r.Ok? ==>
              (r.value == [] <==>
                 && blockers0 == []
                 && (s.run.Some? ==> RunBound(s) && (Presentable(c) ==> PostureBound(upper, c, s, now)))
                 && (s.run.None? ==> !Presentable(c)))
    ensures r.Ok? ==> Codes(r.value) == Codes(blockers0) + FactCodes(upper, c, s, now)
    ensures r.Ok? ==> NoRetry(blockers0, r.value)
  {
    hide Codes;
    hide RunCodes;
    hide ModeCodes;
    hide GateCodes;
    hide ModeBound;
    hide GatesBound;
    hide RunBound;
    hide RunUnique;
    hide FactsSized;
    hide PostureValid;
    hide AddBlocker;
    hide Repeats;
    hide Rebuilt;
    hide IsBuilt;
    hide FactsOf;
    if s.run.None? {
      return Ok(AddBlocker(blockers0, Presentable(c), "FINALIZATION_SERVER_FACTS_REQUIRED", false));
    }
    var run := s.run.value;
    var blockers := RunFactBlockers(s, run, blockers0);
    var rebuilt := BuildFromRun(digest, upper, run, ServerReceipts(s), false, false, now);
    if rebuilt.Err? {
      return Err(rebuilt.error);
    }
    BuiltIsRebuilt(digest, upper, s, now, rebuilt.value);
    if Presentable(c) {
      blockers := ModeBlockers(upper, c, s, now, rebuilt.value, blockers);
      blockers := GateBlockers(upper, c, s, now, rebuilt.value, blockers);
    }
    r := Ok(blockers);
  }

  lemma CodesCons(b: Blocker, rest: seq<Blocker>)
    ensures Codes([b] + rest) == {b.code} + Codes(rest)
  {
    assert b in [b] + rest;
    assert forall x | x in rest :: x in [b] + rest;
  }

  /** A later blocker takes the place of an earlier one with the same code. */
  function PutBlocker(blockers: seq<Blocker>, b: Blocker): (r: seq<Blocker>)
    ensures r != [] && Codes(r) == Codes(blockers) + {b.code}
  {
    if blockers == [] then CodesCons(b, []); [b]
    else
      var first, rest := blockers[0], blockers[1..];
      CodesCons(first, rest);
      CodesCons(b, rest);
      CodesCons(first, PutBlocker(rest, b));
      assert blockers == [first] + rest;
      hide Codes;
      if first.code == b.code then [b] + rest else [first] + PutBlocker(rest, b)
  }

  /** One blocker for each code. */
  function UniqueBlockers(blockers: seq<Blocker>): (r: seq<Blocker>)
    ensures Codes(r) == Codes(blockers) && (r == [] <==> blockers == [])
  {
    if blockers == [] then []
    else
      assert blockers == blockers[..|blockers| - 1] + [blockers[|blockers| - 1]];
      CodesAppend(blockers[..|blockers| - 1], blockers[|blockers| - 1]);
      PutBlocker(UniqueBlockers(blockers[..|blockers| - 1]), blockers[|blockers| - 1])
  }

  ghost predicate OnePerCode(blockers: seq<Blocker>) {
    forall i, j | 0 <= i < j < |blockers| :: blockers[i].code != blockers[j].code
  }

  /** The last blocker with its code. */
  ghost predicate LastOfCode(blockers: seq<Blocker>, b: Blocker) {
    exists i | 0 <= i < |blockers| :: blockers[i] == b && forall j | i < j < |blockers| :: blockers[j].code != b.code
  }

  lemma {:induction false} PutBlockerReplaces(blockers: seq<Blocker>, b: Blocker)
    requires OnePerCode(blockers)
    ensures OnePerCode(PutBlocker(blockers, b))
    ensures forall x :: x in PutBlocker(blockers, b) <==> x == b || (x in blockers && x.code != b.code)
  {
    if blockers != [] {
      var first, rest := blockers[0], blockers[1..];
      assert blockers == [first] + rest;
      PutBlockerReplaces(rest, b);
      if first.code == b.code {
        forall x | x in rest
          ensures x.code != b.code
        {
          var j :| 0 <= j < |rest| && rest[j] == x;
          assert blockers[j + 1] == x;
        }
        assert PutBlocker(blockers, b) == [b] + rest;
      } else {
        var more := PutBlocker(rest, b);
        assert PutBlocker(blockers, b) == [first] + more;
        forall j | 0 <= j < |more|
          ensures more[j].code != first.code
        {
          assert more[j] in more;
          if more[j] in rest {
            var k :| 0 <= k < |rest| && rest[k] == more[j];
            assert blockers[k + 1] == more[j];
          }
        }
      }
    }
  }

  lemma LastOfMore(blockers: seq<Blocker>, last: Blocker)
    ensures forall b :: LastOfCode(blockers + [last], b) <==> b == last || (LastOfCode(blockers, b) && b.code != last.code)
  {
    var all := blockers + [last];
    forall b
      ensures LastOfCode(all, b) <==> b == last || (LastOfCode(blockers, b) && b.code != last.code)
    {
      if b == last {
        assert all[|blockers|] == b;
      }
      if LastOfCode(blockers, b) && b.code != last.code {
        var i :| 0 <= i < |blockers| && blockers[i] == b && forall j | i < j < |blockers| :: blockers[j].code != b.code;
        assert all[i] == b;
      }
      if LastOfCode(all, b) && b != last {
        var i :| 0 <= i < |all| && all[i] == b && forall j | i < j < |all| :: all[j].code != b.code;
        assert all[|blockers|].code != b.code && blockers[i] == b;
        assert forall j | i < j < |blockers| :: blockers[j] == all[j];
      }
    }
  }

  /** Of the blockers with one code exactly the last is kept. */
  lemma {:induction false} LastBlockersAreKept(blockers: seq<Blocker>)
    ensures OnePerCode(UniqueBlockers(blockers))
    ensures forall b :: b in UniqueBlockers(blockers) <==> LastOfCode(blockers, b)
  {
    hide Codes;
    if blockers != [] {
      hide LastOfCode;
      var rest, last := blockers[..|blockers| - 1], blockers[|blockers| - 1];
      LastBlockersAreKept(rest);
      PutBlockerReplaces(UniqueBlockers(rest), last);
      LastOfMore(rest, last);
      assert blockers == rest + [last];
      hide PutBlocker;
    }
  }

  method SnapshotBlockers(c: Contract, s: Server, now: int, snapshot: Consistency, blockers0: seq<Blocker>) returns (blockers: seq<Blocker>)
    requires snapshot == StatusOf(c.receipts, s.receipts, now)
    ensures blockers == [] <==>
              && blockers0 == [] && !snapshot.ForeignReceipt? && !snapshot.Mismatch?
              && (c.mode.Ordinary? ==> OrdinaryGates(c, s, now))
    ensures Codes(blockers) == Codes(blockers0) + SnapshotCodes(c, s, now)
    ensures NoRetry(blockers0, blockers)
  {
    hide Codes;
    hide StatusOf;
    hide AddBlocker;
    hide Repeats;
    blockers := blockers0;
    if snapshot.ForeignReceipt? {
      blockers := AddBlocker(blockers, true, "SNAPSHOT_RECEIPT_NOT_SERVER_OWNED", false);
    } else if snapshot.Mismatch? {
      blockers := AddBlocker(blockers, true, "SNAPSHOT_RECEIPT_MISMATCH", false);
    }
    if c.mode.Ordinary? {
      var gates :=
        && c.workflowComplete && c.level.Sufficient? && c.qualification == [] && c.pendingSupport == [] && c.pendingLookups == []
        && (!c.counter.required || c.counter.coverageComplete)
        && (!c.counter.consensusRequested || c.counter.consensusAllowed)
        && (!c.absence.requested || c.absence.allowed) && snapshot.Consistent?;
      blockers := AddBlocker(blockers, !gates, "ORDINARY_GATE_NOT_SATISFIED", false);
    }
  }

  /** Binds any contract, however it was made, to one server-owned run. It only fails when the
      server's own run cannot be rebuilt into a contract. */
  method ValidateFinalization(digest: seq<string> -> string, upper: string -> string, c: Contract, s: Server, now: int)
    returns (r: Result<Validation>)
    ensures r.Ok? <==> (s.run.Some? ==> Rebuildable(upper, s, now))
    ensures r.Ok? ==> (r.value.valid <==> Admissible(digest, upper, c, s, now))
    ensures r.Ok? ==> (r.value.safeToDraft <==> r.value.valid && Presentable(c))
    ensures r.Ok? ==> r.value.mode == if r.value.valid then c.mode else RefusalOnly
    ensures r.Ok? ==> (r.value.blockers == [] <==> r.value.valid) && OnePerCode(r.value.blockers)
    ensures r.Ok? ==> Codes(r.value.blockers) == Codes(c.blockers) + ReferenceCodes(digest, c, s) + FactCodes(upper, c, s, now) + SnapshotCodes(c, s, now)
    ensures r.Ok? ==>
              r.value.qualification == c.qualification
                + if r.value.snapshot.LegacyNoReceipt? && "SNAPSHOT_RECEIPT_MISSING_LEGACY" !in c.qualification then [QUALIFY_UNRECEIPTED] else []
    ensures r.Ok? ==> (r.value.retryable <==> c.retryable || exists b | b in r.value.blockers :: b.retryable)
    ensures r.Ok? ==> NoRetry(c.blockers, r.value.blockers)
    ensures r.Ok? ==> r.value.snapshot == StatusOf(c.receipts, s.receipts, now)
  {
    hide ReferencesBound;
    hide RunBound;
    hide PostureBound;
    hide OrdinaryGates;
    hide StatusOf;
    hide Rebuildable;
    hide Codes;
    hide ReferenceCodes;
    hide FactCodes;
    hide SnapshotCodes;
    var blockers := ReferenceBlockers(digest, c, s);
    var facts := FactBlockers(digest, upper, c, s, now, blockers);
    if facts.Err? {
      return Err(facts.error);
    }
    var snapshot := AssessSnapshotConsistency(c.receipts, s.receipts, now);
    var qualification := c.qualification;
    if snapshot.status.LegacyNoReceipt? && "SNAPSHOT_RECEIPT_MISSING_LEGACY" !in qualification {
      qualification := qualification + [QUALIFY_UNRECEIPTED];
    }
    blockers := SnapshotBlockers(c, s, now, snapshot.status, facts.value);
    var mode := if blockers != [] || c.mode.RefusalOnly? then RefusalOnly else c.mode;
    hide UniqueBlockers;
    LastBlockersAreKept(blockers);
    hide OnePerCode;
    var unique := UniqueBlockers(blockers);
    r := Ok(Validation(unique == [], mode, !mode.RefusalOnly?, qualification, unique,
                       c.retryable || exists b | b in unique :: b.retryable, snapshot.status));
  }
}
