/** Assessing the snapshot receipts supplied for one run against the server's own receipts. */
module Snapshot {
  import opened Collections

  datatype ReceiptStatus = VerifiedReceipt | UnknownReceipt | StaleReceipt | InconsistentReceipt

  /** Two receipts are equal exactly when their complete signatures are. */
  datatype Receipt = Receipt(
    receiptId: string,
    provider: string,
    snapshot: string,
    generation: string,
    status: ReceiptStatus,
    issuedAt: int,
    expiresAt: Option<int>,
    digest: Option<string>,
    issuer: string,
    serverOwned: bool)
  {
    /** Usable now: verified, not issued in the future, not expired. */
    predicate Current(now: int) {
      status.VerifiedReceipt? && issuedAt <= now && (expiresAt.None? || expiresAt.value > now)
    }
  }

  datatype Consistency = Consistent | LegacyNoReceipt | Mismatch | ForeignReceipt

  datatype Reason =
    | MissingLegacy
    | IdDuplicated(server: bool)
    | NotCurrent(server: bool)
    | GenerationMismatch(server: bool)
    | BindingRequired
    | NotServerOwned
    | SetMismatch
    | ServerSetMissing
    | ServerSetExtra
  {
    predicate BreaksBinding() {
      BindingRequired? || NotServerOwned? || SetMismatch? || ServerSetMissing? || ServerSetExtra?
    }
  }

  datatype Assessment = Assessment(
    status: Consistency,
    consistent: bool,
    receiptCount: nat,
    reasons: set<Reason>,
    generations: map<string, string>)

  // ----- What one receipt list says -----------------------------------------------------

  function ReceiptIds(values: seq<Receipt>): seq<string> {
    seq(|values|, i requires 0 <= i < |values| => values[i].receiptId)
  }

  predicate AllCurrent(values: seq<Receipt>, now: int) {
    forall r | r in values :: r.Current(now)
  }

  /** Each provider appears with one snapshot and generation only. */
  predicate OneGeneration(values: seq<Receipt>) {
    forall a, b | a in values && b in values && a.provider == b.provider ::
      a.snapshot == b.snapshot && a.generation == b.generation
  }

  ghost function ScopeReasons(values: seq<Receipt>, now: int, server: bool): set<Reason> {
    (if Distinct(ReceiptIds(values)) then {} else {IdDuplicated(server)})
    + (if AllCurrent(values, now) then {} else {NotCurrent(server)})
    + (if OneGeneration(values) then {} else {GenerationMismatch(server)})
  }

  /** The generation of the first receipt of each provider. */
  function Generations(values: seq<Receipt>): map<string, string> {
    if values == [] then map[]
    else
      var last, before := values[|values| - 1], Generations(values[..|values| - 1]);
      if last.provider in before then before else before[last.provider := last.generation]
  }

  function PairsOf(values: seq<Receipt>, provider: string): set<(string, string)> {
    set r | r in values && r.provider == provider :: (r.snapshot, r.generation)
  }

  lemma ManyPairs(pairs: set<(string, string)>)
    ensures |pairs| > 1 <==> exists a, b | a in pairs && b in pairs :: a != b
  {
    if |pairs| > 1 {
      var a :| a in pairs;
      assert |pairs - {a}| > 0;
      var b :| b in pairs - {a};
      assert a in pairs && b in pairs && a != b;
    } else {
      forall a, b | a in pairs && b in pairs
        ensures a == b
      {
        SubsetCardinality({a, b}, pairs);
      }
    }
  }

  lemma PairsDecide(values: seq<Receipt>)
    ensures OneGeneration(values) <==> forall r | r in values :: |PairsOf(values, r.provider)| <= 1
  {
    forall r | r in values
      ensures |PairsOf(values, r.provider)| <= 1 <==>
                forall b | b in values && b.provider == r.provider ::
                  forall c | c in values && c.provider == r.provider :: (b.snapshot, b.generation) == (c.snapshot, c.generation)
    {
      var pairs := PairsOf(values, r.provider);
      ManyPairs(pairs);
      if |pairs| <= 1 {
        forall b, c | b in values && b.provider == r.provider && c in values && c.provider == r.provider
          ensures (b.snapshot, b.generation) == (c.snapshot, c.generation)
        {
          assert (b.snapshot, b.generation) in pairs && (c.snapshot, c.generation) in pairs;
        }
      }
    }
  }

  /** Adds to the reasons what the receipt list itself shows, and reads off the generations. */
  method AppendScopeDiagnostics(values: seq<Receipt>, reasons0: seq<Reason>, now: int, server: bool)
    returns (reasons: seq<Reason>, generations: map<string, string>)
    ensures Elems(reasons) == Elems(reasons0) + ScopeReasons(values, now, server)
    ensures generations == Generations(values)
  {
    reasons := reasons0;
    hide Elems;
    hide Records;
    hide AllCurrent;
    hide PairsFor;
    hide OneGeneration;
    hide ScopeReasons;
    var unique := AllUnique(ReceiptIds(values));
    hide Distinct;
    hide AllUnique;
    reasons := Record(reasons, IdDuplicated(server), unique);
    ghost var reasons1 := reasons;
    generations := map[];
    var pairs: map<string, set<(string, string)>> := map[];
    NothingYet(reasons, NotCurrent(server), now);
    for i := 0 to |values|
      invariant Records(reasons, reasons1, NotCurrent(server), AllCurrent(values[..i], now))
      invariant generations == Generations(values[..i])
      invariant PairsFor(values[..i], pairs)
    {
      var item := values[i];
      var pair := (item.snapshot, item.generation);
      assert values[..i + 1] == values[..i] + [item];
      assert values[..i + 1][..i] == values[..i];
      CurrentAppend(values[..i], item, now);
      PairsForAppend(values[..i], item, pairs);
      RecordsAgain(reasons, reasons1, NotCurrent(server), AllCurrent(values[..i], now));
      if !item.Current(now) {
        reasons := reasons + [NotCurrent(server)];
      }
      pairs := pairs[item.provider := (if item.provider in pairs then pairs[item.provider] else {}) + {pair}];
      generations := if item.provider in generations then generations else generations[item.provider := item.generation];
    }
    assert values[..|values|] == values;
    PairsForDecides(values, pairs);
    ghost var reasons2 := reasons;
    reasons := Record(reasons, GenerationMismatch(server), !exists p | p in pairs :: |pairs[p]| > 1);
    ScopeRecorded(values, now, server, reasons0, reasons1, reasons2, reasons);
  }

  /** The later reasons are the earlier ones, and the code unless its check was clean. */
  ghost predicate Records(later: seq<Reason>, earlier: seq<Reason>, code: Reason, clean: bool) {
    Elems(later) == Elems(earlier) + if clean then {} else {code}
  }

  lemma RecordsAgain(later: seq<Reason>, earlier: seq<Reason>, code: Reason, clean: bool)
    requires Records(later, earlier, code, clean)
    ensures Records(later + [code], earlier, code, false)
  {
    ElemsAppend(later, code);
  }

  function Record(reasons: seq<Reason>, code: Reason, clean: bool): (r: seq<Reason>)
    ensures Records(r, reasons, code, clean)
  {
    ElemsAppend(reasons, code);
    if clean then reasons else reasons + [code]
  }

  lemma ScopeRecorded(values: seq<Receipt>, now: int, server: bool, r0: seq<Reason>, r1: seq<Reason>, r2: seq<Reason>, r3: seq<Reason>)
    requires Records(r1, r0, IdDuplicated(server), Distinct(ReceiptIds(values)))
    requires Records(r2, r1, NotCurrent(server), AllCurrent(values, now))
    requires Records(r3, r2, GenerationMismatch(server), OneGeneration(values))
    ensures Elems(r3) == Elems(r0) + ScopeReasons(values, now, server)
  {
    hide Elems;
    hide Distinct;
    hide AllCurrent;
    hide OneGeneration;
  }

  lemma NothingYet(reasons: seq<Reason>, code: Reason, now: int)
    ensures AllCurrent([], now) && PairsFor([], map[]) && Records(reasons, reasons, code, true)
  {
  }

  lemma CurrentAppend(values: seq<Receipt>, last: Receipt, now: int)
    ensures AllCurrent(values + [last], now) <==> AllCurrent(values, now) && last.Current(now)
  {
    assert last in values + [last];
    assert forall r | r in values :: r in values + [last];
  }

  /** The snapshot and generation pairs seen so far, by provider. */
  ghost predicate PairsFor(values: seq<Receipt>, pairs: map<string, set<(string, string)>>) {
    && (forall p :: p in pairs <==> exists r :: r in values && r.provider == p)
    && (forall p | p in pairs :: pairs[p] == PairsOf(values, p))
  }

  lemma PairsForAppend(values: seq<Receipt>, last: Receipt, pairs: map<string, set<(string, string)>>)
    requires PairsFor(values, pairs)
    ensures PairsFor(values + [last],
                     pairs[last.provider := (if last.provider in pairs then pairs[last.provider] else {}) + {(last.snapshot, last.generation)}])
  {
    PairsAppend(values, last);
    hide PairsOf;
    assert last in values + [last];
    assert forall r | r in values :: r in values + [last];
  }

  lemma PairsForDecides(values: seq<Receipt>, pairs: map<string, set<(string, string)>>)
    requires PairsFor(values, pairs)
    ensures (exists p | p in pairs :: |pairs[p]| > 1) <==> !OneGeneration(values)
  {
    PairsDecide(values);
    hide OneGeneration;
    hide PairsOf;
    if !OneGeneration(values) {
      var r :| r in values && |PairsOf(values, r.provider)| > 1;
      assert r.provider in pairs;
    }
  }

  lemma PairsAppend(values: seq<Receipt>, last: Receipt)
    ensures forall p :: PairsOf(values + [last], p) ==
                          if p == last.provider then PairsOf(values, p) + {(last.snapshot, last.generation)} else PairsOf(values, p)
    ensures (forall r | r in values :: r.provider != last.provider) ==> PairsOf(values, last.provider) == {}
  {
    forall p
      ensures PairsOf(values + [last], p) ==
                if p == last.provider then PairsOf(values, p) + {(last.snapshot, last.generation)} else PairsOf(values, p)
    {
    }
  }

  // ----- The server's receipts ----------------------------------------------------------

  /** The server's receipts by id; a later receipt replaces an earlier one. */
  function ById(server: seq<Receipt>): map<string, Receipt> {
    if server == [] then map[] else ById(server[..|server| - 1])[server[|server| - 1].receiptId := server[|server| - 1]]
  }

  /** Two different server receipts share an id. */
  ghost predicate Ambiguous(server: seq<Receipt>) {
    exists a, b :: a in server && b in server && a.receiptId == b.receiptId && a != b
  }

  lemma {:induction false} ByIdIs(server: seq<Receipt>)
    ensures forall id :: id in ById(server) <==> exists r :: r in server && r.receiptId == id
    ensures forall id | id in ById(server) :: ById(server)[id] in server && ById(server)[id].receiptId == id
  {
    if server != [] {
      ByIdIs(server[..|server| - 1]);
      assert server == server[..|server| - 1] + [server[|server| - 1]];
    }
  }

  ghost predicate Permutes(a: seq<Receipt>, b: seq<Receipt>) {
    multiset(a) == multiset(b)
  }

  ghost predicate Owned(values: seq<Receipt>, server: seq<Receipt>) {
    forall r | r in values :: r.receiptId in ById(server) && ById(server)[r.receiptId] == r
  }

  /** Among permutations of the server's list, exactly an unambiguous list is owned throughout. */
  lemma OwnedDecides(values: seq<Receipt>, server: seq<Receipt>)
    requires multiset(values) == multiset(server)
    ensures Owned(values, server) <==> !Ambiguous(server)
  {
    ByIdIs(server);
    MembersAgree(values, server);
    if !Owned(values, server) {
      var r :| r in values && !(r.receiptId in ById(server) && ById(server)[r.receiptId] == r);
      assert r in server && ById(server)[r.receiptId] in server;
    }
  }

  lemma MembersAgree(a: seq<Receipt>, b: seq<Receipt>)
    requires multiset(a) == multiset(b)
    ensures |a| == |b| && forall r :: r in a <==> r in b
  {
    assert |multiset(a)| == |a| && |multiset(b)| == |b|;
    forall r
      ensures r in a <==> r in b
    {
      assert r in a <==> r in multiset(a);
      assert r in b <==> r in multiset(b);
    }
  }

  ghost function BindingReasons(values: seq<Receipt>, server: Option<seq<Receipt>>): set<Reason> {
    if server.None? then {BindingRequired}
    else
      (if Owned(values, server.value) then {} else {NotServerOwned})
      + (if multiset(values) == multiset(server.value) then {} else {SetMismatch})
      + (if multiset(server.value) <= multiset(values) then {} else {ServerSetMissing})
      + (if multiset(values) <= multiset(server.value) then {} else {ServerSetExtra})
  }

  ghost function Reasons(values: seq<Receipt>, server: Option<seq<Receipt>>, now: int): set<Reason> {
    if values == [] && (server.None? || server.value == []) then {MissingLegacy}
    else
      ScopeReasons(values, now, false)
      + (if server.Some? then ScopeReasons(server.value, now, true) else {})
      + BindingReasons(values, server)
  }

  method AppendBindingReasons(values: seq<Receipt>, server: seq<Receipt>, reasons0: seq<Reason>) returns (reasons: seq<Reason>)
    ensures Elems(reasons) == Elems(reasons0) + BindingReasons(values, Some(server))
  {
    reasons := reasons0;
    var byId := ById(server);
    for i := 0 to |values|
      invariant Elems(reasons) == Elems(reasons0) + if Owned(values[..i], server) then {} else {NotServerOwned}
    {
      assert values[..i + 1] == values[..i] + [values[i]];
      if values[i].receiptId !in byId || byId[values[i].receiptId] != values[i] {
        assert Elems(reasons + [NotServerOwned]) == Elems(reasons) + {NotServerOwned};
        reasons := reasons + [NotServerOwned];
        assert values[i] in values[..i + 1];
      }
    }
    assert values[..|values|] == values;
    hide Owned;
    if multiset(values) != multiset(server) {
      assert Elems(reasons + [SetMismatch]) == Elems(reasons) + {SetMismatch};
      reasons := reasons + [SetMismatch];
      if !(multiset(server) <= multiset(values)) {
        assert Elems(reasons + [ServerSetMissing]) == Elems(reasons) + {ServerSetMissing};
        reasons := reasons + [ServerSetMissing];
      }
      if !(multiset(values) <= multiset(server)) {
        assert Elems(reasons + [ServerSetExtra]) == Elems(reasons) + {ServerSetExtra};
        reasons := reasons + [ServerSetExtra];
      }
    }
  }

  // ----- The assessment -----------------------------------------------------------------

  ghost predicate Healthy(values: seq<Receipt>, now: int) {
    Distinct(ReceiptIds(values)) && AllCurrent(values, now) && OneGeneration(values)
  }

  /** The status in terms of the two receipt lists alone. */
  ghost function StatusOf(values: seq<Receipt>, server: Option<seq<Receipt>>, now: int): Consistency {
    if values == [] && (server.None? || server.value == []) then LegacyNoReceipt
    else if server.None? || !Permutes(values, server.value) || Ambiguous(server.value) then ForeignReceipt
    else if Healthy(values, now) then Consistent
    else Mismatch
  }

  lemma ScopeKeepsBinding(values: seq<Receipt>, now: int, server: bool)
    ensures forall r | r in ScopeReasons(values, now, server) :: !r.BreaksBinding()
  {
  }

  lemma BindingBreaks(values: seq<Receipt>, server: Option<seq<Receipt>>)
    ensures (exists r | r in BindingReasons(values, server) :: r.BreaksBinding()) <==>
              server.None? || !Permutes(values, server.value) || Ambiguous(server.value)
  {
    hide Owned;
    hide Ambiguous;
    var reasons := BindingReasons(values, server);
    if server.None? {
      assert BindingRequired in reasons;
    } else if !Permutes(values, server.value) {
      assert SetMismatch in reasons;
    } else {
      OwnedDecides(values, server.value);
      assert NotServerOwned in reasons <==> Ambiguous(server.value);
      assert forall r | r in reasons :: r == NotServerOwned;
    }
  }

  lemma ForeignDecides(values: seq<Receipt>, server: Option<seq<Receipt>>, now: int)
    requires values != [] || (server.Some? && server.value != [])
    ensures (exists r | r in Reasons(values, server, now) :: r.BreaksBinding()) <==>
              server.None? || !Permutes(values, server.value) || Ambiguous(server.value)
  {
    hide ScopeReasons;
    hide BindingReasons;
    hide Permutes;
    hide Ambiguous;
    ScopeKeepsBinding(values, now, false);
    if server.Some? {
      ScopeKeepsBinding(server.value, now, true);
    }
    BindingBreaks(values, server);
  }

  /** A receipt list and a permutation of it are judged alike. */
  lemma ScopeIsOrderFree(a: seq<Receipt>, b: seq<Receipt>, now: int)
    requires multiset(a) == multiset(b)
    ensures Distinct(ReceiptIds(a)) <==> Distinct(ReceiptIds(b))
    ensures AllCurrent(a, now) <==> AllCurrent(b, now)
    ensures OneGeneration(a) <==> OneGeneration(b)
    ensures Ambiguous(a) <==> Ambiguous(b)
  {
    MembersAgree(a, b);
    assert Elems(ReceiptIds(a)) == Elems(ReceiptIds(b)) by {
      IdsAre(a);
      IdsAre(b);
    }
    UniqueIsDistinct(ReceiptIds(a));
    UniqueIsDistinct(ReceiptIds(b));
    hide Distinct;
  }

  lemma IdsAre(values: seq<Receipt>)
    ensures forall id :: id in Elems(ReceiptIds(values)) <==> exists r :: r in values && r.receiptId == id
  {
    forall id
      ensures id in Elems(ReceiptIds(values)) <==> exists r :: r in values && r.receiptId == id
    {
      if id in ReceiptIds(values) {
        var i :| 0 <= i < |values| && ReceiptIds(values)[i] == id;
        assert values[i] in values;
      }
      if r :| r in values && r.receiptId == id {
        var i :| 0 <= i < |values| && values[i] == r;
        assert ReceiptIds(values)[i] == id;
      }
    }
  }

  lemma CleanDecides(values: seq<Receipt>, server: Option<seq<Receipt>>, now: int)
    requires values != [] || (server.Some? && server.value != [])
    ensures Reasons(values, server, now) == {} <==> StatusOf(values, server, now) == Consistent
  {
    hide Distinct;
    hide AllCurrent;
    hide OneGeneration;
    hide Owned;
    hide Ambiguous;
    var reasons := Reasons(values, server, now);
    if server.Some? && multiset(values) == multiset(server.value) {
      OwnedDecides(values, server.value);
      ScopeIsOrderFree(values, server.value, now);
    } else {
      assert (if server.None? then BindingRequired else SetMismatch) in reasons;
    }
  }

  method AssessSnapshotConsistency(values: seq<Receipt>, server: Option<seq<Receipt>>, now: int) returns (r: Assessment)
    ensures r.status == StatusOf(values, server, now)
    ensures r.consistent <==> r.status == Consistent
    ensures r.reasons == Reasons(values, server, now)
    ensures r.receiptCount == |values| && r.generations == Generations(values)
  {
    if values == [] && (server.None? || server.value == []) {
      return Assessment(LegacyNoReceipt, false, 0, {MissingLegacy}, map[]);
    }
    hide ScopeReasons;
    hide BindingReasons;
    var reasons, generations := AppendScopeDiagnostics(values, [], now, false);
    if server.None? {
      assert BindingReasons(values, server) == {BindingRequired} by {
        UnboundReasons(values);
      }
      reasons := reasons + [BindingRequired];
      assert Elems(reasons) == ScopeReasons(values, now, false) + {BindingRequired};
    } else {
      var serverGenerations;
      reasons, serverGenerations := AppendScopeDiagnostics(server.value, reasons, now, true);
      reasons := AppendBindingReasons(values, server.value, reasons);
      assert Elems<Reason>([]) == {};
    }
    var unique := Elems(reasons);
    assert unique == Reasons(values, server, now);
    ForeignDecides(values, server, now);
    CleanDecides(values, server, now);
    hide Reasons;
    hide Elems;
    hide Distinct;
    hide AllCurrent;
    hide OneGeneration;
    hide Ambiguous;
    var status :=
      if exists x | x in unique :: x.BreaksBinding() then ForeignReceipt
      else if GenerationMismatch(false) in unique then Mismatch
      else if unique != {} then Mismatch
      else Consistent;
    r := Assessment(status, status == Consistent, |values|, unique, generations);
  }

  lemma UnboundReasons(values: seq<Receipt>)
    ensures BindingReasons(values, None) == {BindingRequired}
  {
  }

  // ----- What a consistent assessment means ---------------------------------------------

  /** The receipts can be relied on at this time: verified, issued by now and not yet expired, no id
      twice, and one snapshot and generation for each provider. */
  ghost predicate Reliable(values: seq<Receipt>, now: int) {
    && (forall r | r in values ::
          r.status == VerifiedReceipt && r.issuedAt <= now && (r.expiresAt == None || r.expiresAt.value > now))
    && (forall i, j | 0 <= i < j < |values| :: values[i].receiptId != values[j].receiptId)
    && (forall a, b | a in values && b in values && a.provider == b.provider ::
          a.snapshot == b.snapshot && a.generation == b.generation)
  }

  lemma ReliableIsHealthy(values: seq<Receipt>, now: int)
    ensures Reliable(values, now) <==> Healthy(values, now)
  {
    assert forall i | 0 <= i < |values| :: ReceiptIds(values)[i] == values[i].receiptId;
  }

  /** Consistent: a non-empty permutation of the server's receipts that can be relied on. */
  lemma ConsistentMeans(values: seq<Receipt>, server: Option<seq<Receipt>>, now: int)
    ensures StatusOf(values, server, now) == Consistent <==>
              server.Some? && values != [] && multiset(values) == multiset(server.value) && Reliable(values, now)
  {
    ReliableIsHealthy(values, now);
    if server.Some? && multiset(values) == multiset(server.value) {
      MembersAgree(values, server.value);
      if Distinct(ReceiptIds(values)) {
        ScopeIsOrderFree(values, server.value, now);
        UniqueIdsAreUnambiguous(server.value);
      }
    }
    hide Distinct;
    hide Ambiguous;
    hide OneGeneration;
    hide AllCurrent;
    hide Reliable;
  }

  /** Time takes a consistent assessment away only by expiry: later, the lists are still consistent
      exactly when no receipt has expired by then. */
  lemma ConsistencyExpires(values: seq<Receipt>, server: Option<seq<Receipt>>, now: int, later: int)
    requires StatusOf(values, server, now) == Consistent && now <= later
    ensures StatusOf(values, server, later) == Consistent <==>
              forall r | r in values && r.expiresAt.Some? :: later < r.expiresAt.value
    ensures StatusOf(values, server, later) != Consistent ==> StatusOf(values, server, later) == Mismatch
  {
    ConsistentMeans(values, server, now);
    ConsistentMeans(values, server, later);
    hide Healthy;
    hide Ambiguous;
  }

  lemma UniqueIdsAreUnambiguous(server: seq<Receipt>)
    requires Distinct(ReceiptIds(server))
    ensures !Ambiguous(server)
  {
    forall a, b | a in server && b in server && a.receiptId == b.receiptId
      ensures a == b
    {
      var i :| 0 <= i < |server| && server[i] == a;
      var j :| 0 <= j < |server| && server[j] == b;
      assert ReceiptIds(server)[i] == ReceiptIds(server)[j];
    }
  }

  lemma EmptyAgrees(a: seq<Receipt>, b: seq<Receipt>)
    requires multiset(a) == multiset(b)
    ensures a == [] <==> b == []
  {
    assert |multiset(a)| == |a| && |multiset(b)| == |b|;
  }

  lemma PermutesAgree(a: seq<Receipt>, a': seq<Receipt>, b: seq<Receipt>, b': seq<Receipt>)
    requires Permutes(a, a') && Permutes(b, b')
    ensures Permutes(a, b) <==> Permutes(a', b')
  {
  }

  lemma HealthIsOrderFree(a: seq<Receipt>, b: seq<Receipt>, now: int)
    requires Permutes(a, b)
    ensures Healthy(a, now) <==> Healthy(b, now)
    ensures Ambiguous(a) <==> Ambiguous(b)
    ensures a == [] <==> b == []
  {
    ScopeIsOrderFree(a, b, now);
    EmptyAgrees(a, b);
    hide Distinct;
    hide AllCurrent;
    hide OneGeneration;
    hide Ambiguous;
  }

  /** The status does not depend on the order of either list, duplicated ids included. */
  lemma StatusIsOrderFree(values: seq<Receipt>, values': seq<Receipt>, server: seq<Receipt>, server': seq<Receipt>, now: int)
    requires Permutes(values, values') && Permutes(server, server')
    ensures StatusOf(values, Some(server), now) == StatusOf(values', Some(server'), now)
    ensures StatusOf(values, None, now) == StatusOf(values', None, now)
  {
    PermutesAgree(values, values', server, server');
    hide Permutes;
    hide Healthy;
    hide Ambiguous;
    HealthIsOrderFree(values, values', now);
    HealthIsOrderFree(server, server', now);
  }

  // ----- When the order of the server's receipts shows in the reasons ---------------------

  /** Of the receipts with one id, the last one counts. */
  lemma {:induction false} ByIdConcat(a: seq<Receipt>, b: seq<Receipt>)
    ensures ById(a + b) == ById(a) + ById(b)
  {
    if b == [] {
      assert a + b == a;
    } else {
      ByIdConcat(a, b[..|b| - 1]);
      assert (a + b)[..|a + b| - 1] == a + b[..|b| - 1];
    }
  }

  /** The server's receipts that are among the values, or those that are not, in their order. */
  function Among(server: seq<Receipt>, values: seq<Receipt>, yes: bool): seq<Receipt> {
    if server == [] then []
    else
      var last := server[|server| - 1];
      Among(server[..|server| - 1], values, yes) + if (last in values) == yes then [last] else []
  }

  lemma {:induction false} AmongSplits(server: seq<Receipt>, values: seq<Receipt>)
    ensures multiset(server) == multiset(Among(server, values, false)) + multiset(Among(server, values, true))
    ensures forall r :: r in Among(server, values, true) <==> r in server && r in values
  {
    if server != [] {
      var rest, last := server[..|server| - 1], server[|server| - 1];
      AmongSplits(rest, values);
      assert server == rest + [last];
    }
  }

  /** The order in which the receipts that were used come last owns every unambiguous one. */
  lemma UsedLastOwns(values: seq<Receipt>, server: seq<Receipt>) returns (server': seq<Receipt>)
    requires !Ambiguous(values) && forall r | r in values :: r in server
    ensures Permutes(server, server') && Owned(values, server')
  {
    var others, used := Among(server, values, false), Among(server, values, true);
    server' := others + used;
    AmongSplits(server, values);
    assert multiset(server') == multiset(others) + multiset(used);
    ByIdConcat(others, used);
    ByIdIs(used);
    hide ById;
    hide Among;
  }

  /** The order in which a receipt comes last that shares the id of a used one disowns that one. */
  lemma RivalLastDisowns(values: seq<Receipt>, server: seq<Receipt>, r: Receipt, b: Receipt) returns (server': seq<Receipt>)
    requires r in values && b in server && b.receiptId == r.receiptId && b != r
    ensures Permutes(server, server') && !Owned(values, server')
  {
    var i :| 0 <= i < |server| && server[i] == b;
    server' := server[..i] + server[i + 1..] + [b];
    assert server == server[..i] + [b] + server[i + 1..];
    ByIdConcat(server[..i] + server[i + 1..], [b]);
    assert [b][..0] == [];
    assert ById([b]) == map[b.receiptId := b];
    assert ById(server')[r.receiptId] == b;
    hide ById;
  }

  /** What a caller can read off the two lists: each value is the server's, no two values share an
      id, but some value shares its id with another receipt of the server. */
  ghost predicate OrderShows(values: seq<Receipt>, server: seq<Receipt>) {
    && (forall r | r in values :: r in server)
    && !Ambiguous(values)
    && exists r, b :: r in values && b in server && b.receiptId == r.receiptId && b != r
  }

  ghost function OwnershipReason(owned: bool): set<Reason> {
    if owned then {} else {NotServerOwned}
  }

  /** The reasons that do not look at ownership. */
  ghost function UnownedReasons(values: seq<Receipt>, server: seq<Receipt>, now: int): set<Reason> {
    ScopeReasons(values, now, false) + ScopeReasons(server, now, true)
    + (if multiset(values) == multiset(server) then {} else {SetMismatch})
    + (if multiset(server) <= multiset(values) then {} else {ServerSetMissing})
    + (if multiset(values) <= multiset(server) then {} else {ServerSetExtra})
  }

  lemma ReasonsSplit(values: seq<Receipt>, server: seq<Receipt>, now: int)
    ensures values != [] || server != [] ==>
              Reasons(values, Some(server), now) == UnownedReasons(values, server, now) + OwnershipReason(Owned(values, server))
    ensures NotServerOwned !in UnownedReasons(values, server, now)
  {
    ScopeNeverUnowned(values, now, false);
    ScopeNeverUnowned(server, now, true);
    hide ScopeReasons;
    hide Owned;
  }

  lemma ScopeReasonsAgree(a: seq<Receipt>, b: seq<Receipt>, now: int, server: bool)
    requires multiset(a) == multiset(b)
    ensures ScopeReasons(a, now, server) == ScopeReasons(b, now, server)
  {
    ScopeIsOrderFree(a, b, now);
    hide Distinct;
    hide AllCurrent;
    hide OneGeneration;
  }

  /** Only ownership looks at the order. */
  lemma OrderIsOwnership(values: seq<Receipt>, values': seq<Receipt>, server: seq<Receipt>, server': seq<Receipt>, now: int)
    requires Permutes(values, values') && Permutes(server, server')
    ensures Reasons(values, Some(server), now) == Reasons(values', Some(server'), now) <==>
              (Owned(values, server) <==> Owned(values', server'))
  {
    ReasonsSplit(values, server, now);
    ReasonsSplit(values', server', now);
    ScopeReasonsAgree(values, values', now, false);
    ScopeReasonsAgree(server, server', now, true);
    hide ScopeReasons;
    assert UnownedReasons(values, server, now) == UnownedReasons(values', server', now);
    hide UnownedReasons;
    EmptyAgrees(values, values');
    EmptyAgrees(server, server');
    if values == [] {
      assert values' == [];
    } else {
      hide Owned;
      hide Reasons;
      var a, b := Reasons(values, Some(server), now), Reasons(values', Some(server'), now);
      assert NotServerOwned in a <==> !Owned(values, server);
      assert NotServerOwned in b <==> !Owned(values', server');
    }
  }

  /** The order of the values never shows in the reasons. */
  lemma ValuesAreOrderFree(values: seq<Receipt>, values': seq<Receipt>, server: Option<seq<Receipt>>, now: int)
    requires Permutes(values, values')
    ensures Reasons(values, server, now) == Reasons(values', server, now)
  {
    MembersAgree(values, values');
    if server.Some? {
      OrderIsOwnership(values, values', server.value, server.value, now);
    } else {
      ScopeReasonsAgree(values, values', now, false);
      EmptyAgrees(values, values');
    }
    hide ScopeReasons;
  }

  lemma OwnershipVaries(values: seq<Receipt>, server: seq<Receipt>, server': seq<Receipt>)
    requires Permutes(server, server') && Owned(values, server) && !Owned(values, server')
    ensures OrderShows(values, server)
  {
    MembersAgree(server, server');
    ByIdIs(server);
    ByIdIs(server');
    hide ById;
    var r :| r in values && !(r.receiptId in ById(server') && ById(server')[r.receiptId] == r);
    assert r in server && ById(server')[r.receiptId] in server;
  }

  /** Reordering the server's receipts can change the reasons exactly when the values are all the
      server's and unambiguous, but one of them shares its id with another server receipt. */
  lemma ReasonsOrderDecides(values: seq<Receipt>, server: seq<Receipt>, now: int)
    ensures (exists server' :: Permutes(server, server') && Reasons(values, Some(server), now) != Reasons(values, Some(server'), now))
            <==> OrderShows(values, server)
  {
    hide Owned;
    hide Reasons;
    if server' :| Permutes(server, server') && Reasons(values, Some(server), now) != Reasons(values, Some(server'), now) {
      OrderIsOwnership(values, values, server, server', now);
      MembersAgree(server, server');
      if Owned(values, server) {
        OwnershipVaries(values, server, server');
      } else {
        OwnershipVaries(values, server', server);
      }
    }
    if OrderShows(values, server) {
      var r, b :| r in values && b in server && b.receiptId == r.receiptId && b != r;
      var owning := UsedLastOwns(values, server);
      var disowning := RivalLastDisowns(values, server, r, b);
      OrderIsOwnership(values, values, server, owning, now);
      OrderIsOwnership(values, values, server, disowning, now);
      assert Permutes(server, if Owned(values, server) then disowning else owning);
    }
  }

  /** The reasons do: two server receipts with one id are told apart by their order only. */
  lemma ReasonsAreNotOrderFree(now: int) returns (values: seq<Receipt>, server: seq<Receipt>, server': seq<Receipt>)
    ensures multiset(server) == multiset(server')
    ensures Reasons(values, Some(server), now) != Reasons(values, Some(server'), now)
  {
    var a := Receipt("r", "p", "s", "g", VerifiedReceipt, now, None, None, "server", true);
    var b := a.(generation := "h");
    values, server, server' := [a], [a, b], [b, a];
    assert server[..1] == [a] && server'[..1] == [b];
    assert ById(server)["r"] == b && ById(server')["r"] == a;
    assert a in values;
    assert !Owned(values, server) && Owned(values, server');
    hide Owned;
    hide ScopeReasons;
    assert NotServerOwned in BindingReasons(values, Some(server));
    assert NotServerOwned !in BindingReasons(values, Some(server'));
    assert NotServerOwned !in ScopeReasons(values, now, false) + ScopeReasons(server', now, true) by {
      ScopeNeverUnowned(values, now, false);
      ScopeNeverUnowned(server', now, true);
    }
    hide BindingReasons;
  }

  lemma ScopeNeverUnowned(values: seq<Receipt>, now: int, server: bool)
    ensures NotServerOwned !in ScopeReasons(values, now, server)
  {
  }
}
