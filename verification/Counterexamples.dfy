/** Concrete runs that show why some guarantees need their restriction. All of them start
    from one accepted payout. */
module Counterexamples {
  import opened Prelude
  import opened Decimal
  import opened Amounts
  import opened Text
  import opened Domain
  import opened Tables
  import opened Transactions
  import opened Pipeline
  import opened Guarantees

  // ---------------------------------------------------------------- one accepted payout

  const ONE := Numeric(Some(1), 0, false, Finite, true)
  const INPUT := CreateInput(Some(1), Some(2), "k", "", "a", "b", Some(ONE), "c")
  const CALL := Transactions.Call(1, 2, "k", "", "a", "b", ONE, "1", "c")
  const ROW := Payout(1, 2, None, Some("a"), Some("b"), InHundredths(100), "c", Pending, None)
  const EVENT := Event(ProcessPayout, 3, ProcessPayload(3, 1), EventPending, 0, None, None)
  const MESSAGE := Job(4, ProcessPayout, 3, ProcessPayload(3, 1))
  const EXECUTE := Prepared(3, ProviderInput(3, 2, "x", "1.00", "c"), true)

  function DbWith(row: Payout, event: Event): Db {
    Db(map[1 := Client(None)], map[2 := FundingSource(1, "x")], map[3 := row],
       map[(1, "k") := KeyRow(RequestHash(CALL), 3)], map[4 := event])
  }

  /** The system with its one payout accepted and `timeout` as claim timeout. */
  ghost function Accepted(timeout: nat): Sys {
    Sys(DbWith(ROW, EVENT), 0, timeout, multiset{}, map[], map[], map[],
        History({Reply(CALL, 3)}, multiset{}, [], multiset{}, multiset{}, multiset{}))
  }

  lemma OneCharacter(s: string)
    requires |s| == 1 && 'a' <= s[0] <= 'z'
    ensures Trim(s) == s && ByteLength(s) == 1 && NulFree(s)
  {
    TrimTrimmed(s);
    assert s[1..] == "";
  }

  lemma InputNormalizes()
    ensures Normalize(INPUT) == Ok(CALL)
  {
    TrimTrimmed("");
    OneCharacter("k");
    OneCharacter("a");
    OneCharacter("b");
    OneCharacter("c");
    assert Digits(1) == "1" && Zeros(0) == "";
    assert NumericString(ONE) == Printed("1");
  }

  /** One more step from a reachable state. */
  lemma ReachStep(pol: Policy, s: Sys, a: Action, s': Sys)
    requires Reachable(pol, s) && Step(pol, s, a, s')
    ensures Reachable(pol, s')
  {
    var s0, acts :| Initial(s0) && Runs(pol, s0, acts, s);
    hide Runs, Initial, Step;
    RunOne(pol, s, a, s');
    RunJoin(pol, s0, acts, s, [a], s');
  }

  lemma InitialIsReachable(pol: Policy, s: Sys)
    requires Initial(s)
    ensures Reachable(pol, s)
  {
    assert Runs(pol, s, [], s);
  }

  /** The system with its client and funding source and nothing else. */
  ghost function Registered(timeout: nat): Sys {
    Sys(Db(map[1 := Client(None)], map[2 := FundingSource(1, "x")], map[], map[], map[]), 0, timeout,
        multiset{}, map[], map[], map[], History({}, multiset{}, [], multiset{}, multiset{}, multiset{}))
  }

  lemma RegisteredIsReachable(pol: Policy, timeout: nat)
    ensures Reachable(pol, Registered(timeout))
  {
    OneCharacter("x");
    hide NulFree, Reachable;
    var s0 := Registered(timeout).(db := Db(map[], map[], map[], map[], map[]));
    var s1 := s0.(db := s0.db.(clients := map[1 := Client(None)]));
    InitialIsReachable(pol, s0);
    ReachStep(pol, s0, AddClient(1, None), s1);
    ReachStep(pol, s1, AddSource(2, FundingSource(1, "x")), Registered(timeout));
  }

  lemma AcceptedIsReachable(pol: Policy, timeout: nat)
    ensures Reachable(pol, Accepted(timeout))
  {
    hide Normalize, RequestHash, NumericString, NulFree, Reachable, DoBegin, DoReadKey;
    RegisteredIsReachable(pol, timeout);
    var s0 := Registered(timeout);
    var s1 := s0.(creators := map[0 := Creator(CALL, CreateStage.Reading)]);
    var s2 := s0.(creators := map[0 := Creator(CALL, Inserting)]);
    BeginAccepts(s0, s1);
    ReachStep(pol, s0, Begin(0, INPUT), s1);
    ReadFindsNoKey(s1, s2);
    ReachStep(pol, s1, ReadKey(0), s2);
    InsertReaches(pol, s2);
  }

  lemma BeginAccepts(s: Sys, s': Sys)
    requires s.creators == map[] && s' == s.(creators := map[0 := Creator(CALL, CreateStage.Reading)])
    ensures DoBegin(s, 0, INPUT) == Some(s')
  {
    hide Normalize;
    InputNormalizes();
  }

  lemma ReadFindsNoKey(s: Sys, s': Sys)
    requires s.creators == map[0 := Creator(CALL, CreateStage.Reading)] && s.db.keys == map[]
    requires s' == s.(creators := map[0 := Creator(CALL, Inserting)])
    ensures DoReadKey(s, 0) == Some(s')
  {
    OneCharacter("k");
    hide RequestHash, NulFree;
    assert s.creators[0 := Creator(CALL, Inserting)] == s'.creators;
  }

  lemma InsertReaches(pol: Policy, s: Sys)
    requires Reachable(pol, s) && s.creators == map[0 := Creator(CALL, Inserting)] && s.now == 0
    requires s.db == Db(map[1 := Client(None)], map[2 := FundingSource(1, "x")], map[], map[], map[])
    requires s.queue == multiset{} && s.relays == map[] && s.workers == map[]
    requires s.history == History({}, multiset{}, [], multiset{}, multiset{}, multiset{})
    ensures Reachable(pol, Accepted(s.timeout))
  {
    hide Reachable, Accepted, DoInsert;
    InsertAccepts(s, Accepted(s.timeout));
    ReachStep(pol, s, Insert(0, 3, 4, true), Accepted(s.timeout));
  }

  lemma InsertAccepts(s: Sys, s': Sys)
    requires s.creators == map[0 := Creator(CALL, Inserting)] && s' == Accepted(s.timeout) && s.now == 0
    requires s.db == Db(map[1 := Client(None)], map[2 := FundingSource(1, "x")], map[], map[], map[])
    requires s.queue == multiset{} && s.relays == map[] && s.workers == map[]
    requires s.history == History({}, multiset{}, [], multiset{}, multiset{}, multiset{})
    ensures DoInsert(s, 0, 3, 4, true) == Some(s')
  {
    hide RequestHash, InsertTx;
    InsertTxAccepts(s.db);
    assert s.creators - {0} == map[];
    assert {} + {Reply(CALL, 3)} == {Reply(CALL, 3)};
  }

  lemma InsertTxAccepts(db: Db)
    requires db == Db(map[1 := Client(None)], map[2 := FundingSource(1, "x")], map[], map[], map[])
    ensures InsertTx(db, CALL, 3, 4, 0) == Ok(DbWith(ROW, EVENT))
  {
    hide RequestHash, AmountColumn;
    OneIsStored();
    OneCharacter("k");
    OneCharacter("a");
    OneCharacter("b");
    OneCharacter("c");
  }

  lemma OneIsStored()
    ensures AmountColumn(ONE) == Ok(InHundredths(100)) && NumericString(InHundredths(100)) == Printed("1.00")
  {
    assert Pow10(0) == 1 && Pow10(1) == 10 && Pow10(2) == 100;
    assert Digits(1) == "1" && Digits(10) == Digits(1) + "0" && Digits(100) == Digits(10) + "0";
    assert "100"[..1] == "1" && "100"[1..] == "00";
  }

  // ---------------------------------------------------------------- two requests, one hash

  const SPLIT_LATE := INPUT.(externalId := "a\0b", recipientName := "c")
  const SPLIT_EARLY := INPUT.(externalId := "a", recipientName := "b\0c")

  lemma SplitLateNormalizes()
    ensures Normalize(SPLIT_LATE).Ok? && Trim(SPLIT_LATE.externalId) == "a\0b" && Trim(SPLIT_LATE.recipientName) == "c"
  {
    SplitTexts();
    InputNormalizes();
    hide Normalize, NormalizeOptional, NormalizeRequired, Trim;
    RenamedCall(INPUT, "a\0b", "c");
  }

  lemma SplitTexts()
    ensures Trim("a\0b") == "a\0b" && Trim("c") == "c"
    ensures NormalizeOptional("a\0b", 255) == Some("a\0b") && NormalizeRequired("c", 255) == Some("c")
  {
    hide Trim, ByteLength;
    TrimTrimmed("a\0b");
    OneCharacter("c");
    SplitLength();
  }

  lemma SplitLength()
    ensures ByteLength("a\0b") == 3
  {
    assert ByteLength("\0") == 1 by {
      assert "\0"[1..] == "";
    }
    hide ByteLength;
    OneCharacter("a");
    OneCharacter("b");
    assert "a\0" + "b" == "a\0b" && "a" + "\0" == "a\0";
    ByteLengthAppend("a\0", "b");
    ByteLengthAppend("a", "\0");
  }

  /** Two requests that the service accepts, with different fields and one hash: external
      id "a\0b" and recipient "c", external id "a" and recipient "b\0c". */
  lemma TwoRequestsOneHash()
    ensures Normalize(SPLIT_LATE).Ok? && Normalize(SPLIT_EARLY).Ok?
    ensures RequestHash(Normalize(SPLIT_LATE).value) == RequestHash(Normalize(SPLIT_EARLY).value)
    ensures Fields(Normalize(SPLIT_LATE).value) != Fields(Normalize(SPLIT_EARLY).value)
  {
    SplitLateNormalizes();
    OneCharacter("a");
    OneCharacter("b");
    OneCharacter("c");
    hide Normalize, Trim, ByteLength, Fields;
    assert "a\0b" == "a" + [NUL] + "b" && "b\0c" == "b" + [NUL] + "c";
    ZeroByteSharesHash(SPLIT_LATE, "a", "b");
    assert Shifted(SPLIT_LATE, "a", "b") == SPLIT_EARLY;
  }

  // ---------------------------------------------------------------- amounts

  const FINE := INPUT.(amount := Some(Numeric(Some(1005), -3, false, Finite, true)))
  const TINY := INPUT.(amount := Some(Numeric(Some(4), -3, false, Finite, true)))

  /** An accepted amount that is stored as another: 1.005 as 1.01. */
  lemma AmountIsRounded()
    ensures Normalize(FINE).Ok?
    ensures ReadDecimal(Normalize(FINE).value.amountText) == Some(Decimal.Reading.Reading(1005, 3))
    ensures NumericString(NewRow(Normalize(FINE).value).amount).Printed?
    ensures ReadDecimal(NumericString(NewRow(Normalize(FINE).value).amount).text) == Some(Decimal.Reading.Reading(101, 2))
  {
    hide Normalize, NumericString, ReadDecimal, AmountColumn;
    FineColumn();
    AcceptsAmount(FINE.amount.value);
    PrintedTextIsExact(FINE.amount.value);
    HundredthsPrint(101);
  }

  lemma FineColumn()
    ensures AmountColumn(FINE.amount.value) == Ok(InHundredths(101))
  {
    assert Pow10(1) == 10 * Pow10(0);
  }

  lemma TinyColumn()
    ensures AmountColumn(TINY.amount.value) == Err(CheckViolation)
  {
    assert Pow10(1) == 10 * Pow10(0);
  }

  /** An accepted amount that no tables take: 0.004. */
  lemma AmountIsRefused(db: Db, id: Id, eventId: Id, now: int)
    ensures Normalize(TINY).Ok? && InsertTx(db, Normalize(TINY).value, id, eventId, now).Err?
    ensures GetFundingSource(db, 1, 2).Ok? ==>
      InsertTx(db, Normalize(TINY).value, id, eventId, now) == Err(CreateError.Database(InvalidAmount(CheckViolation)))
  {
    hide Normalize, NumericString, RequestHash, AmountColumn;
    TinyColumn();
    AcceptsAmount(TINY.amount.value);
    OneCharacter("a");
    OneCharacter("b");
    OneCharacter("c");
  }

  lemma AcceptsAmount(v: Numeric)
    requires v.IsFinite() && v.mantissa.value > 0 && v.exp > MIN_INT32
    ensures NumericString(v).Printed?
    ensures Normalize(INPUT.(amount := Some(v))) == Ok(CALL.(amount := v, amountText := NumericString(v).text))
  {
    hide Normalize, NumericString;
    PrintsAndReads(v);
    InputNormalizes();
    OtherAmount(INPUT, v);
  }

  /** An accepted request stays accepted with another amount that prints. */
  lemma OtherAmount(input: CreateInput, v: Numeric)
    requires Normalize(input).Ok? && v.IsFinite() && v.mantissa.value > 0 && NumericString(v).Printed?
    ensures Normalize(input.(amount := Some(v)))
         == Ok(Normalize(input).value.(amount := v, amountText := NumericString(v).text))
  {
    hide NormalizeOptional, NormalizeRequired, Trim, ByteLength, NumericString;
  }

  // ---------------------------------------------------------------- a stale release

  ghost function WithRelays(s: Sys, event: Event, relays: map<nat, Relay>): Sys {
    s.(db := DbWith(ROW, event), relays := relays)
  }

  /** A relay claims, fails to publish and stalls past its lease; another relay publishes
      and marks. The event is processed, yet the first relay's release reopens it. */
  lemma StaleReleaseReopens(timeout: nat) returns (s: Sys, s': Sys)
    ensures Reachable(UNRESTRICTED, s) && Step(UNRESTRICTED, s, Release(0), s')
    ensures 4 in s.db.events && 4 in s'.db.events
    ensures s.db.events[4].status == EventProcessed && s'.db.events[4].status == EventPending
  {
    hide Reachable, RequestHash;
    var s0 := Accepted(timeout);
    AcceptedIsReachable(UNRESTRICTED, timeout);
    var claimed := EVENT.(status := EventProcessing, claimedAt := Some(0));
    var first := Relay(Claimed, 4, MESSAGE, 0);
    var stalled := first.(stage := Releasing);
    var s1 := WithRelays(s0, claimed, map[0 := first]);
    ClaimReaches(UNRESTRICTED, s0, 0, EVENT, s1);
    var s2 := WithRelays(s0, claimed, map[0 := stalled]);
    assert map[0 := first][0 := stalled] == map[0 := stalled];
    ReachStep(UNRESTRICTED, s1, Dispatch(0, Rejected(false)), s2);
    var s3 := s2.(now := timeout + 1);
    ReachStep(UNRESTRICTED, s2, Tick(timeout + 1), s3);
    s := SecondRelayMarks(s3, claimed, stalled);
    s' := DoRelease(s, 0).value;
  }

  lemma ClaimReaches(pol: Policy, s: Sys, r: nat, event: Event, s': Sys)
    requires Reachable(pol, s) && s.db == DbWith(ROW, event) && r !in s.relays
    requires event == EVENT || event == EVENT.(status := EventProcessing, claimedAt := Some(s.now - s.timeout - 1))
    requires s' == WithRelays(s, event.(status := EventProcessing, claimedAt := Some(s.now)),
                              s.relays[r := Relay(Claimed, 4, MESSAGE, s.now)])
    ensures Reachable(pol, s')
  {
    hide Reachable, RequestHash;
    assert Eligible(event, RELAY_TYPES, s.now - s.timeout);
    assert IsNext(s.db, RELAY_TYPES, s.now - s.timeout, {}, 4);
    assert s.db.events[4 := event.(status := EventProcessing, claimedAt := Some(s.now))] == s'.db.events;
    ReachStep(pol, s, Claim(r, s.now, {}, 4), s');
  }

  lemma SecondRelayMarks(s: Sys, claimed: Event, stalled: Relay) returns (s': Sys)
    requires Reachable(UNRESTRICTED, s) && s.now == s.timeout + 1 && s.db == DbWith(ROW, claimed)
    requires claimed == EVENT.(status := EventProcessing, claimedAt := Some(0))
    requires stalled == Relay(Releasing, 4, MESSAGE, 0) && s.relays == map[0 := stalled]
    ensures Reachable(UNRESTRICTED, s')
    ensures 4 in s'.db.events && s'.db.events[4].status == EventProcessed
    ensures 0 in s'.relays && s'.relays[0] == stalled
  {
    hide Reachable, RequestHash;
    var second := Relay(Claimed, 4, MESSAGE, s.now);
    var again := claimed.(claimedAt := Some(s.now));
    var s1 := WithRelays(s, again, map[0 := stalled, 1 := second]);
    assert s.relays[1 := second] == s1.relays;
    ClaimReaches(UNRESTRICTED, s, 1, claimed, s1);
    var s2 := DoDispatch(s1, 1, Delivered).value;
    ReachStep(UNRESTRICTED, s1, Dispatch(1, Delivered), s2);
    s' := Marks(s2, 1);
  }

  lemma Marks(s: Sys, r: nat) returns (s': Sys)
    requires Reachable(UNRESTRICTED, s) && r in s.relays && s.relays[r].stage == Dispatched && s.relays[r].event in s.db.events
    ensures Reachable(UNRESTRICTED, s') && s'.relays == s.relays - {r}
    ensures s.relays[r].event in s'.db.events && s'.db.events[s.relays[r].event].status == EventProcessed
  {
    hide Reachable;
    s' := DoMark(s, r).value;
    ReachStep(UNRESTRICTED, s, Mark(r), s');
  }

  // ---------------------------------------------------------------- two workers, two answers

  const REFUSED := ProviderResult(Failed, "x")
  const PAID := ProviderResult(Succeeded, "")

  /** Results that meet the contract and relays in time, but deliveries side by side and
      a provider that may change its mind. */
  ghost const SIDE_BY_SIDE: Policy := Policy(false, true, true, None)

  /** The queue's only message with two workers handling it: the first lost its
      connection after it was given the message. */
  function Two(first: WorkerStage, second: WorkerStage): map<nat, Worker> {
    map[0 := Worker(false, MESSAGE, first), 1 := Worker(true, MESSAGE, second)]
  }

  lemma TwoUpdated(first: WorkerStage, second: WorkerStage, stage: WorkerStage)
    ensures 0 in Two(first, second) && Two(first, second)[0] == Worker(false, MESSAGE, first)
    ensures 1 in Two(first, second) && Two(first, second)[1] == Worker(true, MESSAGE, second)
    ensures Two(first, second)[0 := Worker(false, MESSAGE, stage)] == Two(stage, second)
    ensures Two(first, second)[1 := Worker(true, MESSAGE, stage)] == Two(first, stage)
  {
  }

  /** Worker `w` of the two is at `stage`, the other at `other`. */
  function Stages(w: nat, stage: WorkerStage, other: WorkerStage): map<nat, Worker> {
    if w == 0 then Two(stage, other) else Two(other, stage)
  }

  lemma StageSet(s: Sys, w: nat, stage: WorkerStage, other: WorkerStage, next: WorkerStage)
    requires w < 2 && s.workers == Stages(w, stage, other)
    ensures w in s.workers && s.workers[w].stage == stage && s.workers[w].msg == MESSAGE
    ensures SetStage(s, w, next) == s.(workers := Stages(w, next, other))
  {
    hide Two;
    if w == 0 {
      TwoUpdated(stage, other, next);
    } else {
      TwoUpdated(other, stage, next);
    }
  }

  /** The payout's event relayed and marked, its message queued. */
  lemma QueuedIsReachable(pol: Policy, timeout: nat) returns (s: Sys)
    ensures Reachable(pol, s) && s.queue == multiset{MESSAGE} && s.workers == map[] && s.db.payouts == map[3 := ROW]
    ensures s.db.clients == map[1 := Client(None)] && s.db.sources == map[2 := FundingSource(1, "x")]
  {
    hide Reachable, RequestHash;
    var s0 := Accepted(timeout);
    AcceptedIsReachable(pol, timeout);
    var relay := Relay(Claimed, 4, MESSAGE, 0);
    var s1 := WithRelays(s0, EVENT.(status := EventProcessing, claimedAt := Some(0)), map[0 := relay]);
    ClaimReaches(pol, s0, 0, EVENT, s1);
    var s2 := DoDispatch(s1, 0, Delivered).value;
    ReachStep(pol, s1, Dispatch(0, Delivered), s2);
    s := DoMark(s2, 0).value;
    ReachStep(pol, s2, Mark(0), s);
    assert s.queue == multiset{MESSAGE};
  }

  lemma BothReceive(timeout: nat) returns (s: Sys)
    ensures Reachable(SIDE_BY_SIDE, s) && s.db.payouts == map[3 := ROW] && s.workers == Two(Received, Received)
    ensures s.db.clients == map[1 := Client(None)] && s.db.sources == map[2 := FundingSource(1, "x")]
  {
    hide Reachable, Two;
    s := QueuedIsReachable(SIDE_BY_SIDE, timeout);
    s := TwoDeliveries(s);
  }

  lemma TwoDeliveries(s: Sys) returns (s': Sys)
    requires Reachable(SIDE_BY_SIDE, s) && s.queue == multiset{MESSAGE} && s.workers == map[] && s.db.payouts == map[3 := ROW]
    ensures Reachable(SIDE_BY_SIDE, s') && s'.workers == Two(Received, Received) && s'.db == s.db
  {
    hide Reachable, Two;
    var s1 := DoDeliver(s, 0, MESSAGE).value;
    ReachStep(SIDE_BY_SIDE, s, Deliver(0, MESSAGE), s1);
    var s2 := LosesConnection(s1);
    s' := SecondReceives(s2);
  }

  lemma LosesConnection(s: Sys) returns (s': Sys)
    requires Reachable(SIDE_BY_SIDE, s) && s.workers == map[0 := Worker(true, MESSAGE, Received)]
    ensures Reachable(SIDE_BY_SIDE, s') && s'.db == s.db && MESSAGE in s'.queue
    ensures s'.workers == map[0 := Worker(false, MESSAGE, Received)]
  {
    hide Reachable;
    s' := DoDisconnect(s, 0).value;
    ReachStep(SIDE_BY_SIDE, s, Disconnect(0), s');
    assert s'.workers == map[0 := Worker(false, MESSAGE, Received)];
  }

  lemma SecondReceives(s: Sys) returns (s': Sys)
    requires Reachable(SIDE_BY_SIDE, s) && s.workers == map[0 := Worker(false, MESSAGE, Received)] && MESSAGE in s.queue
    ensures Reachable(SIDE_BY_SIDE, s') && s'.workers == Two(Received, Received) && s'.db == s.db
  {
    hide Reachable;
    s' := DoDeliver(s, 1, MESSAGE).value;
    ReachStep(SIDE_BY_SIDE, s, Deliver(1, MESSAGE), s');
    assert s'.workers == Two(Received, Received);
  }

  lemma PreparesOk(db: Db, row: Payout)
    requires db.payouts == map[3 := row] && db.sources == map[2 := FundingSource(1, "x")]
    requires row == ROW || row == ROW.(status := Processing)
    ensures PrepareTx(db, 1, 3) == Ok((db.(payouts := map[3 := ROW.(status := Processing)]), EXECUTE))
  {
    OneIsStored();
    hide NumericString;
    assert map[3 := ROW][3 := ROW.(status := Processing)] == map[3 := ROW.(status := Processing)];
  }

  lemma PrepareSide(s: Sys, row: Payout, w: nat, other: WorkerStage) returns (s': Sys)
    requires w < 2 && s.workers == Stages(w, Received, other)
    requires s.db.payouts == map[3 := row] && (row == ROW || row == ROW.(status := Processing))
    requires s.db.sources == map[2 := FundingSource(1, "x")]
    ensures DoPrepare(s, w) == Some(s')
    ensures s' == s.(db := s.db.(payouts := map[3 := ROW.(status := Processing)]), workers := Stages(w, Ready(EXECUTE), other))
  {
    var db := s.db.(payouts := map[3 := ROW.(status := Processing)]);
    PreparesOk(s.db, row);
    StageSet(s.(db := db), w, Received, other, Ready(EXECUTE));
    hide PrepareTx, SetStage, Stages;
    s' := s.(db := db, workers := Stages(w, Ready(EXECUTE), other));
  }

  lemma CallSide(s: Sys, w: nat, other: WorkerStage) returns (s': Sys)
    requires w < 2 && s.workers == Stages(w, Ready(EXECUTE), other)
    ensures DoCallProvider(s, w) == Some(s')
    ensures s'.workers == Stages(w, Calling(EXECUTE), other) && s'.db == s.db
  {
    StageSet(s, w, Ready(EXECUTE), other, Calling(EXECUTE));
    hide SetStage, Stages;
    s' := DoCallProvider(s, w).value;
  }

  lemma AnswerSide(s: Sys, w: nat, other: WorkerStage, result: ProviderResult) returns (s': Sys)
    requires w < 2 && s.workers == Stages(w, Calling(EXECUTE), other)
    ensures DoAnswer(s, w, Some(result)) == Some(s')
    ensures s' == s.(workers := Stages(w, Answered(EXECUTE, result), other))
  {
    StageSet(s, w, Calling(EXECUTE), other, Answered(EXECUTE, result));
    hide SetStage, Stages;
    s' := DoAnswer(s, w, Some(result)).value;
  }

  /** Worker `w` prepares, calls and gets `result`. */
  lemma Executes(s: Sys, row: Payout, w: nat, other: WorkerStage, result: ProviderResult) returns (s': Sys)
    requires Reachable(SIDE_BY_SIDE, s) && ValidateResult(result)
    requires w < 2 && s.workers == Stages(w, Received, other)
    requires s.db.payouts == map[3 := row] && (row == ROW || row == ROW.(status := Processing))
    requires s.db.sources == map[2 := FundingSource(1, "x")]
    ensures Reachable(SIDE_BY_SIDE, s') && s'.workers == Stages(w, Answered(EXECUTE, result), other)
    ensures s'.db == s.db.(payouts := map[3 := ROW.(status := Processing)])
  {
    hide Reachable, ValidateResult, Stages, DoPrepare, DoCallProvider, DoAnswer;
    var s1 := PrepareSide(s, row, w, other);
    ReachStep(SIDE_BY_SIDE, s, Prepare(w), s1);
    var s2 := CallSide(s1, w, other);
    ReachStep(SIDE_BY_SIDE, s1, CallProvider(w), s2);
    s' := AnswerSide(s2, w, other, result);
    ReachStep(SIDE_BY_SIDE, s2, Answer(w, Some(result)), s');
  }

  /** Two workers on one message, one told the payout failed, the other that it
      succeeded: the second recording replaces a final status, which CanTransition never
      allows, and leaves the failure reason on a succeeded payout. */
  lemma FinalStatusOverwritten(timeout: nat) returns (s: Sys, s': Sys)
    ensures Reachable(SIDE_BY_SIDE, s) && Step(SIDE_BY_SIDE, s, Record(1, 5), s')
    ensures 3 in s.db.payouts && 3 in s'.db.payouts
    ensures s.db.payouts[3].status == Failed && s'.db.payouts[3].status == Succeeded
    ensures s'.db.payouts[3].failureReason == Some("x")
  {
    hide Reachable;
    TrimTrimmed("");
    TrimTrimmed("x");
    assert ValidateResult(REFUSED) && ValidateResult(PAID);
    hide ValidateResult, Blank;
    var s0 := BothReceive(timeout);
    var s1 := Executes(s0, ROW, 0, Received, REFUSED);
    var s2 := Executes(s1, ROW.(status := Processing), 1, Answered(EXECUTE, REFUSED), PAID);
    s, s' := BothRecord(s2);
  }

  lemma RecordSide(s: Sys, w: nat, other: WorkerStage, result: ProviderResult, db: Db) returns (s': Sys)
    requires w < 2 && s.workers == Stages(w, Answered(EXECUTE, result), other)
    requires RecordTx(s.db, 3, result, 5, s.now) == Ok(db)
    ensures DoRecord(s, w, 5) == Some(s')
    ensures s'.workers == Stages(w, Acking, other) && s'.db == db
  {
    StageSet(s, w, Answered(EXECUTE, result), other, Acking);
    StageSet(s.(db := db), w, Answered(EXECUTE, result), other, Acking);
    hide SetStage, Stages, RecordTx;
    s' := DoRecord(s, w, 5).value;
  }

  lemma RecordsRefused(db: Db, now: int)
    requires db.clients == map[1 := Client(None)] && db.payouts == map[3 := ROW.(status := Processing)]
    ensures RecordTx(db, 3, REFUSED, 5, now)
         == Ok(db.(payouts := map[3 := ROW.(status := Failed, failureReason := Some("x"))]))
  {
    TrimTrimmed("x");
    assert StoredReason(REFUSED) == Some("x");
    hide Blank, StoredReason;
    assert map[3 := ROW.(status := Processing)][3 := ROW.(status := Failed, failureReason := Some("x"))]
        == map[3 := ROW.(status := Failed, failureReason := Some("x"))];
  }

  lemma RecordsPaid(db: Db, now: int)
    requires db.clients == map[1 := Client(None)]
    requires db.payouts == map[3 := ROW.(status := Failed, failureReason := Some("x"))]
    ensures RecordTx(db, 3, PAID, 5, now)
         == Ok(db.(payouts := map[3 := ROW.(status := Succeeded, failureReason := Some("x"))]))
  {
    assert map[3 := ROW.(status := Failed, failureReason := Some("x"))][3 := ROW.(status := Succeeded, failureReason := Some("x"))]
        == map[3 := ROW.(status := Succeeded, failureReason := Some("x"))];
  }

  lemma BothRecord(s0: Sys) returns (s: Sys, s': Sys)
    requires Reachable(SIDE_BY_SIDE, s0) && s0.db.clients == map[1 := Client(None)]
    requires s0.db.payouts == map[3 := ROW.(status := Processing)]
    requires s0.workers == Two(Answered(EXECUTE, REFUSED), Answered(EXECUTE, PAID))
    ensures Reachable(SIDE_BY_SIDE, s) && Step(SIDE_BY_SIDE, s, Record(1, 5), s')
    ensures 3 in s.db.payouts && 3 in s'.db.payouts
    ensures s.db.payouts[3].status == Failed && s'.db.payouts[3].status == Succeeded
    ensures s'.db.payouts[3].failureReason == Some("x")
  {
    hide Reachable, RecordTx, Stages, DoRecord;
    TwoStages(Answered(EXECUTE, REFUSED), Answered(EXECUTE, PAID));
    TwoStages(Acking, Answered(EXECUTE, PAID));
    RecordsRefused(s0.db, s0.now);
    s := RecordSide(s0, 0, Answered(EXECUTE, PAID), REFUSED, RecordTx(s0.db, 3, REFUSED, 5, s0.now).value);
    ReachStep(SIDE_BY_SIDE, s0, Record(0, 5), s);
    RecordsPaid(s.db, s.now);
    s' := RecordSide(s, 1, Acking, PAID, RecordTx(s.db, 3, PAID, 5, s.now).value);
  }

  lemma TwoStages(first: WorkerStage, second: WorkerStage)
    ensures Two(first, second) == Stages(0, first, second) == Stages(1, second, first)
  {
  }
}
