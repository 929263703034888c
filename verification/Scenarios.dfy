/** Runs that meet the conditions under which the program does not do what is meant: a
    loser refused, a failed job redelivered, a result that cannot be stored. */
module Scenarios {
  import opened Prelude
  import opened Amounts
  import opened Text
  import opened Domain
  import opened Tables
  import opened Transactions
  import opened Consistency
  import opened Pipeline
  import opened Safety
  import opened Guarantees
  import opened Restricted
  import opened Recovery
  import opened Redelivery
  import opened Counterexamples

  // ---------------------------------------------------------------- two calls, one request

  function InputWith(externalId: string): CreateInput { INPUT.(externalId := externalId) }

  function CallWith(externalId: string): Transactions.Call { CALL.(externalId := externalId) }

  lemma WithNormalizes(e: string)
    requires e == "" || e == "e"
    ensures Normalize(InputWith(e)) == Ok(CallWith(e)) && NulFree(e) && Trim(e) == e
  {
    InputNormalizes();
    OneCharacter("e");
    OneCharacter("a");
    TrimTrimmed("");
    assert NormalizeOptional(e, 255) == Some(e) && NormalizeRequired("a", 255) == Some("a");
    hide Normalize, NormalizeOptional, NormalizeRequired, Trim;
    RenamedCall(INPUT, e, "a");
  }

  /** Two calls with the same request, at their stages. */
  ghost function TwoCalls(timeout: nat, e: string, first: CreateStage, second: CreateStage): Sys {
    Registered(timeout).(creators := map[0 := Creator(CallWith(e), first), 1 := Creator(CallWith(e), second)])
  }

  lemma BothBegin(pol: Policy, timeout: nat, e: string)
    requires e == "" || e == "e"
    ensures Reachable(pol, TwoCalls(timeout, e, CreateStage.Reading, CreateStage.Reading))
  {
    hide Normalize, Reachable;
    WithNormalizes(e);
    RegisteredIsReachable(pol, timeout);
    var s := Registered(timeout);
    var s1 := s.(creators := map[0 := Creator(CallWith(e), CreateStage.Reading)]);
    ReachStep(pol, s, Begin(0, InputWith(e)), s1);
    var s2 := TwoCalls(timeout, e, CreateStage.Reading, CreateStage.Reading);
    assert s1.creators[1 := Creator(CallWith(e), CreateStage.Reading)] == s2.creators;
    ReachStep(pol, s1, Begin(1, InputWith(e)), s2);
  }

  lemma BothFindNoKey(pol: Policy, timeout: nat, e: string)
    requires e == "" || e == "e"
    ensures Reachable(pol, TwoCalls(timeout, e, Inserting, Inserting))
  {
    BothBegin(pol, timeout, e);
    OneCharacter("k");
    hide Reachable, NulFree, RequestHash;
    var s0 := TwoCalls(timeout, e, CreateStage.Reading, CreateStage.Reading);
    var s1 := TwoCalls(timeout, e, Inserting, CreateStage.Reading);
    var s2 := TwoCalls(timeout, e, Inserting, Inserting);
    assert s0.creators[0 := Creator(CallWith(e), Inserting)] == s1.creators;
    ReachStep(pol, s0, ReadKey(0), s1);
    assert s1.creators[1 := Creator(CallWith(e), Inserting)] == s2.creators;
    ReachStep(pol, s1, ReadKey(1), s2);
  }

  lemma FirstInserts(timeout: nat, e: string)
    requires e == "" || e == "e"
    ensures InsertTx(Registered(timeout).db, CallWith(e), 3, 4, 0).Ok?
  {
    hide RequestHash, NulFree, AmountColumn, Normalize, InsertPayoutRow;
    FirstRow(Registered(timeout).db, e);
    OneCharacter("k");
  }

  lemma FirstRow(db: Db, e: string)
    requires e == "" || e == "e"
    requires db == Db(map[1 := Client(None)], map[2 := FundingSource(1, "x")], map[], map[], map[])
    ensures InsertPayoutRow(db, 3, PayoutParams(CallWith(e))).Ok?
    ensures InsertPayoutRow(db, 3, PayoutParams(CallWith(e))).value.payouts.Keys == {3}
    ensures InsertPayoutRow(db, 3, PayoutParams(CallWith(e))).value
         == db.(payouts := InsertPayoutRow(db, 3, PayoutParams(CallWith(e))).value.payouts)
  {
    hide RequestHash, NulFree, AmountColumn, Normalize;
    WithNormalizes(e);
    OneIsStored();
    OneCharacter("a");
    OneCharacter("b");
    OneCharacter("c");
  }

  /** The first commits, the second inserts. */
  lemma SecondInserts(timeout: nat, e: string) returns (s1: Sys, s2: Sys)
    requires e == "" || e == "e"
    ensures var s := TwoCalls(timeout, e, Inserting, Inserting);
      && Reachable(UNRESTRICTED, s)
      && Step(UNRESTRICTED, s, Insert(0, 3, 4, true), s1) && s1.db != s.db && 5 !in s1.db.payouts
      && 1 in s1.creators && s1.creators[1] == Creator(CallWith(e), Inserting)
      && Step(UNRESTRICTED, s1, Insert(1, 5, 6, true), s2)
  {
    hide Reachable, InsertTx, ReplyWith, RequestHash, NewRow;
    BothFindNoKey(UNRESTRICTED, timeout, e);
    FirstInserts(timeout, e);
    var s := TwoCalls(timeout, e, Inserting, Inserting);
    InsertTxEffect(s.db, CallWith(e), 3, 4, 0);
    s1 := DoInsert(s, 0, 3, 4, true).value;
    s2 := DoInsert(s1, 1, 5, 6, true).value;
  }

  /** Two calls with one key and one request, external id "e", both find no key. The first
      commits; the second's insert ends with a duplicate external id, it leaves no row and
      answers nothing, although its request is the stored one. */
  lemma LoserIsRefused(timeout: nat) returns (s: Sys, s1: Sys, s2: Sys)
    ensures Reachable(UNRESTRICTED, s) && s == TwoCalls(timeout, "e", Inserting, Inserting)
    ensures Step(UNRESTRICTED, s, Insert(0, 3, 4, true), s1) && Step(UNRESTRICTED, s1, Insert(1, 5, 6, true), s2)
    ensures s2.db == s1.db != s.db && 1 !in s2.creators && s2.history.replies == s1.history.replies
    ensures InsertTx(s1.db, CallWith("e"), 5, 6, s1.now) == Err(DuplicateExternalId)
  {
    hide Reachable, Step, InsertTx, TwoCalls, DoInsert, RequestHash;
    s := TwoCalls(timeout, "e", Inserting, Inserting);
    s1, s2 := SecondInserts(timeout, "e");
    TwoCallsAre(timeout, "e");
    assert Runs(UNRESTRICTED, s1, [], s1);
    LoserOfConcurrentInsert(UNRESTRICTED, s, 0, 3, 4, true, s1, [], s1, 1, 5, 6, true, s2, [], s2);
    StoresForSecond(s, s1, "e");
  }

  /** Without an external id the second comes to read again, and answers with the first's payout. */
  lemma LoserIsAnswered(timeout: nat) returns (s: Sys, s1: Sys, s2: Sys)
    ensures Reachable(UNRESTRICTED, s) && s == TwoCalls(timeout, "", Inserting, Inserting)
    ensures Step(UNRESTRICTED, s, Insert(0, 3, 4, true), s1) && Step(UNRESTRICTED, s1, Insert(1, 5, 6, true), s2)
    ensures s2.db == s1.db != s.db && 1 in s2.creators
    ensures Do(s2, Reload(1)) == Some(Answering(s2, 1, Ok(3)))
  {
    hide Reachable, Step, InsertTx, TwoCalls, DoInsert, RequestHash, Answering, Do;
    s := TwoCalls(timeout, "", Inserting, Inserting);
    s1, s2 := SecondInserts(timeout, "");
    TwoCallsAre(timeout, "");
    assert Runs(UNRESTRICTED, s1, [], s1) && Runs(UNRESTRICTED, s2, [], s2);
    LoserOfConcurrentInsert(UNRESTRICTED, s, 0, 3, 4, true, s1, [], s1, 1, 5, 6, true, s2, [], s2);
  }

  lemma TwoCallsAre(timeout: nat, e: string)
    ensures var s := TwoCalls(timeout, e, Inserting, Inserting);
      0 in s.creators && 1 in s.creators && s.creators[0] == s.creators[1] == Creator(CallWith(e), Inserting)
  {
  }

  lemma StoresForSecond(s: Sys, s1: Sys, e: string)
    requires Reachable(UNRESTRICTED, s) && 0 in s.creators && s.creators[0] == Creator(CallWith(e), Inserting)
    requires Step(UNRESTRICTED, s, Insert(0, 3, 4, true), s1) && s1.db != s.db && 5 !in s1.db.payouts
    ensures InsertTx(s1.db, CallWith(e), 5, 6, s1.now) == Err(if e == "" then ConcurrentKeyInsert else DuplicateExternalId)
  {
    hide Reachable, InsertTx, DoInsert, RequestHash, RequestStored, WellFormed, Runs;
    InsertAction(UNRESTRICTED, s, 0, 3, 4, true, s1);
    WinnerStores(s, 0, 3, 4, true, s1, CallWith(e));
    RunOne(UNRESTRICTED, s, Insert(0, 3, 4, true), s1);
    ReachableAfter(UNRESTRICTED, s, [Insert(0, 3, 4, true)], s1);
    CreatorWellFormed(UNRESTRICTED, s, 0);
    SecondInsertFails(UNRESTRICTED, s1, CallWith(e), 5, 6);
  }

  // ---------------------------------------------------------------- one worker, one result

  function One(stage: WorkerStage): map<nat, Worker> { map[0 := Worker(true, MESSAGE, stage)] }

  lemma OneMoves(s: Sys, stage: WorkerStage, next: WorkerStage)
    requires s.workers == One(stage)
    ensures 0 in s.workers && s.workers[0] == Worker(true, MESSAGE, stage)
    ensures SetStage(s, 0, next) == s.(workers := One(next))
  {
    assert One(stage)[0 := Worker(true, MESSAGE, next)] == One(next);
  }

  const STARTED := ROW.(status := Processing)

  /** The payout's message delivered, with the queue empty and nobody else at work. */
  lemma DeliveredIsReachable(pol: Policy, timeout: nat) returns (s: Sys)
    ensures Reachable(pol, s) && s.queue == multiset{} && s.workers == One(Received) && s.db.payouts == map[3 := ROW]
    ensures s.db.clients == map[1 := Client(None)] && s.db.sources == map[2 := FundingSource(1, "x")]
  {
    hide Reachable;
    var queued := QueuedIsReachable(pol, timeout);
    assert queued.workers[0 := Worker(true, MESSAGE, Received)] == One(Received);
    s := queued.(queue := multiset{}, workers := One(Received));
    assert queued.queue - multiset{MESSAGE} == multiset{};
    ReachStep(pol, queued, Deliver(0, MESSAGE), s);
  }

  lemma PreparedIsReachable(pol: Policy, timeout: nat) returns (s: Sys)
    ensures Reachable(pol, s) && s.queue == multiset{} && s.workers == One(Ready(EXECUTE)) && s.db.payouts == map[3 := STARTED]
    ensures s.db.clients == map[1 := Client(None)] && s.db.sources == map[2 := FundingSource(1, "x")]
  {
    hide Reachable, PrepareTx, SetStage, One;
    var delivered := DeliveredIsReachable(pol, timeout);
    PreparesOk(delivered.db, ROW);
    var db := delivered.db.(payouts := map[3 := STARTED]);
    OneMoves(delivered, Received, Ready(EXECUTE));
    OneMoves(delivered.(db := db), Received, Ready(EXECUTE));
    s := delivered.(db := db, workers := One(Ready(EXECUTE)));
    ReachStep(pol, delivered, Prepare(0), s);
  }

  lemma CallingIsReachable(pol: Policy, timeout: nat) returns (s: Sys)
    ensures Reachable(pol, s) && s.queue == multiset{} && s.workers == One(Calling(EXECUTE)) && s.db.payouts == map[3 := STARTED]
    ensures s.db.clients == map[1 := Client(None)] && s.db.sources == map[2 := FundingSource(1, "x")]
  {
    hide Reachable, SetStage, One;
    var prepared := PreparedIsReachable(pol, timeout);
    OneMoves(prepared, Ready(EXECUTE), Calling(EXECUTE));
    s := DoCallProvider(prepared, 0).value;
    ReachStep(pol, prepared, CallProvider(0), s);
  }

  /** The worker has a result that the policy allows. */
  lemma AnsweredIsReachable(pol: Policy, timeout: nat, result: ProviderResult) returns (s: Sys)
    requires ResultAllowed(pol, EXECUTE.input, result)
    ensures Reachable(pol, s) && s.queue == multiset{} && s.workers == One(Answered(EXECUTE, result))
    ensures s.db.payouts == map[3 := STARTED] && s.db.clients == map[1 := Client(None)]
    ensures s.db.sources == map[2 := FundingSource(1, "x")]
  {
    hide Reachable, SetStage, One, ValidateResult;
    var calling := CallingIsReachable(pol, timeout);
    OneMoves(calling, Calling(EXECUTE), Answered(EXECUTE, result));
    s := calling.(workers := One(Answered(EXECUTE, result)));
    ReachStep(pol, calling, Answer(0, Some(result)), s);
  }

  // ---------------------------------------------------------------- a failed job comes back

  /** One delivery at a time, contract results, relays in time. */
  ghost const ONE_BY_ONE: Policy := Policy(true, true, true, None)

  lemma RefusedIsValid()
    ensures ValidateResult(REFUSED)
  {
    TrimTrimmed("x");
  }

  lemma RefusedRecorded(s: Sys) returns (s': Sys)
    requires s.workers == One(Answered(EXECUTE, REFUSED)) && s.db.clients == map[1 := Client(None)]
    requires s.db.payouts == map[3 := STARTED]
    ensures DoRecord(s, 0, 5) == Some(s') && s'.workers == One(Acking) && s'.queue == s.queue
    ensures IsFailed(s'.db, 3)
  {
    hide RecordTx, SetStage, One, SeenColumn;
    RecordsRefused(s.db, s.now);
    var db := RecordTx(s.db, 3, REFUSED, 5, s.now).value;
    OneMoves(s, Answered(EXECUTE, REFUSED), Acking);
    OneMoves(s.(db := db), Answered(EXECUTE, REFUSED), Acking);
    s' := DoRecord(s, 0, 5).value;
  }

  /** A worker records a failure and dies before its ack: the payout is failed and its job
      is queued, where it stays from then on in every run. */
  lemma FailedJobComesBack(timeout: nat) returns (s: Sys)
    ensures Reachable(ONE_BY_ONE, s) && MESSAGE in s.queue && IsFailed(s.db, MESSAGE.entityId) && s.workers == map[]
    ensures forall acts, s' :: Runs(ONE_BY_ONE, s, acts, s') ==> InTransit(s'.queue, s'.workers, MESSAGE)
  {
    hide Reachable, Runs, InTransit, IsFailed, DoRecord, One, ValidateResult;
    RefusedIsValid();
    var answered := AnsweredIsReachable(ONE_BY_ONE, timeout, REFUSED);
    var recorded := RefusedRecorded(answered);
    ReachStep(ONE_BY_ONE, answered, Record(0, 5), recorded);
    s := CrashesAtAck(recorded);
    ReachStep(ONE_BY_ONE, recorded, WorkerCrash(0), s);
    forall acts, s' | Runs(ONE_BY_ONE, s, acts, s') ensures InTransit(s'.queue, s'.workers, MESSAGE) {
      FailedJobNeverLeaves(ONE_BY_ONE, s, acts, s', MESSAGE);
    }
  }

  lemma CrashesAtAck(s: Sys) returns (s': Sys)
    requires s.workers == One(Acking)
    ensures DoWorkerCrash(s, 0) == Some(s') && s'.workers == map[] && MESSAGE in s'.queue && s'.db == s.db
  {
    s' := DoWorkerCrash(s, 0).value;
    assert s.workers - {0} == map[];
  }

  // ---------------------------------------------------------------- a result that cannot be stored

  const UNSTORABLE := ProviderResult(Failed, "a\0b")

  function AlwaysUnstorable(input: ProviderInput): ProviderResult { UNSTORABLE }

  /** The provider meets its contract, and every answer has a zero byte in its reason. */
  ghost const STUBBORN: Policy := Policy(true, true, true, Some(AlwaysUnstorable))

  lemma UnstorableIsValid()
    ensures ValidateResult(UNSTORABLE) && !Recordable(UNSTORABLE)
  {
    TrimTrimmed("a\0b");
    assert !Blank("a\0b");
    assert "a\0b"[1] == NUL;
  }

  /** A reachable state in which the worker has such a result: its recording fails, the
      payout stays in processing, the message is to be requeued, and no run from there
      makes the payout final. */
  lemma UnstorableReasonIsStuck(timeout: nat) returns (s: Sys, s': Sys)
    ensures Reachable(STUBBORN, s) && Step(STUBBORN, s, Record(0, 5), s')
    ensures s'.db == s.db && s'.workers == One(Requeueing) && s.db.payouts == map[3 := STARTED]
    ensures !CanFinish(STUBBORN, s, 3)
  {
    UnstorableIsValid();
    hide Reachable, One, ValidateResult, Recordable, CanFinish, InputOf;
    s := AnsweredIsReachable(STUBBORN, timeout, UNSTORABLE);
    s' := UnstorableRefused(s);
    CanFinishIff(STUBBORN, s, 3);
  }

  lemma UnstorableRefused(s: Sys) returns (s': Sys)
    requires s.workers == One(Answered(EXECUTE, UNSTORABLE)) && s.db.payouts == map[3 := STARTED]
    requires s.db.clients == map[1 := Client(None)]
    ensures DoRecord(s, 0, 5) == Some(s') && s'.db == s.db && s'.workers == One(Requeueing)
  {
    UnstorableIsValid();
    hide RecordTx, SetStage, One, SeenColumn, Recordable, TargetUrl;
    RecordTxEffect(s.db, 3, UNSTORABLE, 5, s.now);
    OneMoves(s, Answered(EXECUTE, UNSTORABLE), Requeueing);
    s' := DoRecord(s, 0, 5).value;
  }
}
