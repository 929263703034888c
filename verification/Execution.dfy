/** The worker: the execution of one event in two transactions around the provider call,
    and the handling of one delivery. */
module Execution {
  import opened Prelude
  import opened Decimal
  import opened Text
  import opened Domain
  import opened Tables
  import opened Transactions
  import opened Database
  import opened Pipeline

  /** What happens to one execution: how its transactions go, what the provider answers
      (None is an error), and the tables other commits have left when the result is
      recorded (None when there were none). */
  datatype ExecCourse = ExecCourse(
    prepare: TxCourse, answer: Option<ProviderResult>, atRecord: Option<Db>, record: TxCourse, eventId: Id, now: int)

  /** What an execution answers, the tables it leaves and the provider call it made. */
  datatype Executed = Executed(reply: Result<(), ExecError>, db: Db, called: Option<ProviderInput>)

  function HandleResult(db: Db, eventType: EventType, payload: Payload, course: ExecCourse): Executed {
    if eventType != ProcessPayout then Executed(Err(UnsupportedEvent), db, None)
    else if payload.Unreadable? then Executed(Err(InvalidOutboxPayload), db, None)
    else if course.prepare.BeginFails? then Executed(Err(StoreError(Unavailable)), db, None)
    else
      match PrepareTx(db, payload.clientId, payload.payoutId)
      case Err(e) => Executed(Err(e), db, None)
      case Ok((after, prepared)) =>
        var ended := Ended(course.prepare, db, after);
        if course.prepare.CommitFails? then Executed(Err(StoreError(Unavailable)), ended, None)
        else if !prepared.shouldExecute then Executed(Ok(()), ended, None)
        else
          match course.answer
          case None => Executed(Err(ProviderError), ended, Some(prepared.input))
          case Some(result) =>
            var (reply, recorded) := RecordResult(course.atRecord.GetOr(ended), prepared.payoutId, result, course);
            Executed(reply, recorded, Some(prepared.input))
  }

  function RecordResult(db: Db, payoutId: Id, result: ProviderResult, course: ExecCourse): (Result<(), ExecError>, Db) {
    if course.record.BeginFails? then (Err(StoreError(Unavailable)), db)
    else
      match RecordTx(db, payoutId, result, course.eventId, course.now)
      case Err(e) => (Err(e), db)
      case Ok(after) =>
        (if course.record.CommitFails? then Err(StoreError(Unavailable)) else Ok(()), Ended(course.record, db, after))
  }

  class Handler {
    const store: Database

    constructor (store: Database)
      ensures this.store == store
    {
      this.store := store;
    }

    /** An error leaves a possible status update for the rollback to undo. */
    method PrepareExecutionInTx(clientId: Id, payoutId: Id) returns (r: Result<Prepared, ExecError>)
      modifies store
      ensures store.saved == old(store.saved)
      ensures match PrepareTx(old(store.View()), clientId, payoutId)
        case Ok((after, prepared)) => store.View() == after && r == Ok(prepared)
        case Err(e) => r == Err(e)
    {
      var found := store.GetPayoutByClientID(clientId, payoutId);
      if found.Err? {
        return Err(StoreError(found.error));
      }
      var payout := found.value;
      var source := store.GetFundingSourceByClientID(clientId, payout.fundingSourceId);
      if source.Err? {
        return Err(StoreError(source.error));
      }
      match payout.status {
        case Pending =>
          var updated := store.UpdatePayoutStatus(payoutId, Processing);
          match updated {
            case Err(e) => return Err(StoreError(e));
            case Ok(row) => payout := row;
          }
        case Processing =>
        case Succeeded =>
          var input := ProviderInput(payoutId, payout.fundingSourceId, source.value.paymentAccountId, "", payout.currency);
          return Ok(Prepared(payoutId, input, false));
        case _ => return Err(PayoutNotReady);
      }
      match NumericString(payout.amount) {
        case Unsupported => return Err(UnsupportedNumeric);
        case Panics => return Err(NumericPanic);
        case Printed(amount) =>
          var input := ProviderInput(payoutId, payout.fundingSourceId, source.value.paymentAccountId, amount, payout.currency);
          return Ok(Prepared(payoutId, input, true));
      }
    }

    method PrepareExecution(clientId: Id, payoutId: Id, course: TxCourse) returns (r: Result<Prepared, ExecError>)
      requires store.saved == None
      modifies store
      ensures store.saved == None
      ensures course.BeginFails? ==> r == Err(StoreError(Unavailable)) && store.View() == old(store.View())
      ensures !course.BeginFails? ==>
        match PrepareTx(old(store.View()), clientId, payoutId)
        case Err(e) => r == Err(e) && store.View() == old(store.View())
        case Ok((after, prepared)) =>
          && r == (if course.CommitFails? then Err(StoreError(Unavailable)) else Ok(prepared))
          && store.View() == Ended(course, old(store.View()), after)
    {
      if course.BeginFails? {
        return Err(StoreError(Unavailable));
      }
      store.Begin();
      r := PrepareExecutionInTx(clientId, payoutId);
      if r.Err? {
        store.Rollback();
        return;
      }
      var committed := store.Commit(course);
      if !committed {
        r := Err(StoreError(Unavailable));
      }
    }

    /** `payout` is the row as the update left it. */
    method CreateWebhookOutboxEventIfConfigured(payoutId: Id, payout: Payout, eventId: Id, now: int) returns (r: Result<(), ExecError>)
      requires payoutId in store.payouts && store.payouts[payoutId] == payout
      modifies store`events
      ensures Performed(old(store.View()), store.View(), WebhookTx(old(store.View()), payoutId, eventId, now), r)
      ensures r.Ok? ==> r == Ok(())
    {
      var found := store.GetClientById(payout.clientId);
      if found.Err? {
        return Err(StoreError(found.error));
      }
      var targetUrl := Trim(found.value.webhookUrl.GetOr(""));
      if found.value.webhookUrl == None || targetUrl == "" {
        return Ok(());
      }
      var payload := WebhookPayload(payoutId, payout.clientId, targetUrl, payout.status, payout.failureReason.GetOr(""));
      var created := store.CreateOutboxEvent(eventId, PayoutResultWebhook, payoutId, payload, now);
      if created.Err? {
        return Err(StoreError(created.error));
      }
      return Ok(());
    }

    /** An error leaves a possible status update for the rollback to undo. */
    method RecordExecutionResultInTx(payoutId: Id, result: ProviderResult, eventId: Id, now: int) returns (r: Result<(), ExecError>)
      modifies store
      ensures store.saved == old(store.saved)
      ensures match RecordTx(old(store.View()), payoutId, result, eventId, now)
        case Ok(after) => store.View() == after && r == Ok(())
        case Err(e) => r == Err(e)
    {
      var updated;
      match result.status {
        case Succeeded =>
          updated := store.UpdatePayoutStatus(payoutId, Succeeded);
        case Failed =>
          var reason := if Trim(result.failureReason) != "" then Some(result.failureReason) else None;
          updated := store.UpdatePayoutFailure(payoutId, reason);
        case _ => return Err(UnsupportedProviderResult);
      }
      if updated.Err? {
        return Err(StoreError(updated.error));
      }
      r := CreateWebhookOutboxEventIfConfigured(payoutId, updated.value, eventId, now);
    }

    method RecordExecutionResult(payoutId: Id, result: ProviderResult, course: ExecCourse) returns (r: Result<(), ExecError>)
      requires store.saved == None
      modifies store
      ensures store.saved == None
      ensures (r, store.View()) == RecordResult(old(store.View()), payoutId, result, course)
    {
      if course.record.BeginFails? {
        return Err(StoreError(Unavailable));
      }
      store.Begin();
      r := RecordExecutionResultInTx(payoutId, result, course.eventId, course.now);
      if r.Err? {
        store.Rollback();
        return;
      }
      var committed := store.Commit(course.record);
      if !committed {
        r := Err(StoreError(Unavailable));
      }
    }

    method HandleEvent(eventType: EventType, payload: Payload, course: ExecCourse)
      returns (r: Result<(), ExecError>, called: Option<ProviderInput>)
      requires store.saved == None
      modifies store
      ensures store.saved == None
      ensures Executed(r, store.View(), called) == HandleResult(old(store.View()), eventType, payload, course)
    {
      called := None;
      if eventType != ProcessPayout {
        return Err(UnsupportedEvent), called;
      }
      if payload.Unreadable? {
        return Err(InvalidOutboxPayload), called;
      }
      var prepared := PrepareExecution(payload.clientId, payload.payoutId, course.prepare);
      if prepared.Err? {
        return Err(prepared.error), called;
      }
      if !prepared.value.shouldExecute {
        return Ok(()), called;
      }
      called := Some(prepared.value.input);
      if course.answer == None {
        return Err(ProviderError), called;
      }
      if course.atRecord.Some? {
        store.OthersCommit(course.atRecord.value);
      }
      r := RecordExecutionResult(prepared.value.payoutId, course.answer.value, course);
    }
  }

  // ---------------------------------------------------------------- deliveries

  datatype Settlement = Unsettled | Acked | Nacked(requeue: bool)

  class Delivery {
    const body: Msg
    var settlement: Settlement

    constructor (body: Msg)
      ensures this.body == body && settlement == Unsettled
    {
      this.body, settlement := body, Unsettled;
    }

    method Ack(works: bool) returns (ok: bool)
      modifies this
      ensures ok == works && settlement == if works then Acked else old(settlement)
    {
      if works {
        settlement := Acked;
      }
      ok := works;
    }

    method Nack(requeue: bool, works: bool) returns (ok: bool)
      modifies this
      ensures ok == works && settlement == if works then Nacked(requeue) else old(settlement)
    {
      if works {
        settlement := Nacked(requeue);
      }
      ok := works;
    }
  }

  /** A message that does not decode is dropped; one whose handling failed goes back to
      the queue; only a handled one is acknowledged. */
  function SettlementFor(db: Db, msg: Msg, course: ExecCourse): Settlement {
    match msg
    case Malformed => Nacked(false)
    case Job(_, eventType, _, payload) =>
      if HandleResult(db, eventType, payload, course).reply.Ok? then Acked else Nacked(true)
  }

  class Worker {
    const handler: Handler

    constructor (handler: Handler)
      ensures this.handler == handler
    {
      this.handler := handler;
    }

    /** `settles` is whether the broker takes the ack or nack. */
    method HandleDelivery(delivery: Delivery, course: ExecCourse, settles: bool)
      returns (ok: bool, called: Option<ProviderInput>)
      requires handler.store.saved == None && delivery.settlement == Unsettled
      modifies handler.store, delivery
      ensures handler.store.saved == None && ok == settles
      ensures delivery.settlement == if settles then SettlementFor(old(handler.store.View()), delivery.body, course) else Unsettled
      ensures delivery.body.Malformed? ==> handler.store.View() == old(handler.store.View()) && called == None
      ensures delivery.body.Job? ==>
        var executed := HandleResult(old(handler.store.View()), delivery.body.eventType, delivery.body.payload, course);
        handler.store.View() == executed.db && called == executed.called
    {
      called := None;
      match delivery.body {
        case Malformed =>
          ok := delivery.Nack(false, settles);
        case Job(_, eventType, _, payload) =>
          var r;
          r, called := handler.HandleEvent(eventType, payload, course);
          if r.Err? {
            ok := delivery.Nack(true, settles);
          } else {
            ok := delivery.Ack(settles);
          }
      }
    }
  }
}
