/** The payout lifecycle, the provider's result contract and the provider simulator. */
module Domain {
  import opened Prelude
  import opened Text

  /** A status is a string in the program; `Other` is any string but the four known ones. */
  datatype Status = Pending | Processing | Succeeded | Failed | Other(text: string) {
    predicate Valid() { !Other? }

    /** A payout in a final status is done with. */
    predicate Final() { Succeeded? || Failed? }
  }

  predicate CanTransition(before: Status, after: Status) {
    match before
    case Pending => after == Processing
    case Processing => after == Succeeded || after == Failed
    case _ => false
  }

  /** Among the known statuses the final ones are exactly those that nothing leads out of. */
  lemma FinalIffNoTransition(s: Status)
    requires s.Valid()
    ensures s.Final() <==> forall next :: !CanTransition(s, next)
  {
    if s.Pending? {
      assert CanTransition(s, Processing);
    } else if s.Processing? {
      assert CanTransition(s, Succeeded);
    }
  }

  function Rank(s: Status): nat {
    match s
    case Pending => 0
    case Processing => 1
    case Succeeded => 2
    case Failed => 2
    case Other(_) => 3
  }

  /** A status can change exactly to one of the next rank: no step is skipped or undone. */
  lemma TransitionIffNextRank(before: Status, after: Status)
    ensures CanTransition(before, after) <==> before.Valid() && after.Valid() && Rank(after) == Rank(before) + 1
  {
  }

  datatype ProviderInput = ProviderInput(
    payoutId: nat, fundingSourceId: nat, paymentAccountId: string, amount: string, currency: string)

  datatype ProviderResult = ProviderResult(status: Status, failureReason: string)

  type Provider = ProviderInput -> ProviderResult

  predicate Blank(s: string) { Trim(s) == "" }

  /** provider.ValidateResult: true stands for a nil error. */
  predicate ValidateResult(r: ProviderResult) {
    match r.status
    case Succeeded => Blank(r.failureReason)
    case Failed => !Blank(r.failureReason)
    case _ => false
  }

  /** The contract: a success without a reason, or a failure with one, white space being none. */
  lemma ContractIff(r: ProviderResult)
    ensures ValidateResult(r) <==>
      (r.status == Succeeded && AllSpace(r.failureReason)) || (r.status == Failed && !AllSpace(r.failureReason))
  {
    TrimEmptyIff(r.failureReason);
  }

  // ---------------------------------------------------------------- the simulator

  datatype Outcome = Unset | OutcomeSucceeded | OutcomeFailed | Unknown(text: string)

  datatype SimulatorConfig = SimulatorConfig(outcome: Outcome, failureReason: string)

  datatype SimulatorError = Cancelled | InvalidOutcome | InvalidResult

  const DEFAULT_REASON := "provider simulator rejected payout"

  function SimulatorResult(c: SimulatorConfig): Result<ProviderResult, SimulatorError> {
    match c.outcome
    case Unset => Ok(ProviderResult(Succeeded, ""))
    case OutcomeSucceeded => Ok(ProviderResult(Succeeded, ""))
    case OutcomeFailed =>
      var reason := Trim(c.failureReason);
      Ok(ProviderResult(Failed, if reason == "" then DEFAULT_REASON else reason))
    case Unknown(_) => Err(InvalidOutcome)
  }

  function Simulate(c: SimulatorConfig, cancelled: bool, input: ProviderInput): Result<ProviderResult, SimulatorError> {
    if cancelled then Err(Cancelled)
    else
      var result :- SimulatorResult(c);
      if ValidateResult(result) then Ok(result) else Err(InvalidResult)
  }

  lemma TrimTrimmed(s: string)
    requires Trimmed(s)
    ensures Trim(s) == s
  {
    TrimFindsCore("", s, "");
    assert "" + s + "" == s;
  }

  /** Every answer of the simulator meets the provider contract, the validation inside
      it never fires, and two answers under one configuration are equal. */
  lemma SimulatorMeetsContract(c: SimulatorConfig, input: ProviderInput, other: ProviderInput, cancelled: bool)
    ensures Simulate(c, cancelled, input).Ok? ==> ValidateResult(Simulate(c, cancelled, input).value)
    ensures Simulate(c, cancelled, input).Ok? <==> !cancelled && !c.outcome.Unknown?
    ensures Simulate(c, cancelled, input) != Err(InvalidResult)
    ensures Simulate(c, cancelled, input).Ok? ==> Simulate(c, cancelled, input) == Simulate(c, false, other)
  {
    hide ValidateResult, SimulatorResult;
    OnlyUnknownFails(c);
    if !c.outcome.Unknown? {
      ResultIsValid(c);
    }
  }

  lemma OnlyUnknownFails(c: SimulatorConfig)
    ensures SimulatorResult(c).Ok? <==> !c.outcome.Unknown?
    ensures SimulatorResult(c) != Err(InvalidResult)
  {
    hide Trim;
  }

  lemma ResultIsValid(c: SimulatorConfig)
    requires !c.outcome.Unknown?
    ensures SimulatorResult(c).Ok? && ValidateResult(SimulatorResult(c).value)
  {
    TrimTrimmed("");
    TrimTrimmed(DEFAULT_REASON);
    TrimTrimmed(Trim(c.failureReason));
    assert DEFAULT_REASON != "";
    hide Trim;
  }

  /** The answer of every configuration, its reason written as a text between white space. */
  lemma SimulatorAnswers(c: SimulatorConfig, input: ProviderInput, before: string, core: string, after: string)
    requires c.failureReason == before + core + after && AllSpace(before) && AllSpace(after) && Trimmed(core)
    ensures Simulate(c, true, input) == Err(Cancelled)
    ensures Simulate(c, false, input) ==
      match c.outcome
      case Unset => Ok(ProviderResult(Succeeded, ""))
      case OutcomeSucceeded => Ok(ProviderResult(Succeeded, ""))
      case OutcomeFailed => Ok(ProviderResult(Failed, if core == "" then "provider simulator rejected payout" else core))
      case Unknown(_) => Err(InvalidOutcome)
  {
    TrimFindsCore(before, core, after);
    hide Trim, ValidateResult;
    if !c.outcome.Unknown? {
      ResultIsValid(c);
    }
  }
}
