/**
 * The create-battle page: the form's validation chain, the submission
 * pipeline (connected check, validation, chain switch, argument building,
 * contract write) and the three-step wizard.
 *
 * Time is an integer number of milliseconds since the epoch, the stake an
 * integer number of wei. The wallet, the chain switch and the contract write
 * are outcomes given as parameters.
 */
module CreateBattle {
  import opened Wrappers
  import opened Text

  /** Chain id of Base mainnet, the chain every write targets. */
  const BaseMainnetChainId: int := 8453
  /** A battle must end strictly more than one hour from now. */
  const MinDurationMs: int := 60 * 60 * 1000
  /** Fixed gas limit of the `createBattle` write. */
  const CreateBattleGas: nat := 500000
  /** The form's initial stake, "0.01" ETH, in wei. */
  const DefaultStakeWei: nat := 10_000_000_000_000_000

  /** The values the form holds when it is submitted. `endDateMs` is `None` while the date input is empty. */
  datatype Form = Form(
    prediction: string,
    description: string,
    stakeWei: nat,
    endDateMs: Option<int>,
    challengerSaysYes: bool,
    specificOpponent: string)

  // ---------------------------------------------------------------------
  // validateForm
  // ---------------------------------------------------------------------

  /** The checks of `validateForm`, each naming the error it reports. */
  datatype ValidationError =
    | PredictionRequired
    | DescriptionRequired
    | EndDateRequired
    | TooShort
    | OpponentPrefix

  /** The message `validateForm` returns for each failed check. */
  function Message(e: ValidationError): string {
    match e
    case PredictionRequired => "Prediction is required"
    case DescriptionRequired => "Description is required"
    case EndDateRequired => "End date is required"
    case TooShort => "Battle must last at least 1 hour"
    case OpponentPrefix => "Opponent address must start with 0x"
  }

  /** The position of each check in the chain. */
  function Order(e: ValidationError): nat {
    match e
    case PredictionRequired => 0
    case DescriptionRequired => 1
    case EndDateRequired => 2
    case TooShort => 3
    case OpponentPrefix => 4
  }

  /** What each check accepts, stated on its own. */
  predicate Passes(form: Form, nowMs: int, e: ValidationError) {
    match e
    case PredictionRequired => !IsBlank(form.prediction)
    case DescriptionRequired => !IsBlank(form.description)
    case EndDateRequired => form.endDateMs.Some?
    case TooShort => form.endDateMs.None? || form.endDateMs.value > nowMs + MinDurationMs
    case OpponentPrefix => form.specificOpponent == [] || StartsWith(form.specificOpponent, "0x")
  }

  /**
   * `validateForm`: `None` when every check passes, otherwise the first
   * failing check in the fixed order prediction, description, end date
   * present, minimum duration, opponent prefix.
   */
  function ValidateForm(form: Form, nowMs: int): (r: Option<ValidationError>)
    ensures r.None? <==> forall e :: Passes(form, nowMs, e)
    ensures r.Some? ==>
      && !Passes(form, nowMs, r.value)
      && forall e :: Order(e) < Order(r.value) ==> Passes(form, nowMs, e)
  {
    TrimEmptyIffBlank(form.prediction);
    TrimEmptyIffBlank(form.description);
    if Trim(form.prediction) == [] then
      assert !Passes(form, nowMs, PredictionRequired);
      Some(PredictionRequired)
    else if Trim(form.description) == [] then
      assert !Passes(form, nowMs, DescriptionRequired);
      Some(DescriptionRequired)
    else if form.endDateMs.None? then
      assert !Passes(form, nowMs, EndDateRequired);
      Some(EndDateRequired)
    else if form.endDateMs.value <= nowMs + MinDurationMs then
      assert !Passes(form, nowMs, TooShort);
      Some(TooShort)
    else if form.specificOpponent != [] && !StartsWith(form.specificOpponent, "0x") then
      assert !Passes(form, nowMs, OpponentPrefix);
      Some(OpponentPrefix)
    else
      AllPass(form, nowMs);
      None
  }

  lemma AllPass(form: Form, nowMs: int)
    requires !IsBlank(form.prediction) && !IsBlank(form.description)
    requires form.endDateMs.Some? && form.endDateMs.value > nowMs + MinDurationMs
    requires form.specificOpponent == [] || StartsWith(form.specificOpponent, "0x")
    ensures forall e :: Passes(form, nowMs, e)
  {
    forall e ensures Passes(form, nowMs, e) {
      match e
      case PredictionRequired =>
      case DescriptionRequired =>
      case EndDateRequired =>
      case TooShort =>
      case OpponentPrefix =>
    }
  }

  /** An end date exactly one hour from now is rejected; the minimum is strict. */
  lemma ExactlyOneHourIsTooShort(form: Form, nowMs: int)
    requires !IsBlank(form.prediction) && !IsBlank(form.description)
    requires form.endDateMs == Some(nowMs + MinDurationMs)
    ensures ValidateForm(form, nowMs) == Some(TooShort)
  {
    assert !Passes(form, nowMs, TooShort);
  }

  /**
   * The opponent check looks at the untrimmed input: a non-empty opponent of
   * whitespace only is rejected, and the length of a "0x" input is not checked.
   */
  lemma OpponentCheckIsPrefixOnly(form: Form, nowMs: int)
    requires !IsBlank(form.prediction) && !IsBlank(form.description)
    requires form.endDateMs.Some? && form.endDateMs.value > nowMs + MinDurationMs
    ensures form.specificOpponent == [] ==> ValidateForm(form, nowMs).None?
    ensures StartsWith(form.specificOpponent, "0x") ==> ValidateForm(form, nowMs).None?
    ensures form.specificOpponent != [] && IsBlank(form.specificOpponent) ==>
              ValidateForm(form, nowMs) == Some(OpponentPrefix)
  {
    if form.specificOpponent != [] && IsBlank(form.specificOpponent) {
      BlankIsNotHex(form.specificOpponent);
    }
  }

  /** A blank string does not start with "0x". */
  lemma BlankIsNotHex(s: string)
    requires IsBlank(s)
    ensures !StartsWith(s, "0x")
  {
    if |s| >= 2 {
      assert IsWhitespace(s[0]);
    }
  }

  // ---------------------------------------------------------------------
  // handleSubmit
  // ---------------------------------------------------------------------

  /** What `useAccount` reports: `isConnected`, `address`, `chain?.id`. */
  datatype Wallet = Wallet(isConnected: bool, address: Option<string>, chainId: Option<int>)

  /** `isConnected && address` (an empty address string is falsy). */
  function HasAccount(wallet: Wallet): (r: bool)
    ensures r ==> wallet.isConnected && wallet.address.Some? && wallet.address.value != ""
    ensures !wallet.isConnected || wallet.address.None? ==> !r
  {
    wallet.isConnected && wallet.address.Some? && wallet.address.value != ""
  }

  /** How `switchChain` ends: resolved, or rejected with an `Error`'s message (`None` for a non-`Error` value). */
  datatype SwitchOutcome = Switched | SwitchRejected(reason: Option<string>)

  /**
   * How the `writeContract` call ends: `onSuccess`, `onError` with the
   * error's message, or a synchronous throw caught at the call site
   * (`None` for a non-`Error` value).
   */
  datatype WriteOutcome = Confirmed | Rejected(reason: string) | PreparationFailed(thrown: Option<string>)

  /** The arguments of the `createBattle` write. */
  datatype CreateBattleCall = CreateBattleCall(
    prediction: string,
    description: string,
    endTime: int,
    challengerSaysYes: bool,
    opponent: string,
    value: nat,
    chainId: int,
    gas: nat)

  /** `Math.floor(ms / 1000)`: the whole second the instant falls in. */
  function EndTimeSeconds(ms: int): (r: int)
    ensures r * 1000 <= ms < r * 1000 + 1000
  {
    ms / 1000
  }

  /** `specificOpponent.trim() || zero address`. */
  function OpponentArgument(raw: string): (r: string)
    ensures r == ZeroAddress || r == Trim(raw)
    ensures r == ZeroAddress <==> IsBlank(raw) || Trim(raw) == ZeroAddress
  {
    TrimEmptyIffBlank(raw);
    if Trim(raw) == [] then ZeroAddress else Trim(raw)
  }

  /** The write's arguments, built once the form has passed validation. */
  function Arguments(form: Form): (call: CreateBattleCall)
    requires form.endDateMs.Some?
    ensures call.prediction == Trim(form.prediction) && call.description == Trim(form.description)
    ensures call.endTime * 1000 <= form.endDateMs.value < call.endTime * 1000 + 1000
    ensures call.challengerSaysYes == form.challengerSaysYes
    ensures call.opponent == ZeroAddress || call.opponent == Trim(form.specificOpponent)
    ensures call.value == form.stakeWei && call.chainId == BaseMainnetChainId && call.gas == CreateBattleGas
  {
    CreateBattleCall(
      Trim(form.prediction),
      Trim(form.description),
      EndTimeSeconds(form.endDateMs.value),
      form.challengerSaysYes,
      OpponentArgument(form.specificOpponent),
      form.stakeWei,
      BaseMainnetChainId,
      CreateBattleGas)
  }

  /** Where one run of `handleSubmit` stops. */
  datatype SubmitOutcome =
    | NotConnected
    | Invalid(error: ValidationError)
    | SwitchFailed(reason: Option<string>)
    | Sent(switched: bool, call: CreateBattleCall, result: WriteOutcome)

  /** The run asked the wallet to switch chain. */
  predicate RequestsSwitch(o: SubmitOutcome) {
    o.SwitchFailed? || (o.Sent? && o.switched)
  }

  /** The run called `writeContract`. */
  predicate Writes(o: SubmitOutcome) {
    o.Sent?
  }

  const NotConnectedMessage: string := "Please connect your wallet first"
  const UnknownError: string := "Unknown error"

  function SwitchFailureMessage(reason: Option<string>): string {
    "Failed to switch to Base network: " + reason.GetOr(UnknownError)
  }

  /** The page's `error` text once the run has ended. */
  function ErrorText(o: SubmitOutcome): (r: string)
    ensures o.NotConnected? ==> r == NotConnectedMessage
    ensures o.Invalid? ==> r == Message(o.error)
    ensures o.SwitchFailed? ==> StartsWith(r, "Failed to switch to Base network: ")
    ensures o.Sent? && o.result.Confirmed? ==> r == ""
    ensures r == "" ==> o.Sent?
  {
    match o
    case NotConnected => NotConnectedMessage
    case Invalid(e) => Message(e)
    case SwitchFailed(reason) => SwitchFailureMessage(reason)
    case Sent(_, _, Confirmed) => ""
    case Sent(_, _, Rejected(reason)) => reason
    case Sent(_, _, PreparationFailed(thrown)) => thrown.GetOr(UnknownError)
  }

  /**
   * One run of `handleSubmit`. The steps happen in a fixed order and each
   * stops the run when it fails: without an account nothing else happens;
   * a validation failure comes before any chain switch; the switch is
   * requested only off Base mainnet and a rejected switch means no write;
   * otherwise the write is sent with the arguments built from the form.
   */
  function Submit(form: Form, wallet: Wallet, nowMs: int, switching: SwitchOutcome, writing: WriteOutcome): (r: SubmitOutcome)
    ensures r.NotConnected? <==> !HasAccount(wallet)
    ensures r.Invalid? <==> HasAccount(wallet) && ValidateForm(form, nowMs).Some?
    ensures r.Invalid? ==> r.error == ValidateForm(form, nowMs).value
    ensures RequestsSwitch(r) <==>
      HasAccount(wallet) && ValidateForm(form, nowMs).None? && wallet.chainId != Some(BaseMainnetChainId)
    ensures r.SwitchFailed? <==> RequestsSwitch(r) && switching.SwitchRejected?
    ensures r.SwitchFailed? ==> r.reason == switching.reason
    ensures Writes(r) <==>
      && HasAccount(wallet)
      && ValidateForm(form, nowMs).None?
      && (wallet.chainId == Some(BaseMainnetChainId) || switching.Switched?)
    ensures Writes(r) ==> form.endDateMs.Some? && r.call == Arguments(form) && r.result == writing
  {
    if !HasAccount(wallet) then NotConnected
    else if ValidateForm(form, nowMs).Some? then Invalid(ValidateForm(form, nowMs).value)
    else
      assert Passes(form, nowMs, EndDateRequired);
      var switched := wallet.chainId != Some(BaseMainnetChainId);
      if switched && switching.SwitchRejected? then SwitchFailed(switching.reason)
      else Sent(switched, Arguments(form), writing)
  }

  /** `Submit` case by case, in the order `handleSubmit` takes its early exits. */
  lemma SubmitSteps(form: Form, wallet: Wallet, nowMs: int, switching: SwitchOutcome, writing: WriteOutcome)
    ensures !HasAccount(wallet) ==> Submit(form, wallet, nowMs, switching, writing) == NotConnected
    ensures HasAccount(wallet) && ValidateForm(form, nowMs).Some? ==>
      Submit(form, wallet, nowMs, switching, writing) == Invalid(ValidateForm(form, nowMs).value)
    ensures HasAccount(wallet) && ValidateForm(form, nowMs).None? ==>
      && form.endDateMs.Some?
      && Submit(form, wallet, nowMs, switching, writing) ==
           if wallet.chainId != Some(BaseMainnetChainId) && switching.SwitchRejected? then SwitchFailed(switching.reason)
           else Sent(wallet.chainId != Some(BaseMainnetChainId), Arguments(form), writing)
  {
    if HasAccount(wallet) && ValidateForm(form, nowMs).None? {
      ValidHasEndDate(form, nowMs);
    }
  }

  /** A form that passes validation has an end date. */
  lemma ValidHasEndDate(form: Form, nowMs: int)
    requires ValidateForm(form, nowMs).None?
    ensures form.endDateMs.Some?
  {
    assert Passes(form, nowMs, EndDateRequired);
  }

  /**
   * The write built from a valid form carries the trimmed prediction and
   * description, both non-empty, the stance, the stake as value, Base
   * mainnet and the fixed gas limit.
   */
  lemma ValidCallFields(form: Form, nowMs: int)
    requires ValidateForm(form, nowMs).None?
    ensures form.endDateMs.Some?
    ensures var call := Arguments(form);
      && call.prediction == Trim(form.prediction) && call.prediction != []
      && call.description == Trim(form.description) && call.description != []
      && call.challengerSaysYes == form.challengerSaysYes
      && call.value == form.stakeWei
      && call.chainId == BaseMainnetChainId
      && call.gas == CreateBattleGas
  {
    assert Passes(form, nowMs, PredictionRequired) && Passes(form, nowMs, DescriptionRequired);
    assert Passes(form, nowMs, EndDateRequired);
    TrimEmptyIffBlank(form.prediction);
    TrimEmptyIffBlank(form.description);
  }

  /**
   * The end time of a valid form is the end date in whole seconds, and it is
   * no earlier than the second in which now + 1 hour falls.
   */
  lemma ValidEndTime(form: Form, nowMs: int)
    requires ValidateForm(form, nowMs).None?
    ensures form.endDateMs.Some?
    ensures var endTime := Arguments(form).endTime;
      && endTime * 1000 <= form.endDateMs.value < endTime * 1000 + 1000
      && endTime >= (nowMs + MinDurationMs) / 1000
  {
    assert Passes(form, nowMs, EndDateRequired) && Passes(form, nowMs, TooShort);
    var ms := form.endDateMs.value;
    assert (nowMs + MinDurationMs) / 1000 <= ms / 1000;
  }

  /**
   * The opponent of a valid form is the zero address when the input was
   * empty and the trimmed input otherwise; either way it starts with "0x".
   */
  lemma ValidOpponent(form: Form, nowMs: int)
    requires ValidateForm(form, nowMs).None?
    ensures form.endDateMs.Some?
    ensures var opponent := Arguments(form).opponent;
      && opponent == (if form.specificOpponent == [] then ZeroAddress else Trim(form.specificOpponent))
      && StartsWith(opponent, "0x")
  {
    ValidHasEndDate(form, nowMs);
    assert Passes(form, nowMs, OpponentPrefix);
    PrefixedOpponentArgument(form.specificOpponent);
  }

  /** The opponent argument of an input that is empty or starts with "0x". */
  lemma PrefixedOpponentArgument(raw: string)
    requires raw == [] || StartsWith(raw, "0x")
    ensures OpponentArgument(raw) == (if raw == [] then ZeroAddress else Trim(raw))
    ensures StartsWith(OpponentArgument(raw), "0x")
  {
    if raw != [] {
      TrimKeepsPrefix(raw, "0x");
      assert Trim(raw) != [];
    } else {
      assert Trim(raw) == [];
      ZeroAddressIsHex();
    }
  }

  /** With the submit button enabled, a write always carries a positive stake. */
  lemma EnabledSubmitSendsStake(
    form: Form, isPending: bool, isSwitchingChain: bool,
    wallet: Wallet, nowMs: int, switching: SwitchOutcome, writing: WriteOutcome)
    requires !SubmitDisabled(isPending, isSwitchingChain, form.stakeWei, form.endDateMs)
    ensures var r := Submit(form, wallet, nowMs, switching, writing);
      Writes(r) ==> r.call.value == form.stakeWei > 0
  {
  }

  // ---------------------------------------------------------------------
  // The three-step wizard
  // ---------------------------------------------------------------------

  const FirstStep: int := 1
  const LastStep: int := 3

  /**
   * `isStep1Valid`: a trimmed prediction of at least 10 and a trimmed
   * description of at least 20 UTF-16 code units (JavaScript's `length`).
   * A valid step 1 passes the first two checks of `validateForm`.
   */
  function Step1Valid(prediction: string, description: string): (r: bool)
    ensures r ==> Passes(Form(prediction, description, 0, None, true, ""), 0, PredictionRequired)
    ensures r ==> Passes(Form(prediction, description, 0, None, true, ""), 0, DescriptionRequired)
    ensures r ==> |Trim(prediction)| >= 5 && |Trim(description)| >= 10
  {
    TrimEmptyIffBlank(prediction);
    TrimEmptyIffBlank(description);
    Utf16Length(Trim(prediction)) >= 10 && Utf16Length(Trim(description)) >= 20
  }

  /** For text without characters above U+FFFF, step 1 is valid exactly when the trimmed texts have 10 and 20 characters. */
  lemma Step1ValidBmp(prediction: string, description: string)
    requires forall i :: 0 <= i < |prediction| ==> prediction[i] as int <= 0xFFFF
    requires forall i :: 0 <= i < |description| ==> description[i] as int <= 0xFFFF
    ensures Step1Valid(prediction, description) <==> |Trim(prediction)| >= 10 && |Trim(description)| >= 20
  {
    TrimmedBmpLength(prediction);
    TrimmedBmpLength(description);
  }

  /** `isStep2Valid`: choosing an opponent is optional. */
  const Step2Valid: bool := true

  /** `isStep3Valid`: a positive stake and a non-empty end date. */
  function Step3Valid(stakeWei: nat, endDateMs: Option<int>): (r: bool)
    ensures r <==> stakeWei > 0 && endDateMs.Some?
    ensures r ==> Passes(Form("", "", stakeWei, endDateMs, true, ""), 0, EndDateRequired)
  {
    stakeWei > 0 && endDateMs.Some?
  }

  /**
   * The submit button's `disabled`: it is disabled while a write is pending
   * or the chain is being switched, and enabled only with a positive stake
   * and an end date.
   */
  function SubmitDisabled(isPending: bool, isSwitchingChain: bool, stakeWei: nat, endDateMs: Option<int>): (r: bool)
    ensures isPending || isSwitchingChain ==> r
    ensures !r <==> !isPending && !isSwitchingChain && stakeWei > 0 && endDateMs.Some?
  {
    isPending || isSwitchingChain || !Step3Valid(stakeWei, endDateMs)
  }

  /**
   * The step after a click on Continue. The button exists below the last
   * step and is disabled on step 1 until step 1 is valid.
   */
  function ContinueStep(step: int, step1Valid: bool): (r: int)
    requires FirstStep <= step <= LastStep
    ensures FirstStep <= r <= LastStep
    ensures r == step || r == step + 1
    ensures r == step + 1 <==> step < LastStep && (step != 1 || step1Valid)
  {
    var disabled := (step == 1 && !step1Valid) || (step == 2 && !Step2Valid);
    if step < LastStep && !disabled then step + 1 else step
  }

  /** The step after a click on Back; the button exists above the first step. */
  function BackStep(step: int): (r: int)
    requires FirstStep <= step <= LastStep
    ensures FirstStep <= r <= LastStep
    ensures r == (if step == FirstStep then step else step - 1)
  {
    if step > FirstStep then step - 1 else step
  }

  /** A click in the wizard; Continue carries whether step 1 was valid when clicked. */
  datatype WizardClick = ContinueClick(step1Valid: bool) | BackClick

  /** The step after a sequence of clicks. */
  function Navigate(step: int, clicks: seq<WizardClick>): (r: int)
    requires FirstStep <= step <= LastStep
    ensures FirstStep <= r <= LastStep
    decreases |clicks|
  {
    if clicks == [] then step
    else
      var next := match clicks[0]
        case ContinueClick(valid) => ContinueStep(step, valid)
        case BackClick => BackStep(step);
      Navigate(next, clicks[1..])
  }

  /**
   * The wizard only leaves step 1 through a Continue click made while step 1
   * was valid: from step 1, ending anywhere else needs such a click.
   */
  lemma {:induction false} LeavingStepOneNeedsValidStep(clicks: seq<WizardClick>)
    requires Navigate(FirstStep, clicks) != FirstStep
    ensures exists i :: 0 <= i < |clicks| && clicks[i] == ContinueClick(true)
    decreases |clicks|
  {
    if clicks[0] == ContinueClick(true) {
      assert clicks[0] == ContinueClick(true);
    } else {
      assert Navigate(FirstStep, clicks) == Navigate(FirstStep, clicks[1..]);
      LeavingStepOneNeedsValidStep(clicks[1..]);
      var i :| 0 <= i < |clicks[1..]| && clicks[1..][i] == ContinueClick(true);
      assert clicks[i + 1] == ContinueClick(true);
    }
  }

  // ---------------------------------------------------------------------
  // The page's state
  // ---------------------------------------------------------------------

  /** The `useState` fields of the create-battle page. */
  class CreateBattlePage {
    var prediction: string
    var description: string
    var stakeWei: nat
    var endDateMs: Option<int>
    var challengerSaysYes: bool
    var specificOpponent: string
    var opponentUsername: string
    var error: string
    var isSwitchingChain: bool
    var currentStep: int

    ghost predicate Valid()
      reads this`currentStep
    {
      FirstStep <= currentStep <= LastStep
    }

    /** The form as `handleSubmit` reads it. */
    function Fields(): Form
      reads this`prediction, this`description, this`stakeWei, this`endDateMs
      reads this`challengerSaysYes, this`specificOpponent
    {
      Form(prediction, description, stakeWei, endDateMs, challengerSaysYes, specificOpponent)
    }

    /** The initial state of the page. */
    constructor ()
      ensures Valid()
      ensures Fields() == Form("", "", DefaultStakeWei, None, true, "")
      ensures opponentUsername == "" && error == "" && !isSwitchingChain && currentStep == FirstStep
    {
      prediction, description := "", "";
      stakeWei, endDateMs := DefaultStakeWei, None;
      challengerSaysYes := true;
      specificOpponent, opponentUsername := "", "";
      error := "";
      isSwitchingChain := false;
      currentStep := FirstStep;
    }

    /**
     * `handleSubmit`: clears the error, then runs the steps with early
     * exits, leaving the error text of the step that stopped the run. The
     * switching flag is raised for the switch and lowered on both of its
     * outcomes.
     */
    method HandleSubmit(wallet: Wallet, nowMs: int, switching: SwitchOutcome, writing: WriteOutcome)
      returns (outcome: SubmitOutcome)
      requires Valid()
      modifies this`error, this`isSwitchingChain
      ensures Valid()
      ensures outcome == Submit(old(Fields()), wallet, nowMs, switching, writing)
      ensures error == ErrorText(outcome)
      ensures isSwitchingChain == (if RequestsSwitch(outcome) then false else old(isSwitchingChain))
    {
      var form := Fields();
      SubmitSteps(form, wallet, nowMs, switching, writing);
      error := "";
      if !HasAccount(wallet) {
        error := NotConnectedMessage;
        return NotConnected;
      }
      var validation := ValidateForm(form, nowMs);
      if validation.Some? {
        error := Message(validation.value);
        return Invalid(validation.value);
      }
      ValidHasEndDate(form, nowMs);
      var switched := false;
      if wallet.chainId != Some(BaseMainnetChainId) {
        isSwitchingChain := true;
        switched := true;
        match switching {
          case Switched =>
            isSwitchingChain := false;
          case SwitchRejected(reason) =>
            error := SwitchFailureMessage(reason);
            isSwitchingChain := false;
            return SwitchFailed(reason);
        }
      }
      outcome := SendCreateBattle(form, switched, writing);
    }

    /**
     * The write at the end of `handleSubmit`: the call is built from the
     * form, and a rejected or failed write leaves its message as the error;
     * a confirmed one leaves the error as it was.
     */
    method SendCreateBattle(form: Form, switched: bool, writing: WriteOutcome) returns (outcome: SubmitOutcome)
      requires form.endDateMs.Some?
      modifies this`error
      ensures outcome == Sent(switched, Arguments(form), writing)
      ensures error == (if writing.Confirmed? then old(error) else ErrorText(outcome))
    {
      var call := Arguments(form);
      match writing {
        case Confirmed =>
        case Rejected(reason) =>
          error := reason;
        case PreparationFailed(thrown) =>
          error := thrown.GetOr(UnknownError);
      }
      outcome := Sent(switched, call, writing);
    }

    /** `isStep1Valid` on the current fields. */
    predicate IsStep1Valid()
      reads this
    {
      Step1Valid(prediction, description)
    }

    /** Continue: `setCurrentStep(currentStep + 1)` when the button is there and enabled. */
    method Continue()
      requires Valid()
      modifies this`currentStep
      ensures Valid()
      ensures currentStep == ContinueStep(old(currentStep), IsStep1Valid())
    {
      var disabled := (currentStep == 1 && !IsStep1Valid()) || (currentStep == 2 && !Step2Valid);
      if currentStep < LastStep && !disabled {
        currentStep := currentStep + 1;
      }
    }

    /** Back: `setCurrentStep(currentStep - 1)` when the button is there. */
    method Back()
      requires Valid()
      modifies this`currentStep
      ensures Valid()
      ensures currentStep == BackStep(old(currentStep))
    {
      if currentStep > FirstStep {
        currentStep := currentStep - 1;
      }
    }

    /** `handleSelectUser`, the opponent picker's selection callback. */
    method SelectOpponent(address: string, username: string)
      modifies this`specificOpponent, this`opponentUsername
      ensures specificOpponent == address && opponentUsername == username
      ensures Valid() <==> old(Valid())
    {
      specificOpponent := address;
      opponentUsername := username;
    }

    /** `handleClearUser`, the opponent picker's clear callback: the battle is open to anyone again. */
    method ClearOpponent()
      modifies this`specificOpponent, this`opponentUsername
      ensures specificOpponent == "" && opponentUsername == ""
      ensures Valid() <==> old(Valid())
    {
      specificOpponent := "";
      opponentUsername := "";
    }
  }
}
