/** The wallet modal: its own `loading`, `metaMaskInstalled` and
    `localError` state, the two effects and the connect handler that drive
    it, the error it displays and the view it selects. */
module WalletModal {
  import opened Js
  import opened AddressDisplay

  const NotDetectedMessage := "MetaMask not detected."
  const ConnectFailedMessage := "Connection failed"
  const ConnectLabel := "Connect with MetaMask"
  const ConnectingLabel := "Connecting..."

  datatype ModalState = ModalState(loading: bool, metaMaskInstalled: bool, localError: Option<string>)

  /** The `useState` initial values: the provider is assumed present until
      the modal is opened. */
  function Initial(): (m: ModalState)
    ensures !m.loading && m.metaMaskInstalled && m.localError == None
  {
    ModalState(false, true, None)
  }

  /** The effect that runs when `isOpen` changes: on opening, it records
      provider presence and sets or clears the "not detected" error;
      on closing it does nothing. */
  function OpenEffectStep(m: ModalState, isOpen: bool, providerPresent: bool): (r: ModalState)
    ensures r.loading == m.loading
    ensures !isOpen ==> r == m
    ensures isOpen ==> r.metaMaskInstalled == providerPresent
    ensures isOpen ==> r.localError == (if providerPresent then None else Some(NotDetectedMessage))
  {
    if !isOpen then m
    else if providerPresent then m.(metaMaskInstalled := true, localError := None)
    else m.(metaMaskInstalled := false, localError := Some(NotDetectedMessage))
  }

  /** The effect that runs when the `error` prop changes:
      `setLocalError(propError || null)`. */
  function PropErrorStep(m: ModalState, propError: Option<string>): (r: ModalState)
    ensures r.loading == m.loading && r.metaMaskInstalled == m.metaMaskInstalled
    ensures Truthy(r.localError) <==> Truthy(propError)
    ensures r.localError == (if Truthy(propError) then propError else None)
  {
    m.(localError := if Truthy(propError) then propError else None)
  }

  /** `connectMetaMask` up to the `await`: the error is cleared and the
      button enters its loading state. */
  function BeginConnectStep(m: ModalState): (r: ModalState)
    ensures r.loading && r.localError == None && r.metaMaskInstalled == m.metaMaskInstalled
  {
    m.(localError := None, loading := true)
  }

  /** How the `onConnect` promise settled. */
  datatype ConnectOutcome = Fulfilled | Threw(message: Option<string>)

  /** `connectMetaMask` after the `await`: the `catch` branch stores the
      thrown message (or a fallback), and `finally` always ends loading. */
  function FinishConnectStep(m: ModalState, outcome: ConnectOutcome): (r: ModalState)
    ensures !r.loading && r.metaMaskInstalled == m.metaMaskInstalled
    ensures outcome.Fulfilled? ==> r.localError == m.localError
    ensures outcome.Threw? ==> Truthy(r.localError)
    ensures outcome.Threw? ==>
      r.localError == Some(if Truthy(outcome.message) then outcome.message.value else ConnectFailedMessage)
  {
    match outcome
    case Fulfilled => m.(loading := false)
    case Threw(message) =>
      m.(loading := false,
         localError := Some(if Truthy(message) then message.value else ConnectFailedMessage))
  }

  /** A whole connect attempt, with nothing interleaved: loading ends false
      and the error is clear on success, or the thrown message (a fallback
      when it is empty) on failure. */
  lemma ConnectAttemptSettles(m: ModalState, outcome: ConnectOutcome)
    ensures var r := FinishConnectStep(BeginConnectStep(m), outcome);
      !r.loading && r.metaMaskInstalled == m.metaMaskInstalled &&
      r.localError == match outcome
        case Fulfilled => None
        case Threw(message) => Some(if Truthy(message) then message.value else ConnectFailedMessage)
  {
  }

  /** At mount both effects run, the open effect first, so the error prop
      overrides whatever the open effect stored. */
  lemma PropEffectRunsLast(m: ModalState, isOpen: bool, providerPresent: bool, propError: Option<string>)
    ensures var r := PropErrorStep(OpenEffectStep(m, isOpen, providerPresent), propError);
      r.localError == (if Truthy(propError) then propError else None) &&
      r.metaMaskInstalled == (if isOpen then providerPresent else m.metaMaskInstalled)
  {
  }

  /** `const error = localError || propError`. */
  function DisplayedError(localError: Option<string>, propError: Option<string>): (e: Option<string>)
    ensures Truthy(localError) ==> e == localError
    ensures !Truthy(localError) ==> e == propError
    ensures Truthy(e) <==> Truthy(localError) || Truthy(propError)
  {
    if Truthy(localError) then localError else propError
  }

  /** What the modal renders. */
  datatype View =
    | Hidden
    | ConnectedView(shortAddress: string)
    | InstallView
    | ConnectView(disabled: bool, caption: string, shownError: Option<string>)

  /** The view selection: closed renders nothing; a truthy address shows the
      connected view; otherwise a missing provider shows the install link;
      otherwise the connect button, disabled while loading, with the
      displayed error beneath it when that is truthy. */
  function Render(isOpen: bool, walletAddress: Option<string>, m: ModalState, propError: Option<string>): (v: View)
    ensures v.Hidden? <==> !isOpen
    ensures v.ConnectedView? <==> isOpen && Truthy(walletAddress)
    ensures v.ConnectedView? ==> v.shortAddress == ShortenAddress(walletAddress.value)
    ensures v.InstallView? <==> isOpen && !Truthy(walletAddress) && !m.metaMaskInstalled
    ensures v.ConnectView? ==>
      v.disabled == m.loading &&
      v.caption == (if m.loading then ConnectingLabel else ConnectLabel) &&
      (Truthy(v.shownError) <==> Truthy(m.localError) || Truthy(propError)) &&
      (v.shownError.Some? ==> v.shownError == DisplayedError(m.localError, propError))
  {
    if !isOpen then Hidden
    else if Truthy(walletAddress) then ConnectedView(ShortenAddress(walletAddress.value))
    else if !m.metaMaskInstalled then InstallView
    else
      var error := DisplayedError(m.localError, propError);
      ConnectView(m.loading, if m.loading then ConnectingLabel else ConnectLabel,
                  if Truthy(error) then error else None)
  }

  /** While a connect attempt is pending the button is disabled and shows
      "Connecting...", and only the prop error can be shown. */
  lemma PendingConnectView(m: ModalState, propError: Option<string>)
    requires m.metaMaskInstalled
    ensures var v := Render(true, None, BeginConnectStep(m), propError);
      v.ConnectView? && v.disabled && v.caption == ConnectingLabel &&
      v.shownError == (if Truthy(propError) then propError else None)
  {
  }

  /** A failed attempt shows its message under an enabled button, whatever
      the prop error is. */
  lemma FailedConnectView(m: ModalState, message: Option<string>, propError: Option<string>)
    requires m.metaMaskInstalled
    ensures var v := Render(true, None, FinishConnectStep(BeginConnectStep(m), Threw(message)), propError);
      v.ConnectView? && !v.disabled &&
      v.shownError == Some(if Truthy(message) then message.value else ConnectFailedMessage)
  {
  }

  /** Opening the modal without a provider shows the install link, unless
      an address is already held. */
  lemma OpenWithoutProvider(m: ModalState, walletAddress: Option<string>, propError: Option<string>)
    ensures var v := Render(true, walletAddress, OpenEffectStep(m, true, false), propError);
      if Truthy(walletAddress) then v.ConnectedView? else v.InstallView?
  {
  }

  // ---------------------------------------------------------------------
  // The component's state as an object

  class Modal {
    var loading: bool
    var metaMaskInstalled: bool
    var localError: Option<string>

    function State(): ModalState
      reads this
    {
      ModalState(loading, metaMaskInstalled, localError)
    }

    constructor ()
      ensures State() == Initial()
    {
      loading := false;
      metaMaskInstalled := true;
      localError := None;
    }

    /** The effect keyed on `isOpen`. */
    method OpenEffect(isOpen: bool, providerPresent: bool)
      modifies this
      ensures State() == OpenEffectStep(old(State()), isOpen, providerPresent)
    {
      if isOpen {
        var installed := providerPresent;
        metaMaskInstalled := installed;
        if !installed {
          localError := Some(NotDetectedMessage);
        } else {
          localError := None;
        }
      }
    }

    /** The effect keyed on the `error` prop. */
    method PropErrorEffect(propError: Option<string>)
      modifies this
      ensures State() == PropErrorStep(old(State()), propError)
    {
      localError := if Truthy(propError) then propError else None;
    }

    /** `connectMetaMask` before the `await`. */
    method BeginConnect()
      modifies this
      ensures State() == BeginConnectStep(old(State()))
    {
      localError := None;
      loading := true;
    }

    /** `connectMetaMask` after `onConnect` settles: `catch`, then
        `finally`. */
    method FinishConnect(outcome: ConnectOutcome)
      modifies this
      ensures State() == FinishConnectStep(old(State()), outcome)
      ensures !loading
    {
      if outcome.Threw? {
        localError := Some(if Truthy(outcome.message) then outcome.message.value else ConnectFailedMessage);
      }
      loading := false;
    }
  }
}
