/** The `useWallet` hook: four pieces of state, changed by the start-up
    probe, by `connectWallet` (a request gated on provider presence and a
    later settlement of the request), by `disconnectWallet` and by the
    provider's `accountsChanged` notification. */
module Wallet {
  import opened Js

  const NotDetectedMessage := "MetaMask not detected. Please install it."
  const BusyMessage := "MetaMask is already processing " + "a connection request." + " Please check your extension."
  const RejectedMessage := "Connection request was rejected."
  const FailedMessage := "Wallet connection failed."

  /** Provider error code for "a request is already pending". */
  const BusyCode := -32002
  /** Provider error code for "the user declined". */
  const RejectedCode := 4001

  /** The hook's state: `walletAddress`, `walletConnected`,
      `isMetaMaskInstalled` and `error`. There is no "connecting" state. */
  datatype Session = Session(
    walletAddress: Option<string>,
    walletConnected: bool,
    isMetaMaskInstalled: bool,
    error: Option<string>)

  /** The connection flag is set exactly when an address is held. */
  predicate Consistent(s: Session) {
    s.walletConnected <==> s.walletAddress.Some?
  }

  /** The initial `useState` values. */
  function Initial(): (s: Session)
    ensures Consistent(s) && s.walletAddress == None && s.error == None
    ensures !s.walletConnected && !s.isMetaMaskInstalled
  {
    Session(None, false, false, None)
  }

  /** How the provider settled the `eth_requestAccounts` request: resolved
      with an account list (None for a null result), or rejected with an
      error whose `code` and `message` may be absent. */
  datatype Resolution =
    | Accounts(accounts: Option<seq<string>>)
    | Rejected(code: Option<int>, message: Option<string>)

  /** The message the `catch` block stores for a rejection. It is never
      empty, so the error is always truthy. */
  function RejectionMessage(code: Option<int>, message: Option<string>): (m: string)
    ensures m != ""
    ensures code == Some(BusyCode) ==> m == BusyMessage
    ensures code == Some(RejectedCode) ==> m == RejectedMessage
    ensures code != Some(BusyCode) && code != Some(RejectedCode) ==>
      m == (if Truthy(message) then message.value else FailedMessage)
  {
    if code == Some(BusyCode) then BusyMessage
    else if code == Some(RejectedCode) then RejectedMessage
    else if Truthy(message) then message.value
    else FailedMessage
  }

  /** The closed classification of a stored error string. */
  datatype ErrorKind = ProviderMissing | ProviderBusy | UserRejected | Unknown

  /** The kind a rejection code stands for. */
  function KindOfCode(code: Option<int>): ErrorKind {
    if code == Some(BusyCode) then ProviderBusy
    else if code == Some(RejectedCode) then UserRejected
    else Unknown
  }

  /** What a UI can read back from the `error` string alone. */
  function KindOfMessage(m: string): ErrorKind {
    if m == NotDetectedMessage then ProviderMissing
    else if m == BusyMessage then ProviderBusy
    else if m == RejectedMessage then UserRejected
    else Unknown
  }

  /** The fixed messages are pairwise distinct, so the stored string
      identifies the rejection's kind, unless the provider's own message
      happens to spell one of the fixed ones. */
  lemma RejectionMessageIdentifiesKind(code: Option<int>, message: Option<string>)
    requires !Truthy(message) ||
      (message.value != NotDetectedMessage && message.value != BusyMessage &&
       message.value != RejectedMessage)
    ensures KindOfMessage(RejectionMessage(code, message)) == KindOfCode(code)
  {
  }

  // ---------------------------------------------------------------------
  // The transitions, as functions of the state

  /** The start-up probe: records provider presence; when it is absent it
      also sets the "not detected" error. */
  function ProbeStep(s: Session, providerPresent: bool): (r: Session)
    ensures r.isMetaMaskInstalled == providerPresent
    ensures r.walletAddress == s.walletAddress && r.walletConnected == s.walletConnected
    ensures r.error == if providerPresent then s.error else Some(NotDetectedMessage)
  {
    if providerPresent then s.(isMetaMaskInstalled := true)
    else s.(isMetaMaskInstalled := false, error := Some(NotDetectedMessage))
  }

  /** The synchronous part of `connectWallet`: the new state, and whether the
      account request is issued. Without a provider nothing is requested
      and only `isMetaMaskInstalled` and `error` change; with one the state
      is left alone until the request settles. */
  function ConnectRequest(s: Session, providerPresent: bool): (r: (Session, bool))
    ensures r.1 == providerPresent
    ensures r.0.walletAddress == s.walletAddress && r.0.walletConnected == s.walletConnected
    ensures providerPresent ==> r.0 == s
    ensures !providerPresent ==>
      !r.0.isMetaMaskInstalled && r.0.error == Some(NotDetectedMessage)
  {
    if !providerPresent then (s.(isMetaMaskInstalled := false, error := Some(NotDetectedMessage)), false)
    else (s, true)
  }

  /** The settlement of the account request. A non-empty list is adopted
      (its first account) and clears the error; a null or empty list
      changes nothing; a rejection changes only the error. */
  function ResolveStep(s: Session, res: Resolution): (r: Session)
    ensures r.isMetaMaskInstalled == s.isMetaMaskInstalled
    ensures res.Accounts? && res.accounts.Some? && |res.accounts.value| > 0 ==>
      r == s.(walletAddress := Some(res.accounts.value[0]), walletConnected := true, error := None)
    ensures res.Accounts? && (res.accounts.None? || res.accounts.value == []) ==> r == s
    ensures res.Rejected? ==>
      r == s.(error := Some(RejectionMessage(res.code, res.message)))
  {
    match res
    case Accounts(accounts) =>
      if accounts.Some? && |accounts.value| > 0 then
        s.(walletAddress := Some(accounts.value[0]), walletConnected := true, error := None)
      else s
    case Rejected(code, message) =>
      s.(error := Some(RejectionMessage(code, message)))
  }

  /** `disconnectWallet`: purely local; provider presence is kept. */
  function DisconnectStep(s: Session): (r: Session)
    ensures r.walletAddress == None && !r.walletConnected && r.error == None
    ensures r.isMetaMaskInstalled == s.isMetaMaskInstalled
  {
    s.(walletAddress := None, walletConnected := false, error := None)
  }

  /** The `accountsChanged` handler: an empty list disconnects; otherwise
      the first account is adopted and the error is left as it was. */
  function AccountsChangedStep(s: Session, accounts: seq<string>): (r: Session)
    ensures accounts == [] ==> r == DisconnectStep(s)
    ensures accounts != [] ==>
      r.walletAddress == Some(accounts[0]) && r.walletConnected &&
      r.error == s.error && r.isMetaMaskInstalled == s.isMetaMaskInstalled
  {
    if |accounts| == 0 then DisconnectStep(s)
    else s.(walletAddress := Some(accounts[0]), walletConnected := true)
  }

  // ---------------------------------------------------------------------
  // Event sequences

  /** Everything that can happen to the hook's state, in the order it is
      applied on the event loop. */
  datatype Event =
    | Probe(present: bool)
    | Connect(present: bool)
    | Settle(resolution: Resolution)
    | Disconnect
    | AccountsChanged(accounts: seq<string>)

  function Step(s: Session, e: Event): (r: Session)
    ensures Consistent(s) ==> Consistent(r)
  {
    match e
    case Probe(present) => ProbeStep(s, present)
    case Connect(present) => ConnectRequest(s, present).0
    case Settle(res) => ResolveStep(s, res)
    case Disconnect => DisconnectStep(s)
    case AccountsChanged(accounts) => AccountsChangedStep(s, accounts)
  }

  /** The events applied one after another, first to last. */
  function Run(s: Session, events: seq<Event>): (r: Session)
    ensures Consistent(s) ==> Consistent(r)
    decreases |events|
  {
    if events == [] then s else Run(Step(s, events[0]), events[1..])
  }

  /** Every state reached from the initial one by any sequence of events
      keeps the connection flag and the address in step. */
  lemma ReachableConsistent(events: seq<Event>)
    ensures Consistent(Run(Initial(), events))
  {
  }

  lemma {:induction false} RunSnoc(s: Session, events: seq<Event>, e: Event)
    ensures Run(s, events + [e]) == Step(Run(s, events), e)
    decreases |events|
  {
    if events == [] {
      assert [e][1..] == [];
    } else {
      assert (events + [e])[0] == events[0];
      assert (events + [e])[1..] == events[1..] + [e];
      RunSnoc(Step(s, events[0]), events[1..], e);
    }
  }

  /** Which value an event writes into a field, if any. */
  function AddressWrite(e: Event): Option<Option<string>> {
    match e
    case Probe(_) => None
    case Connect(_) => None
    case Settle(res) =>
      if res.Accounts? && res.accounts.Some? && |res.accounts.value| > 0
      then Some(Some(res.accounts.value[0])) else None
    case Disconnect => Some(None)
    case AccountsChanged(accounts) =>
      Some(if accounts == [] then None else Some(accounts[0]))
  }

  function ErrorWrite(e: Event): Option<Option<string>> {
    match e
    case Probe(present) => if present then None else Some(Some(NotDetectedMessage))
    case Connect(present) => if present then None else Some(Some(NotDetectedMessage))
    case Settle(res) =>
      (match res
       case Accounts(accounts) =>
         if accounts.Some? && |accounts.value| > 0 then Some(None) else None
       case Rejected(code, message) => Some(Some(RejectionMessage(code, message))))
    case Disconnect => Some(None)
    case AccountsChanged(accounts) => if accounts == [] then Some(None) else None
  }

  function InstalledWrite(e: Event): Option<bool> {
    match e
    case Probe(present) => Some(present)
    case Connect(present) => if present then None else Some(false)
    case Settle(_) => None
    case Disconnect => None
    case AccountsChanged(_) => None
  }

  /** The value written by the LAST event that writes the field, or `init`
      when none does. Read from the end, independently of `Run`. */
  function Latest<T>(init: T, events: seq<Event>, write: Event -> Option<T>): T
    decreases |events|
  {
    if events == [] then init
    else match write(events[|events| - 1])
      case Some(v) => v
      case None => Latest(init, events[..|events| - 1], write)
  }

  /** Last write wins for the address: whatever order connect settlements,
      account changes and disconnects interleave in, the final address is
      the one written by the last of them. */
  lemma {:induction false} RunAddressIsLatest(s: Session, events: seq<Event>)
    ensures Run(s, events).walletAddress == Latest(s.walletAddress, events, AddressWrite)
    decreases |events|
  {
    if events != [] {
      var pre, e := events[..|events| - 1], events[|events| - 1];
      assert events == pre + [e];
      RunSnoc(s, pre, e);
      RunAddressIsLatest(s, pre);
    }
  }

  /** The same for the error: the last event that writes it decides it. */
  lemma {:induction false} RunErrorIsLatest(s: Session, events: seq<Event>)
    ensures Run(s, events).error == Latest(s.error, events, ErrorWrite)
    decreases |events|
  {
    if events != [] {
      var pre, e := events[..|events| - 1], events[|events| - 1];
      assert events == pre + [e];
      RunSnoc(s, pre, e);
      RunErrorIsLatest(s, pre);
    }
  }

  /** The same for provider presence. */
  lemma {:induction false} RunInstalledIsLatest(s: Session, events: seq<Event>)
    ensures Run(s, events).isMetaMaskInstalled == Latest(s.isMetaMaskInstalled, events, InstalledWrite)
    decreases |events|
  {
    if events != [] {
      var pre, e := events[..|events| - 1], events[|events| - 1];
      assert events == pre + [e];
      RunSnoc(s, pre, e);
      RunInstalledIsLatest(s, pre);
    }
  }

  /** From a consistent state, the connection flag after any events is
      whether the last address write stored an address. */
  lemma RunConnectedIsLatest(s: Session, events: seq<Event>)
    requires Consistent(s)
    ensures Run(s, events).walletConnected == Latest(s.walletAddress, events, AddressWrite).Some?
  {
    RunAddressIsLatest(s, events);
  }

  /** An empty `accountsChanged`, whatever happened before, leaves the
      session disconnected with no address and no error. */
  lemma RevocationWins(s: Session, events: seq<Event>)
    ensures var r := Run(s, events + [AccountsChanged([])]);
      r.walletAddress == None && !r.walletConnected && r.error == None
  {
    RunSnoc(s, events, AccountsChanged([]));
  }

  /** A non-empty `accountsChanged`, whatever happened before, connects
      its first account. */
  lemma ExternalChangeWins(s: Session, events: seq<Event>, a: string, rest: seq<string>)
    ensures var r := Run(s, events + [AccountsChanged([a] + rest)]);
      r.walletAddress == Some(a) && r.walletConnected
  {
    RunSnoc(s, events, AccountsChanged([a] + rest));
  }

  /** Race: an external change while the request is pending is overwritten
      by the settlement that follows it. */
  lemma SettlementAfterChangeWins(s: Session, a: string, b: string)
    ensures var r := Run(s, [Connect(true), AccountsChanged([b]), Settle(Accounts(Some([a])))]);
      r.walletAddress == Some(a) && r.walletConnected && r.error == None
  {
    var evs := [Connect(true), AccountsChanged([b]), Settle(Accounts(Some([a])))];
    RunAddressIsLatest(s, evs);
    RunErrorIsLatest(s, evs);
    assert evs[..2][..1] == [Connect(true)];
  }

  /** Race: a change that fires after the settlement overwrites it. */
  lemma ChangeAfterSettlementWins(s: Session, a: string, b: string)
    ensures var r := Run(s, [Connect(true), Settle(Accounts(Some([a]))), AccountsChanged([b])]);
      r.walletAddress == Some(b) && r.walletConnected && r.error == None
  {
    var evs := [Connect(true), Settle(Accounts(Some([a]))), AccountsChanged([b])];
    RunAddressIsLatest(s, evs);
    RunErrorIsLatest(s, evs);
    assert evs[..2][..1] == [Connect(true)];
  }

  /** Race: a rejection after an external change keeps the account the
      change adopted, and the session is connected with an error pending. */
  lemma RejectionAfterChangeKeepsAccount(s: Session, b: string)
    ensures var r := Run(s, [Connect(true), AccountsChanged([b]), Settle(Rejected(Some(RejectedCode), None))]);
      r.walletAddress == Some(b) && r.walletConnected && r.error == Some(RejectedMessage)
  {
    var evs := [Connect(true), AccountsChanged([b]), Settle(Rejected(Some(RejectedCode), None))];
    RunAddressIsLatest(s, evs);
    RunErrorIsLatest(s, evs);
    assert evs[..2][..1] == [Connect(true)];
  }

  // ---------------------------------------------------------------------
  // Properties of single transitions

  /** From the initial state, the probe records presence and reports the
      "not detected" error exactly when the provider is absent. */
  lemma StartupProbe(present: bool)
    ensures var r := ProbeStep(Initial(), present);
      r.isMetaMaskInstalled == present &&
      (r.error == Some(NotDetectedMessage) <==> !present) &&
      (present ==> r.error == None) &&
      r.walletAddress == None && !r.walletConnected
  {
  }

  /** Probing twice is probing once. */
  lemma ProbeIdempotent(s: Session, present: bool)
    ensures ProbeStep(ProbeStep(s, present), present) == ProbeStep(s, present)
  {
  }

  /** Disconnecting twice is disconnecting once. */
  lemma DisconnectIdempotent(s: Session)
    ensures DisconnectStep(DisconnectStep(s)) == DisconnectStep(s)
  {
  }

  /** Disconnecting changes nothing exactly when there is no address and no
      error already (a pending error is cleared). */
  lemma DisconnectNoOpIff(s: Session)
    requires Consistent(s)
    ensures DisconnectStep(s) == s <==> s.walletAddress == None && s.error == None
  {
  }

  /** A rejection touches neither the address, the connection flag nor
      provider presence, and the error it leaves is always truthy. */
  lemma RejectionOnlySetsError(s: Session, code: Option<int>, message: Option<string>)
    ensures var r := ResolveStep(s, Rejected(code, message));
      r.walletAddress == s.walletAddress && r.walletConnected == s.walletConnected &&
      r.isMetaMaskInstalled == s.isMetaMaskInstalled && Truthy(r.error)
  {
  }

  /** Scenario: no provider at start-up. */
  lemma ScenarioNoProvider()
    ensures var r := ProbeStep(Initial(), false);
      !r.walletConnected && r.walletAddress == None &&
      r.error.Some? && KindOfMessage(r.error.value) == ProviderMissing
  {
  }

  /** Scenario: provider present, request resolves with one account. */
  lemma ScenarioConnect()
    ensures var r := Run(Initial(), [Probe(true), Connect(true), Settle(Accounts(Some(["0xABCDEF1234567890"])))]);
      r.walletConnected && r.walletAddress == Some("0xABCDEF1234567890") && r.error == None
  {
    var evs := [Probe(true), Connect(true), Settle(Accounts(Some(["0xABCDEF1234567890"])))];
    RunAddressIsLatest(Initial(), evs);
    RunErrorIsLatest(Initial(), evs);
  }

  /** Scenario: provider present, the user declines. */
  lemma ScenarioUserDeclines()
    ensures var r := Run(Initial(), [Probe(true), Connect(true), Settle(Rejected(Some(RejectedCode), Some("User rejected the request.")))]);
      !r.walletConnected && r.walletAddress == None && r.error == Some(RejectedMessage)
  {
    var evs := [Probe(true), Connect(true), Settle(Rejected(Some(RejectedCode), Some("User rejected the request.")))];
    RunAddressIsLatest(Initial(), evs);
    RunErrorIsLatest(Initial(), evs);
    assert evs[..2] == [Probe(true), Connect(true)];
    assert evs[..2][..1] == [Probe(true)];
    assert evs[..2][..1][..0] == [];
    assert Latest(None, evs[..2][..1], AddressWrite) == None;
    assert Latest(None, evs[..2], AddressWrite) == None;
  }

  // ---------------------------------------------------------------------
  // The hook as an object whose setters update its fields

  class WalletSession {
    var walletAddress: Option<string>
    var walletConnected: bool
    var isMetaMaskInstalled: bool
    var error: Option<string>

    function State(): Session
      reads this
    {
      Session(walletAddress, walletConnected, isMetaMaskInstalled, error)
    }

    predicate Valid()
      reads this
    {
      Consistent(State())
    }

    /** The `useState` initial values. */
    constructor ()
      ensures Valid() && State() == Initial()
    {
      walletAddress := None;
      walletConnected := false;
      isMetaMaskInstalled := false;
      error := None;
    }

    /** The mount effect that probes for the provider. */
    method ProbeProvider(providerPresent: bool)
      requires Valid()
      modifies this
      ensures Valid() && State() == ProbeStep(old(State()), providerPresent)
    {
      if providerPresent {
        isMetaMaskInstalled := true;
      } else {
        isMetaMaskInstalled := false;
        error := Some(NotDetectedMessage);
      }
    }

    /** `connectWallet` up to the `await`: returns whether the account
      request is issued. */
    method ConnectWallet(providerPresent: bool) returns (requested: bool)
      requires Valid()
      modifies this
      ensures Valid() && (State(), requested) == ConnectRequest(old(State()), providerPresent)
      ensures walletAddress == old(walletAddress) && walletConnected == old(walletConnected)
    {
      if !providerPresent {
        isMetaMaskInstalled := false;
        error := Some(NotDetectedMessage);
        return false;
      }
      requested := true;
    }

    /** `connectWallet` after the `await`: the `try` branch on a resolved
      account list, the `catch` branch on a rejection. */
    method ResolveConnect(res: Resolution)
      requires Valid()
      modifies this
      ensures Valid() && State() == ResolveStep(old(State()), res)
    {
      match res
      case Accounts(accounts) =>
        if accounts.Some? && |accounts.value| > 0 {
          walletAddress := Some(accounts.value[0]);
          walletConnected := true;
          error := None;
        }
      case Rejected(code, message) =>
        error := Some(RejectionMessage(code, message));
    }

    method DisconnectWallet()
      requires Valid()
      modifies this
      ensures Valid() && State() == DisconnectStep(old(State()))
      ensures isMetaMaskInstalled == old(isMetaMaskInstalled)
    {
      walletAddress := None;
      walletConnected := false;
      error := None;
    }

    /** The provider's `accountsChanged` callback. */
    method HandleAccountsChanged(accounts: seq<string>)
      requires Valid()
      modifies this
      ensures Valid() && State() == AccountsChangedStep(old(State()), accounts)
      ensures error == (if accounts == [] then None else old(error))
    {
      if |accounts| == 0 {
        DisconnectWallet();
      } else {
        walletAddress := Some(accounts[0]);
        walletConnected := true;
      }
    }
  }
}
