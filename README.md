# Wallet session of a property-listing dApp front end, in Dafny

This project models the wallet-connection core of a small React front end.
The core is the `useWallet` hook. It probes for the MetaMask provider at
start-up, requests accounts, stores the connected address, follows the
provider's `accountsChanged` notifications and keeps a human-readable error.
Around it sit three smaller parts:

- the wallet modal's own state and view selection;
- the favourites toggle and modal flag of `AppContent`;
- the navbar's pure helpers.

Modules, one per source file (plus two shared helpers):

- `Js` (`js.dfy`): the parts of JavaScript's value semantics the code relies on.
  These are nullable strings (`Option<string>`), truthiness, and the
  `slice`, `charAt`, `replace` and ASCII `toUpperCase` string methods.
- `AddressDisplay` (`address_display.dfy`): `shortenAddress`. It is written
  identically in `WalletModal.tsx` and `Navbar.tsx`, so it is defined once
  and used by both.
- `Wallet` (`wallet.dfy`): the hook. There is a `Session` value with the hook's
  four fields, and one step function per transition. The `Event` sequence
  and `Run` apply events in order. The class `WalletSession` has the same
  four fields; each of its methods updates them as the setters do and is
  specified by the matching step function.
- `WalletModal` (`wallet_modal.dfy`): the effects, `connectMetaMask` split at
  its `await`, the displayed error and `Render`. The class `Modal` follows
  the same pattern.
- `Navbar` (`navbar.dfy`): `isActive`, the link labels and the wallet badge
  condition.
- `App` (`app.dfy`): `Toggle` and its properties, the property path, the
  modal as `AppContent` wires it, and the class `AppContent`.

`connectWallet` is asynchronous. It is modelled as two steps. The request
step (`ConnectRequest`, `WalletSession.ConnectWallet`) checks whether a
provider is present and reports whether the request is issued. The
settlement step (`ResolveStep`, `WalletSession.ResolveConnect`) applies how
the provider settled it: `Accounts(list or null)` or
`Rejected(code, message)`. Provider presence is a boolean input. An
interleaving of settlements with `accountsChanged` events is a sequence of
events applied in order. The lemmas `RunAddressIsLatest`, `RunErrorIsLatest`
and `RunInstalledIsLatest` prove that each field ends with the value written
by the last event that writes it. `Latest` is defined separately from `Run`
and reads the sequence from its end.

Behaviour of the code worth noting:

- The hook's state is exactly its four fields. While a request is pending
  the session stays as it was; only the modal tracks `loading`.
- A rejected or provider-less connect keeps the address and the connection
  flag. A rejection changes only `error`.
- An external account change to a non-empty list keeps `error`. So after a
  rejection raced with an account change, the session can be connected with
  an error pending (`RejectionAfterChangeKeepsAccount`).
- `shortenAddress` always joins the first six and the last four characters.
  For an address shorter than ten characters the two slices overlap:
  `"0x12"` becomes `"0x12...0x12"` (`ShortenShortAddress`).
- The hook stores its error as a string. `KindOfMessage` shows what string
  equality can recover from it: the kind of rejection is identified unless
  the provider's own message spells one of the fixed messages.
- `AppContent` never reads the hook's `error` and never passes an `error` prop
  to the modal. `connectWallet` catches every rejection, so the modal's own
  attempt always fulfils. As a result, a rejected connection shows no error
  in the modal (`RejectionNotShownInModal`).

## Model

| member | source | states |
|---|---|---|
| `Wallet.Initial` | src/types/wallet.ts:10-13 | the hook starts with no address, not connected, no provider recorded (`isMetaMaskInstalled` false until the probe runs) and no error, which satisfies connected ⇔ address present |
| `Wallet.RejectionMessage` | src/types/wallet.ts:46-54 | code -32002 gives the "already processing" message; otherwise code 4001 gives "Connection request was rejected."; otherwise the provider's message when non-empty, else "Wallet connection failed."; the result is never empty |
| `Wallet.RejectionMessageIdentifiesKind` | src/types/wallet.ts:46-54 | the stored message identifies the rejection's kind (busy, declined, other), unless the provider's message spells one of the fixed ones |
| `Wallet.ProbeStep` | src/types/wallet.ts:16-23 | the probe sets `isMetaMaskInstalled` to provider presence; when absent it sets the "not detected" error; the address and the flag are untouched |
| `Wallet.ConnectRequest` | src/types/wallet.ts:26-31 | without a provider no request is issued, `isMetaMaskInstalled` becomes false, the "not detected" error is set, and the address and the flag are untouched; with one, the request is issued and nothing changes yet |
| `Wallet.ResolveStep` | src/types/wallet.ts:33-55 | a non-empty account list adopts its first account, connects and clears the error; a null or empty list changes nothing; a rejection changes only the error; provider presence is never touched |
| `Wallet.DisconnectStep` | src/types/wallet.ts:59-63 | clears the address, the flag and the error, and keeps provider presence |
| `Wallet.AccountsChangedStep` | src/types/wallet.ts:69-76 | an empty list is exactly a disconnect; a non-empty list adopts its first account and connects, and keeps the error and provider presence |
| `Wallet.Step` | src/types/wallet.ts:16-76 | every transition preserves connected ⇔ address present |
| `Wallet.Run` | src/types/wallet.ts:16-76 | any sequence of transitions applied in order preserves connected ⇔ address present |
| `Wallet.ReachableConsistent` | src/types/wallet.ts:10-11 | every state reachable from the initial one satisfies connected ⇔ address present |
| `Wallet.RunSnoc` | src/types/wallet.ts:16-76 | applying one more event after a sequence is one step from the state the sequence reached |
| `Wallet.RunAddressIsLatest` | src/types/wallet.ts:38-74 | last event wins: the final address is the one written by the last settlement, disconnect or account change that writes it |
| `Wallet.RunErrorIsLatest` | src/types/wallet.ts:21-62 | the final error is the one written by the last event that writes the error |
| `Wallet.RunInstalledIsLatest` | src/types/wallet.ts:18-28 | the final provider-presence flag is the one written by the last probe or provider-less connect |
| `Wallet.RunConnectedIsLatest` | src/types/wallet.ts:40-74 | from a consistent state, the final connection flag is whether the last address write stored an address |
| `Wallet.RevocationWins` | src/types/wallet.ts:69-71 | whatever came before, an empty `accountsChanged` leaves no address, not connected and no error |
| `Wallet.ExternalChangeWins` | src/types/wallet.ts:72-74 | whatever came before, a non-empty `accountsChanged` connects its first account |
| `Wallet.SettlementAfterChangeWins` | src/types/wallet.ts:34-41 | an account change that fires while the request is pending is overwritten by the settlement that follows it |
| `Wallet.ChangeAfterSettlementWins` | src/types/wallet.ts:69-75 | an account change after the settlement overwrites the settled address, and the error stays cleared |
| `Wallet.RejectionAfterChangeKeepsAccount` | src/types/wallet.ts:43-55 | a rejection after an external change keeps that account connected and sets the rejection message |
| `Wallet.StartupProbe` | src/types/wallet.ts:16-23 | from the initial state, after the probe `isMetaMaskInstalled` equals presence, and the error is "not detected" iff the provider is absent |
| `Wallet.ProbeIdempotent` | src/types/wallet.ts:16-23 | probing twice equals probing once |
| `Wallet.DisconnectIdempotent` | src/types/wallet.ts:59-63 | disconnecting twice equals disconnecting once |
| `Wallet.DisconnectNoOpIff` | src/types/wallet.ts:59-63 | disconnect changes nothing iff there is no address and no error already |
| `Wallet.RejectionOnlySetsError` | src/types/wallet.ts:43-55 | a rejection keeps the address, the flag and provider presence, and leaves a truthy error |
| `Wallet.ScenarioNoProvider` | src/types/wallet.ts:16-23 | no provider at start-up: disconnected with a "provider missing" error |
| `Wallet.ScenarioConnect` | src/types/wallet.ts:33-42 | probe, connect and one returned account give that address, connected, no error |
| `Wallet.ScenarioUserDeclines` | src/types/wallet.ts:49-51 | probe, connect and a 4001 rejection give disconnected with "Connection request was rejected." |
| `Wallet.WalletSession.constructor` | src/types/wallet.ts:10-13 | the fields start at the initial session |
| `Wallet.WalletSession.ProbeProvider` | src/types/wallet.ts:16-23 | the fields after the mount effect are `ProbeStep` of those before, and the invariant holds |
| `Wallet.WalletSession.ConnectWallet` | src/types/wallet.ts:26-31 | the new fields and the returned "request issued" flag are `ConnectRequest` of the old fields; the address and the flag are unchanged |
| `Wallet.WalletSession.ResolveConnect` | src/types/wallet.ts:33-55 | the fields after settlement are `ResolveStep` of those before |
| `Wallet.WalletSession.DisconnectWallet` | src/types/wallet.ts:59-63 | the fields after disconnecting are `DisconnectStep` of those before; provider presence is kept |
| `Wallet.WalletSession.HandleAccountsChanged` | src/types/wallet.ts:69-76 | the fields after the callback are `AccountsChangedStep` of those before; the error is cleared only by an empty list |
| `AddressDisplay.ShortenAddress` | src/components/Modals/WalletModal.tsx:14-15 | the result is the first min(6, n) characters, then "...", then the last min(4, n) characters; for n ≥ 10 it is `a[..6] + "..." + a[n-4..]`, of length 13 |
| `AddressDisplay.ShortenFullAddress` | src/components/Modals/WalletModal.tsx:14-15 | "0x1234567890abcdef" is displayed as "0x1234...cdef" |
| `AddressDisplay.ShortenShortAddress` | src/components/Modals/WalletModal.tsx:14-15 | a four-character address is repeated around the ellipsis, not returned as it is |
| `AddressDisplay.ShortenedFormDeterminesEnds` | src/components/Layout/Navbar.tsx:23-24 | two full-length addresses with the same display form share their first six and last four characters |
| `WalletModal.Initial` | src/components/Modals/WalletModal.tsx:25-27 | the modal starts not loading, assuming a provider, and with no local error |
| `WalletModal.OpenEffectStep` | src/components/Modals/WalletModal.tsx:29-39 | on opening, `metaMaskInstalled` equals presence and the local error is "MetaMask not detected." iff the provider is absent, else null; a closed modal is unchanged |
| `WalletModal.PropErrorStep` | src/components/Modals/WalletModal.tsx:41-43 | the local error becomes exactly the prop error when that is truthy, else null (an empty-string prop stores null); loading and presence are kept |
| `WalletModal.BeginConnectStep` | src/components/Modals/WalletModal.tsx:45-47 | before awaiting, the local error is cleared and loading is set |
| `WalletModal.FinishConnectStep` | src/components/Modals/WalletModal.tsx:49-56 | after `onConnect` settles, loading is false and presence is kept; on a throw the local error is exactly the thrown message, or "Connection failed" when that is empty or absent; on success it is kept |
| `WalletModal.ConnectAttemptSettles` | src/components/Modals/WalletModal.tsx:45-57 | a whole attempt ends not loading, with no local error on success, or the thrown message (else "Connection failed") on failure |
| `WalletModal.PropEffectRunsLast` | src/components/Modals/WalletModal.tsx:29-43 | when both effects run, the open effect first, the local error is whatever the prop error says |
| `WalletModal.DisplayedError` | src/components/Modals/WalletModal.tsx:66 | the displayed error is the local error when it is truthy, otherwise the prop error; it is truthy iff either is |
| `WalletModal.Render` | src/components/Modals/WalletModal.tsx:64-138 | closed renders nothing; otherwise a truthy address shows the connected view with the shortened address; otherwise no provider shows the install link; otherwise the connect button, disabled and labelled "Connecting..." while loading, with the displayed error shown iff it is truthy |
| `WalletModal.PendingConnectView` | src/components/Modals/WalletModal.tsx:122-128 | during an attempt the button is disabled, reads "Connecting...", and only the prop error can show |
| `WalletModal.FailedConnectView` | src/components/Modals/WalletModal.tsx:52-55 | after a failed attempt the button is enabled and the thrown message is shown whatever the prop error |
| `WalletModal.OpenWithoutProvider` | src/components/Modals/WalletModal.tsx:29-39 | opening without a provider shows the install link, unless an address is held |
| `WalletModal.Modal.constructor` | src/components/Modals/WalletModal.tsx:25-27 | the fields start at the initial modal state |
| `WalletModal.Modal.OpenEffect` | src/components/Modals/WalletModal.tsx:29-39 | the fields after the effect are `OpenEffectStep` of those before |
| `WalletModal.Modal.PropErrorEffect` | src/components/Modals/WalletModal.tsx:41-43 | the fields after the effect are `PropErrorStep` of those before |
| `WalletModal.Modal.BeginConnect` | src/components/Modals/WalletModal.tsx:45-47 | the fields before the await are `BeginConnectStep` of those before the call |
| `WalletModal.Modal.FinishConnect` | src/components/Modals/WalletModal.tsx:49-56 | the fields after settling are `FinishConnectStep` of those before; loading is false |
| `Navbar.IsActive` | src/components/Layout/Navbar.tsx:20 | a link is active exactly when its path equals the current pathname (stated for the rendered links by `Navbar.NavLinks`) |
| `Navbar.Label` | src/components/Layout/Navbar.tsx:54 | "/" is labelled "Home"; no other label is longer than its path (the general form is `Navbar.LabelOfSlashPath`) |
| `Navbar.LabelOfSlashPath` | src/components/Layout/Navbar.tsx:54 | for a path of two or more characters starting with "/", the label is the upper-cased second character followed by the rest |
| `Navbar.LinkLabels` | src/components/Layout/Navbar.tsx:44-54 | the four links are labelled "Home", "Listings", "Favorites" and "Dashboard" |
| `Navbar.NavLinks` | src/components/Layout/Navbar.tsx:44-55 | the links are exactly "/", "/listings", "/favorites", "/dashboard" in that order, each with its label, and each is active iff it equals the current path |
| `Navbar.AtMostOneActive` | src/components/Layout/Navbar.tsx:20 | at most one link is active at a time |
| `Navbar.WalletArea` | src/components/Layout/Navbar.tsx:61-81 | the badge with the shortened address is shown iff the wallet is connected and the address is truthy; otherwise the Connect button |
| `Navbar.BadgeIffAddress` | src/components/Layout/Navbar.tsx:61 | for a consistent session, the badge is shown iff a non-empty address is held; an empty-string account connects yet shows the Connect button |
| `App.RemoveAll` | src/App.tsx:37 | the filtered list has no occurrence of the id, the same count of every other id, and is shorter by the id's count |
| `App.Toggle` | src/App.tsx:34-40 | the toggled id is in the new list iff it was not in the old one |
| `App.ToggleAbsentAppends` | src/App.tsx:35-38 | toggling an absent id appends it at the end |
| `App.TogglePresentRemovesAll` | src/App.tsx:35-37 | toggling a present id removes every occurrence of it and nothing else |
| `App.ToggleKeepsOthers` | src/App.tsx:35-38 | every other id keeps its membership, multiplicity and relative order |
| `App.ToggleTwiceRestores` | src/App.tsx:35-38 | toggling an absent id twice restores the original list exactly |
| `App.ToggleTwicePresent` | src/App.tsx:35-38 | toggling a present id twice leaves one occurrence at the end |
| `App.ToggleKeepsNoDuplicates` | src/App.tsx:35-38 | a list without duplicates has none after a toggle |
| `App.PropertyPath` | src/App.tsx:43-45 | a property click navigates to "/property/" followed by the id |
| `App.PropertyPathInjective` | src/App.tsx:43-45 | distinct ids navigate to distinct paths |
| `App.AppModalView` | src/App.tsx:73-79 | with no `error` prop passed, the modal shows only its own local error |
| `App.AppModalIgnoresHookError` | src/App.tsx:21-27 | the hook's `error` has no influence on the modal's view |
| `App.RejectionNotShownInModal` | src/App.tsx:73-79 | after a rejected connect started from the modal, the hook holds a truthy error, yet the modal shows the enabled connect button with no error |
| `App.AppContent.constructor` | src/App.tsx:29-30 | favourites start as ["1", "4"] and the modal closed |
| `App.AppContent.ToggleFavorite` | src/App.tsx:34-40 | the new favourites are `Toggle` of the old |
| `App.AppContent.OpenWalletModal` | src/App.tsx:51 | the navbar's and the dashboard's connect callback opens the modal |
| `App.AppContent.CloseWalletModal` | src/App.tsx:75 | `onClose` closes the modal |
| `App.AppContent.DisconnectFromModal` | src/components/Modals/WalletModal.tsx:59-62 | `handleDisconnect` results in the disconnected session and a closed modal; favourites are unchanged |
| `App.AppContent.StartConnectFromModal` | src/components/Modals/WalletModal.tsx:45-50 | the modal begins its attempt, and the hook takes the request step; without a provider the attempt completes at once as fulfilled |
| `App.AppContent.SettleConnectFromModal` | src/App.tsx:76 | the hook applies the settlement, and the modal's attempt ends as fulfilled, whatever the settlement was; when a rejection settles an attempt begun from the open modal with no address held, the hook's error is truthy while the rendered modal shows the enabled Connect button with no error |

## Left out

- Access to `window.ethereum` and the `eth_requestAccounts` call (src/types/wallet.ts:17, 27, 34-36). Provider presence is a boolean input and the request's result is a `Resolution` value.
- Listener registration and removal (src/types/wallet.ts:78-84). The code registers the handler only when a provider is present at mount (line 67); the model lets an `AccountsChanged` event occur in any state.
- The Promise and `async` machinery. Only the ordering is modelled: request, then settlement. The model does not track which requests are outstanding, so a settlement may be applied at any point. The lemmas over event sequences therefore cover every order the event loop can produce, and some it cannot.
- `console.error` (src/types/wallet.ts:44).
- React's render and effect scheduling. Each effect is a method that the caller invokes in the order React would run it.
- JSX markup, CSS classes and icons. This includes the modal's titles, the static texts, and App's "MetaMask is not installed" banner (src/App.tsx:58-70).
- React Router's `Routes`, `Link` and `useNavigate`, and the page components. These are not part of this model; only the path string of a property click is modelled.
- `Js.Slice`, `Js.SliceFrom`, `Js.CharAt`: strings are sequences of Unicode code points, while JavaScript's `slice` and `charAt` index UTF-16 code units. The two agree for characters in the Basic Multilingual Plane and differ for characters outside it (for example emoji), which count as two units in JavaScript and one here.
- `Js.ToUpperAscii`: upper-cases ASCII letters only. Full Unicode `toUpperCase` (which can change a string's length) is not modelled.
- `Wallet.ResolveStep`: a rejection's `code` is an optional integer, so a non-numeric code counts as absent. This matches `===` against numbers. A non-string `message` is not modelled.
- `WalletModal.FinishConnectStep`: the thrown value is modelled by its optional message. A thrown `null` or `undefined` would make `err.message` itself throw inside the `catch` block; that case is not modelled.
