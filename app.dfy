/** `AppContent`: the favourites list and the modal flag it owns, and how it
    wires the wallet session into the navbar and the modal. */
module App {
  import opened Js
  import Wallet
  import WalletModal

  const InitialFavorites: seq<string> := ["1", "4"]

  /** `s.filter((id) => id !== x)` */
  function RemoveAll(s: seq<string>, x: string): (r: seq<string>)
    ensures x !in r
    ensures multiset(r) == multiset(s)[x := 0]
    ensures |r| == |s| - multiset(s)[x]
  {
    if s == [] then []
    else
      assert s == [s[0]] + s[1..];
      if s[0] == x then RemoveAll(s[1..], x) else [s[0]] + RemoveAll(s[1..], x)
  }

  lemma {:induction false} RemoveAllAbsent(s: seq<string>, x: string)
    requires x !in s
    ensures RemoveAll(s, x) == s
  {
    if s != [] {
      RemoveAllAbsent(s[1..], x);
    }
  }

  lemma {:induction false} RemoveAllAppend(s: seq<string>, y: string, x: string)
    ensures RemoveAll(s + [y], x) == RemoveAll(s, x) + (if y == x then [] else [y])
  {
    if s == [] {
      assert [] + [y] == [y];
      assert [y][1..] == [];
    } else {
      assert (s + [y])[0] == s[0];
      assert (s + [y])[1..] == s[1..] + [y];
      RemoveAllAppend(s[1..], y, x);
    }
  }

  /** `prev.includes(id) ? prev.filter((x) => x !== id) : [...prev, id]` */
  function Toggle(prev: seq<string>, id: string): (r: seq<string>)
    ensures id in r <==> id !in prev
  {
    if id in prev then RemoveAll(prev, id) else prev + [id]
  }

  /** Toggling an id that is not a favourite appends it at the end. */
  lemma ToggleAbsentAppends(prev: seq<string>, id: string)
    requires id !in prev
    ensures Toggle(prev, id) == prev + [id]
    ensures Toggle(prev, id)[|prev|] == id && Toggle(prev, id)[..|prev|] == prev
  {
  }

  /** Toggling a favourite removes every occurrence of it and nothing else. */
  lemma TogglePresentRemovesAll(prev: seq<string>, id: string)
    requires id in prev
    ensures id !in Toggle(prev, id)
    ensures |Toggle(prev, id)| == |prev| - multiset(prev)[id]
  {
  }

  /** Every other id keeps its membership, multiplicity and relative order:
      with the toggled id erased, the lists before and after are equal. */
  lemma ToggleKeepsOthers(prev: seq<string>, id: string)
    ensures RemoveAll(Toggle(prev, id), id) == RemoveAll(prev, id)
    ensures forall y :: y != id ==> multiset(Toggle(prev, id))[y] == multiset(prev)[y]
  {
    if id in prev {
      RemoveAllAbsent(RemoveAll(prev, id), id);
    } else {
      RemoveAllAppend(prev, id, id);
    }
  }

  /** Toggling an id that is not a favourite twice restores the list. */
  lemma ToggleTwiceRestores(prev: seq<string>, id: string)
    requires id !in prev
    ensures Toggle(Toggle(prev, id), id) == prev
  {
    RemoveAllAppend(prev, id, id);
    RemoveAllAbsent(prev, id);
  }

  /** Toggling a favourite twice does NOT restore it: its occurrences are
      gathered into one at the end. */
  lemma ToggleTwicePresent(prev: seq<string>, id: string)
    requires id in prev
    ensures Toggle(Toggle(prev, id), id) == RemoveAll(prev, id) + [id]
  {
  }

  /** No id occurs twice. */
  ghost predicate NoDuplicates(s: seq<string>) {
    forall y :: multiset(s)[y] <= 1
  }

  /** A list without duplicates keeps none after a toggle. */
  lemma ToggleKeepsNoDuplicates(prev: seq<string>, id: string)
    requires NoDuplicates(prev)
    ensures NoDuplicates(Toggle(prev, id))
  {
    ToggleKeepsOthers(prev, id);
  }

  /** The route of a property's detail page: `/property/${propertyId}`. */
  function PropertyPath(propertyId: string): (p: string)
    ensures |p| == 10 + |propertyId|
    ensures p[..10] == "/property/" && p[10..] == propertyId
  {
    "/property/" + propertyId
  }

  /** Distinct properties navigate to distinct paths. */
  lemma PropertyPathInjective(a: string, b: string)
    requires PropertyPath(a) == PropertyPath(b)
    ensures a == b
  {
  }

  /** The modal as `AppContent` renders it: the `error` prop is never
      passed, so the modal sees it as absent. */
  function AppModalView(isOpen: bool, s: Wallet.Session, m: WalletModal.ModalState): (v: WalletModal.View)
    ensures v.ConnectView? ==>
      v.shownError == (if Truthy(m.localError) then m.localError else None)
  {
    WalletModal.Render(isOpen, s.walletAddress, m, None)
  }

  /** The hook's `error` has no influence on what the modal shows. */
  lemma AppModalIgnoresHookError(isOpen: bool, s: Wallet.Session, e: Option<string>, m: WalletModal.ModalState)
    ensures AppModalView(isOpen, s, m) == AppModalView(isOpen, s.(error := e), m)
  {
  }

  /** A rejected connection made from the modal is never shown there: the
      hook stores a non-empty error, but the modal's attempt ends with no
      local error, and the hook's error does not reach the modal. */
  lemma RejectionNotShownInModal(s: Wallet.Session, m: WalletModal.ModalState,
                                 code: Option<int>, message: Option<string>)
    requires s.walletAddress == None && m.metaMaskInstalled
    ensures var s' := Wallet.ResolveStep(s, Wallet.Rejected(code, message));
      var m' := WalletModal.FinishConnectStep(WalletModal.BeginConnectStep(m), WalletModal.Fulfilled);
      Truthy(s'.error) &&
      AppModalView(true, s', m') == WalletModal.ConnectView(false, WalletModal.ConnectLabel, None)
  {
  }

  class AppContent {
    const wallet: Wallet.WalletSession
    const modal: WalletModal.Modal
    var favorites: seq<string>
    var isModalOpen: bool

    predicate Valid()
      reads this, wallet
    {
      wallet.Valid()
    }

    /** The modal as currently rendered. */
    function ModalView(): WalletModal.View
      reads this, wallet, modal
    {
      AppModalView(isModalOpen, wallet.State(), modal.State())
    }

    /** `useState(["1", "4"])`, `useState(false)`, and a fresh hook and
        modal. */
    constructor ()
      ensures Valid() && fresh(wallet) && fresh(modal)
      ensures favorites == InitialFavorites && !isModalOpen
      ensures wallet.State() == Wallet.Initial() && modal.State() == WalletModal.Initial()
    {
      wallet := new Wallet.WalletSession();
      modal := new WalletModal.Modal();
      favorites := InitialFavorites;
      isModalOpen := false;
    }

    method ToggleFavorite(propertyId: string)
      modifies this`favorites
      ensures favorites == Toggle(old(favorites), propertyId)
    {
      favorites := Toggle(favorites, propertyId);
    }

    /** The navbar's and the dashboard's `onConnectWallet`. */
    method OpenWalletModal()
      modifies this`isModalOpen
      ensures isModalOpen
    {
      isModalOpen := true;
    }

    /** The modal's `onClose`. */
    method CloseWalletModal()
      modifies this`isModalOpen
      ensures !isModalOpen
    {
      isModalOpen := false;
    }

    /** The modal's `handleDisconnect`: `onDisconnect` (the hook's
        `disconnectWallet`), then `onClose`. */
    method DisconnectFromModal()
      requires Valid()
      modifies wallet, this`isModalOpen
      ensures Valid() && wallet.State() == Wallet.DisconnectStep(old(wallet.State()))
      ensures !isModalOpen && favorites == old(favorites)
    {
      wallet.DisconnectWallet();
      CloseWalletModal();
    }

    /** The modal's `connectMetaMask` with `onConnect` bound to the hook's
        `connectWallet`, up to the point where `connectWallet` awaits the
        provider. Without a provider `connectWallet` returns at once, so
        the modal's attempt completes here. */
    method StartConnectFromModal(providerPresent: bool) returns (requested: bool)
      requires Valid()
      modifies wallet, modal
      ensures Valid() && requested == providerPresent
      ensures (wallet.State(), requested) == Wallet.ConnectRequest(old(wallet.State()), providerPresent)
      ensures modal.State() ==
        if requested then WalletModal.BeginConnectStep(old(modal.State()))
        else WalletModal.FinishConnectStep(WalletModal.BeginConnectStep(old(modal.State())), WalletModal.Fulfilled)
    {
      modal.BeginConnect();
      requested := wallet.ConnectWallet(providerPresent);
      if !requested {
        modal.FinishConnect(WalletModal.Fulfilled);
      }
    }

    /** The provider settles the request: `connectWallet` updates the hook
        and, having caught any rejection, fulfils, so the modal's attempt
        always ends without a local error of its own. A rejection of an
        attempt begun from the open modal leaves the hook holding an error
        while the rendered modal shows none. */
    method SettleConnectFromModal(res: Wallet.Resolution)
      requires Valid()
      modifies wallet, modal
      ensures Valid() && wallet.State() == Wallet.ResolveStep(old(wallet.State()), res)
      ensures modal.State() == WalletModal.FinishConnectStep(old(modal.State()), WalletModal.Fulfilled)
      ensures res.Rejected? && old(wallet.State()).walletAddress == None && isModalOpen &&
              old(modal.State()).metaMaskInstalled && old(modal.State()).localError == None ==>
        Truthy(wallet.error) && ModalView() == WalletModal.ConnectView(false, WalletModal.ConnectLabel, None)
    {
      wallet.ResolveConnect(res);
      modal.FinishConnect(WalletModal.Fulfilled);
    }
  }
}
