/** The navbar's pure helpers: which link is active, the link labels, and
    whether the address badge or the Connect button is shown. */
module Navbar {
  import opened Js
  import opened AddressDisplay
  import Wallet

  /** The four links, in the order they are rendered. */
  const Links: seq<string> := ["/", "/listings", "/favorites", "/dashboard"]

  /** `location.pathname === path` */
  function IsActive(pathname: string, path: string): bool {
    pathname == path
  }

  /** `path === "/" ? "Home" : path.replace("/", "").charAt(0).toUpperCase() + path.slice(2)` */
  function Label(path: string): (r: string)
    ensures path == "/" ==> r == "Home"
    ensures path != "/" ==> |r| <= |path|
  {
    if path == "/" then "Home"
    else ToUpperAscii(CharAt(RemoveFirst(path, '/'), 0)) + SliceFrom(path, 2)
  }

  /** For a path of at least two characters that starts with a slash, the
      label is its second character upper-cased, then the rest. */
  lemma LabelOfSlashPath(path: string)
    requires |path| >= 2 && path[0] == '/'
    ensures Label(path) == [UpperChar(path[1])] + path[2..]
  {
  }

  /** The labels of the four links. */
  lemma LinkLabels()
    ensures Label(Links[0]) == "Home"
    ensures Label(Links[1]) == "Listings"
    ensures Label(Links[2]) == "Favorites"
    ensures Label(Links[3]) == "Dashboard"
  {
    LabelOfSlashPath(Links[1]);
    LabelOfSlashPath(Links[2]);
    LabelOfSlashPath(Links[3]);
  }

  datatype NavLink = NavLink(to: string, text: string, active: bool)

  /** The rendered links: the four fixed paths in order, each with its
      label, active exactly when it is the current path. */
  function NavLinks(pathname: string): (r: seq<NavLink>)
    ensures |r| == |Links|
    ensures forall i :: 0 <= i < |r| ==>
      r[i].to == Links[i] && r[i].text == Label(Links[i]) && (r[i].active <==> pathname == Links[i])
  {
    seq(|Links|, i requires 0 <= i < |Links| => NavLink(Links[i], Label(Links[i]), IsActive(pathname, Links[i])))
  }

  /** The four paths are distinct, so at most one link is active. */
  lemma AtMostOneActive(pathname: string, i: nat, j: nat)
    requires i < |Links| && j < |Links|
    requires NavLinks(pathname)[i].active && NavLinks(pathname)[j].active
    ensures i == j
  {
  }

  /** What the right-hand side of the navbar shows. */
  datatype WalletSlot = AddressBadge(shortAddress: string) | ConnectButton

  /** `walletConnected && walletAddress ? <badge> : <Connect button>` */
  function WalletArea(walletConnected: bool, walletAddress: Option<string>): (w: WalletSlot)
    ensures w.AddressBadge? <==> walletConnected && Truthy(walletAddress)
    ensures w.AddressBadge? ==> w.shortAddress == ShortenAddress(walletAddress.value)
  {
    if walletConnected && Truthy(walletAddress) then AddressBadge(ShortenAddress(walletAddress.value))
    else ConnectButton
  }

  /** Fed from a consistent wallet session, the badge is shown exactly when
      a non-empty address is held; an empty-string account connects the
      session yet still shows the Connect button. */
  lemma BadgeIffAddress(s: Wallet.Session)
    requires Wallet.Consistent(s)
    ensures WalletArea(s.walletConnected, s.walletAddress).AddressBadge? <==>
      s.walletAddress.Some? && s.walletAddress.value != ""
    ensures s.walletAddress == Some("") ==>
      s.walletConnected && WalletArea(s.walletConnected, s.walletAddress) == ConnectButton
  {
  }
}
