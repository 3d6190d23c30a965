/** The shortened display form of an account address, `first6...last4`,
    written identically in the wallet modal and in the navbar. */
module AddressDisplay {
  import opened Js

  /** `${address.slice(0, 6)}...${address.slice(-4)}`. For an address of n
      characters the result is its first min(6, n) characters, "...", and
      its last min(4, n) characters; short addresses are NOT returned as
      they are, the two slices overlap instead. */
  function ShortenAddress(address: string): (r: string)
    ensures var n := |address|;
      var p, q := MinNat(n, 6), MinNat(n, 4);
      |r| == p + 3 + q && r[..p] == address[..p] &&
      r[p..p + 3] == "..." && r[p + 3..] == address[n - q..]
    ensures |address| >= 10 ==>
      |r| == 13 && r == address[..6] + "..." + address[|address| - 4..]
  {
    var head := Slice(address, 0, 6);
    var tail := SliceFrom(address, -4);
    assert head == address[..MinNat(|address|, 6)];
    assert tail == address[|address| - MinNat(|address|, 4)..];
    head + "..." + tail
  }

  /** The display form of a full-length address. */
  lemma ShortenFullAddress()
    ensures ShortenAddress("0x1234567890abcdef") == "0x1234...cdef"
  {
  }

  /** An address shorter than ten characters is repeated around the
      ellipsis rather than returned unmodified. */
  lemma ShortenShortAddress()
    ensures ShortenAddress("0x12") == "0x12...0x12"
  {
  }

  /** Two full-length addresses with the same display form agree on their
      first six and last four characters: the display form hides exactly the
      middle. */
  lemma ShortenedFormDeterminesEnds(a: string, b: string)
    requires |a| >= 10 && |b| >= 10
    requires ShortenAddress(a) == ShortenAddress(b)
    ensures a[..6] == b[..6] && a[|a| - 4..] == b[|b| - 4..]
  {
  }
}
