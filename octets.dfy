/**
 * The bit manipulation `generate_mac` applies to the first byte of a MAC
 * address that has no OUI, against a reference definition in arithmetic.
 */
module Octets {

  /**
   * Reference definition of the first byte of an OUI-less MAC: the random
   * byte with bit 0 equal to `multicast`, bit 1 equal to `!uaa`, and bits 2..7 kept.
   */
  function AddressOctet(b: bv8, uaa: bool, multicast: bool): (r: bv8)
    ensures r & 1 == (if multicast then 1 else 0)
    ensures r & 2 == (if uaa then 0 else 2)
    ensures r & 0xFC == b & 0xFC
  {
    (b / 4) * 4 + (if uaa then 0 else 2) + (if multicast then 1 else 0)
  }

  /**
   * The statements `mac[0] |= 1` / `mac[0] &= ~1` followed by
   * `mac[0] &= ~(1 << 1)` / `mac[0] |= 1 << 1` compute `AddressOctet`.
   */
  lemma OctetFromBitOperations(x: bv8, uaa: bool, multicast: bool)
    ensures
      var y := if multicast then x | 1 else x & !1;
      var z := if uaa then y & !2 else y | 2;
      z == AddressOctet(x, uaa, multicast)
  {
  }
}
