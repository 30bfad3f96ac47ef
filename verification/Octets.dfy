/** Numbers below 256 as octets. Conversions are costly to reason about, so they are counted up to. */
module Octets {
  lemma NextOctet(b: bv8)
    requires b != 255
    ensures (b + 1) as nat == b as nat + 1
  {
  }

  lemma LastOctet(b: bv8)
    ensures b as nat < 256 && (b as nat == 255 <==> b == 255)
  {
  }

  /** Every number below 256 is some octet's. */
  lemma {:induction false} OctetOf(n: nat) returns (b: bv8)
    requires n < 256
    ensures b as nat == n
  {
    if n == 0 {
      b := 0;
    } else {
      var before := OctetOf(n - 1);
      LastOctet(before);
      NextOctet(before);
      b := before + 1;
    }
  }

  lemma ConversionFinds(n: nat, b: bv8)
    requires n < 256 && b as nat == n
    ensures b == n as bv8
  {
  }

  lemma OctetRoundTrip(n: nat)
    requires n < 256
    ensures (n as bv8) as nat == n
  {
    var b := OctetOf(n);
    ConversionFinds(n, b);
  }
}
