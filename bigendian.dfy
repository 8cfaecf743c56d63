/**
 * `big.Int.Bytes()` for a non-negative integer: its absolute value as
 * big-endian octets with no leading zero octet (zero gives no octets). This
 * is the octet string that section 2 of RFC 7518 calls Base64urlUInt before
 * it is base64url-encoded.
 */
module BigEndian {
  import opened Text

  /** True if the octet string has no leading zero octet. */
  predicate Minimal(b: seq<byte>) {
    b == [] || b[0] != 0
  }

  /** The integer a big-endian octet string denotes. */
  function FromBytes(b: seq<byte>): nat {
    if b == [] then 0 else FromBytes(b[..|b| - 1]) * 256 + b[|b| - 1] as int
  }

  /** `big.Int.Bytes()`: the minimal big-endian octets of `n`. */
  function ToBytes(n: nat): (r: seq<byte>)
    ensures Minimal(r)
    ensures (r == []) <==> (n == 0)
  {
    if n == 0 then [] else ToBytes(n / 256) + [(n % 256) as byte]
  }

  /** Reading the octets back gives the integer. */
  lemma {:induction false} FromToBytes(n: nat)
    ensures FromBytes(ToBytes(n)) == n
  {
    if n > 0 {
      FromToBytes(n / 256);
      var r := ToBytes(n);
      assert r[..|r| - 1] == ToBytes(n / 256);
    }
  }

  /** A minimal octet string is the one ToBytes gives for the integer it denotes. */
  lemma {:induction false} ToFromBytes(b: seq<byte>)
    requires Minimal(b)
    ensures ToBytes(FromBytes(b)) == b
  {
    if b != [] {
      var init := b[..|b| - 1];
      var n := FromBytes(b);
      assert Minimal(init) by {
        if init != [] { assert init[0] == b[0]; }
      }
      ToFromBytes(init);
      assert n / 256 == FromBytes(init) && n % 256 == b[|b| - 1] as int;
    }
  }

  /** ToBytes is injective: distinct integers publish distinct octet strings. */
  lemma ToBytesInjective(m: nat, n: nat)
    requires ToBytes(m) == ToBytes(n)
    ensures m == n
  {
    FromToBytes(m);
    FromToBytes(n);
  }

  /** The usual RSA public exponent 65537 is the three octets 01 00 01. */
  lemma ExponentF4()
    ensures ToBytes(65537) == [1, 0, 1]
  {
    assert ToBytes(1) == [1];
    assert ToBytes(256) == [1, 0];
  }
}
