/** Little-endian integers of a fixed width. */
module LittleEndian {
  import opened Bytes

  function Pow256(n: nat): (r: nat)
    ensures r >= 1
  {
    if n == 0 then 1 else 256 * Pow256(n - 1)
  }

  /** The `n` low bytes of a value, least significant first. */
  function Le(value: nat, n: nat): (r: seq<byte>)
    ensures |r| == n
  {
    if n == 0 then [] else [value % 256] + Le(value / 256, n - 1)
  }

  function FromLe(bytes: seq<byte>): (r: nat)
    ensures r < Pow256(|bytes|)
  {
    if bytes == [] then 0 else bytes[0] + 256 * FromLe(bytes[1..])
  }

  lemma {:induction false} LeRoundTrip(value: nat, n: nat)
    requires value < Pow256(n)
    ensures FromLe(Le(value, n)) == value
  {
    if n > 0 {
      LeRoundTrip(value / 256, n - 1);
      assert Le(value, n)[1..] == Le(value / 256, n - 1);
    }
  }

  lemma {:induction false} FromLeRoundTrip(bytes: seq<byte>)
    ensures Le(FromLe(bytes), |bytes|) == bytes
  {
    if bytes != [] {
      FromLeRoundTrip(bytes[1..]);
      assert FromLe(bytes) / 256 == FromLe(bytes[1..]) && FromLe(bytes) % 256 == bytes[0];
    }
  }

  lemma Widths()
    ensures Pow256(1) == 0x100 && Pow256(2) == 0x1_0000 && Pow256(4) == 0x1_0000_0000
    ensures Pow256(8) == 0x1_0000_0000_0000_0000
  {
    assert Pow256(4) == 256 * Pow256(3) && Pow256(3) == 256 * Pow256(2);
    assert Pow256(8) == 256 * Pow256(7) && Pow256(7) == 256 * Pow256(6) && Pow256(6) == 256 * Pow256(5);
    assert Pow256(5) == 256 * Pow256(4);
  }

  /** The append loop of the encoders. */
  method AppendLe(destination: seq<byte>, value: nat, width: nat) returns (r: seq<byte>)
    ensures r == destination + Le(value, width)
  {
    r := destination;
    var rest := value;
    for i := 0 to width
      invariant r + Le(rest, width - i) == destination + Le(value, width)
    {
      assert r + Le(rest, width - i) == (r + [rest % 256]) + Le(rest / 256, width - i - 1);
      r := r + [rest % 256];
      rest := rest / 256;
    }
  }
}
