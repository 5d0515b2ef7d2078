/** Integers in network byte order. */
module BigEndian {
  import opened Base

  /** One more than the largest integer of n octets. */
  function Bound(n: nat): (b: nat)
    ensures b > 0
  {
    if n == 0 then 1 else 256 * Bound(n - 1)
  }

  /** The low n octets of v, the most significant first. */
  function ToBytes(v: nat, n: nat): (bytes: seq<Byte>)
    ensures |bytes| == n
    decreases n
  {
    if n == 0 then [] else ToBytes(v / 256, n - 1) + [v % 256]
  }

  function FromBytes(bytes: seq<Byte>): nat
    decreases |bytes|
  {
    if bytes == [] then 0 else 256 * FromBytes(bytes[..|bytes| - 1]) + bytes[|bytes| - 1]
  }

  lemma {:induction false} FromToBytes(v: nat, n: nat)
    requires v < Bound(n)
    ensures FromBytes(ToBytes(v, n)) == v
    decreases n
  {
    if n > 0 {
      FromToBytes(v / 256, n - 1);
      assert ToBytes(v, n)[..n - 1] == ToBytes(v / 256, n - 1);
    }
  }

  lemma Bounds()
    ensures Bound(1) == 0x100 && Bound(2) == 0x1_0000 && Bound(3) == 0x100_0000 && Bound(4) == 0x1_0000_0000
  {
  }

  lemma BigBounds()
    ensures Bound(8) == 0x1_0000_0000_0000_0000
  {
    assert Bound(5) == 256 * Bound(4) && Bound(6) == 256 * Bound(5) && Bound(7) == 256 * Bound(6);
    Bounds();
  }

  function Word(a: Byte, b: Byte, c: Byte, d: Byte): nat {
    0x100_0000 * a + 0x1_0000 * b + 0x100 * c + d
  }

  /** Two to four octets, and what they are worth. */
  lemma {:induction false} WordIs(b: seq<Byte>)
    requires 1 <= |b| <= 4
    ensures FromBytes(b) == match |b|
                            case 1 => b[0]
                            case 2 => Word(0, 0, b[0], b[1])
                            case 3 => Word(0, b[0], b[1], b[2])
                            case _ => Word(b[0], b[1], b[2], b[3])
  {
    var front := b[..|b| - 1];
    if |b| == 1 {
      assert front == [];
    } else {
      WordIs(front);
    }
  }

  /** Eight octets are two words. */
  lemma LongIs(b: seq<Byte>)
    requires |b| == 8
    ensures FromBytes(b) == 0x1_0000_0000 * Word(b[0], b[1], b[2], b[3]) + Word(b[4], b[5], b[6], b[7])
  {
    var five, six, seven := b[..5], b[..6], b[..7];
    assert five[..4] == b[..4] && six[..5] == five && seven[..6] == six;
    WordIs(b[..4]);
    assert FromBytes(five) == 0x100 * FromBytes(b[..4]) + b[4] as nat;
    assert FromBytes(six) == 0x100 * FromBytes(five) + b[5] as nat;
    assert FromBytes(seven) == 0x100 * FromBytes(six) + b[6] as nat;
  }
}
