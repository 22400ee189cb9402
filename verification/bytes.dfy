/**
 * Bytes, 32-byte words and 20-byte addresses as they appear in EVM logs.
 * A `uint256` is stored in a word big-endian (most significant byte first),
 * and an `address` is stored in the low 20 bytes of a word, left-padded with
 * zeros (section "Formal Specification of the Encoding" of the Solidity
 * Contract ABI Specification).
 */
module Bytes {

  newtype byte = x: int | 0 <= x < 256

  /** A 32-byte word: one log topic, a transaction hash, or one ABI data slot. */
  type Word = s: seq<byte> | |s| == 32 witness seq(32, _ => 0)

  /** A 20-byte account or contract address. */
  type Address = s: seq<byte> | |s| == 20 witness seq(20, _ => 0)

  const ZeroWord: Word := ToBigEndian(0, 32)
  const ZeroAddress: Address := ToBigEndian(0, 20)

  function Pow256(n: nat): (r: nat)
    ensures r >= 1
  {
    if n == 0 then 1 else 256 * Pow256(n - 1)
  }

  /** The unsigned integer denoted by `s`, most significant byte first. */
  function BigEndian(s: seq<byte>): (v: nat)
    ensures v < Pow256(|s|)
  {
    if s == [] then 0
    else
      var p := BigEndian(s[..|s| - 1]);
      assert p * 256 + 255 < Pow256(|s| - 1) * 256 by {
        assert p + 1 <= Pow256(|s| - 1);
      }
      p * 256 + s[|s| - 1] as nat
  }

  /** The `n`-byte big-endian encoding of `v` modulo 256^n. */
  function ToBigEndian(v: nat, n: nat): (s: seq<byte>)
    ensures |s| == n
  {
    if n == 0 then [] else ToBigEndian(v / 256, n - 1) + [(v % 256) as byte]
  }

  /** Encoding a number that fits in `n` bytes and reading it back gives the number. */
  lemma {:induction false} BigEndianOfEncoding(v: nat, n: nat)
    requires v < Pow256(n)
    ensures BigEndian(ToBigEndian(v, n)) == v
  {
    if n == 0 {
      assert ToBigEndian(v, n) == [];
    } else {
      var q, r := v / 256, v % 256;
      QuotientBound(v, Pow256(n - 1));
      BigEndianOfEncoding(q, n - 1);
      EncodingStep(v, n);
      Recompose(BigEndian(ToBigEndian(v, n)), BigEndian(ToBigEndian(q, n - 1)), q, r, v);
    }
  }

  lemma Recompose(x: int, y: int, q: int, r: int, v: int)
    requires x == y * 256 + r && y == q && v == q * 256 + r
    ensures x == v
  {
  }

  /** The last byte of an encoding is the remainder; the rest encodes the quotient. */
  lemma EncodingStep(v: nat, n: nat)
    requires n > 0
    ensures BigEndian(ToBigEndian(v, n)) == BigEndian(ToBigEndian(v / 256, n - 1)) * 256 + v % 256
  {
    var s := ToBigEndian(v, n);
    assert s[..n - 1] == ToBigEndian(v / 256, n - 1);
  }

  lemma QuotientBound(v: nat, p: nat)
    requires v < 256 * p
    ensures v / 256 < p && v == v / 256 * 256 + v % 256
  {
  }

  /** Reading any byte string and re-encoding it at the same width gives the string back. */
  lemma {:induction false} EncodingOfBigEndian(s: seq<byte>)
    ensures ToBigEndian(BigEndian(s), |s|) == s
  {
    if s != [] {
      var p := s[..|s| - 1];
      var b := s[|s| - 1] as nat;
      var v := BigEndian(s);
      assert v == BigEndian(p) * 256 + b;
      assert v / 256 == BigEndian(p);
      assert v % 256 == b;
      EncodingOfBigEndian(p);
      assert s == p + [s[|s| - 1]];
    }
  }

  /** The address held in a word: its low (last) 20 bytes. */
  function LowAddress(w: Word): Address
  {
    w[12..]
  }

  /** The word an indexed `address` parameter is stored in: 12 zero bytes, then the address. */
  function PadAddress(a: Address): (w: Word)
    ensures LowAddress(w) == a
    ensures BigEndian(w) == BigEndian(a)
  {
    LeadingZeros(12, a);
    ToBigEndian(0, 12) + a
  }

  /** Leading zero bytes do not change the big-endian value. */
  lemma {:induction false} LeadingZeros(n: nat, s: seq<byte>)
    ensures BigEndian(ToBigEndian(0, n) + s) == BigEndian(s)
  {
    var z := ToBigEndian(0, n);
    if s == [] {
      assert z + s == z;
      BigEndianOfEncoding(0, n);
    } else {
      var p := s[..|s| - 1];
      assert (z + s)[..|z + s| - 1] == z + p;
      LeadingZeros(n, p);
    }
  }
}
