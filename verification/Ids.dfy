/**
 The two spellings of an event ID: the 8-byte big-endian database key, and the hexadecimal text
 that clients see and send back.
 */
module Ids {
  import opened Json
  import opened LevelDb

  const WORD: nat := 0x1_0000_0000_0000_0000

  /** Go's uint64. */
  type uint64 = x: int | 0 <= x < WORD

  // ---------- 8-byte big-endian keys ----------

  function Pow256(w: nat): (p: nat)
    ensures p >= 1
  {
    if w == 0 then 1 else 256 * Pow256(w - 1)
  }

  function BigEndian(v: nat, w: nat): (b: string)
    ensures |b| == w
    ensures forall i | 0 <= i < |b| :: b[i] < 256 as char
  {
    if w == 0 then "" else BigEndian(v / 256, w - 1) + [(v % 256) as char]
  }

  function FromBigEndian(b: string): nat {
    if b == "" then 0 else FromBigEndian(b[..|b| - 1]) * 256 + b[|b| - 1] as nat
  }

  /** Writes the bytes of `v` from the right into an 8-byte buffer that already ends in `written`. */
  function PutUint64(v: nat, written: string): string
    requires |written| <= 8
    decreases 8 - |written|
  {
    if |written| == 8 then written else PutUint64(v / 256, [(v % 256) as char] + written)
  }

  function Uint64ToByte(v: uint64): Key { PutUint64(v, "") }

  function ByteToUint64(b: Key): nat
    requires |b| == 8
  {
    FromBigEndian(b)
  }

  predicate IsKey(k: Key) {
    |k| == 8 && forall i | 0 <= i < 8 :: k[i] < 256 as char
  }

  lemma {:induction false} PutUint64IsBigEndian(v: nat, written: string)
    requires |written| <= 8
    ensures PutUint64(v, written) == BigEndian(v, 8 - |written|) + written
    ensures written == "" ==> PutUint64(v, written) == BigEndian(v, 8)
    decreases 8 - |written|
  {
    if |written| < 8 {
      var last := [(v % 256) as char];
      PutUint64IsBigEndian(v / 256, last + written);
      assert BigEndian(v, 8 - |written|) == BigEndian(v / 256, 8 - |last + written|) + last;
    }
  }

  lemma {:induction false} BigEndianRoundTrip(v: nat, w: nat)
    requires v < Pow256(w)
    ensures FromBigEndian(BigEndian(v, w)) == v
  {
    if w > 0 {
      BigEndianRoundTrip(v / 256, w - 1);
      var b := BigEndian(v, w);
      assert b[..|b| - 1] == BigEndian(v / 256, w - 1);
    }
  }

  lemma {:induction false} FromBigEndianRoundTrip(b: string)
    requires forall i | 0 <= i < |b| :: b[i] < 256 as char
    ensures FromBigEndian(b) < Pow256(|b|)
    ensures BigEndian(FromBigEndian(b), |b|) == b
  {
    if b != "" {
      var n := |b| - 1;
      FromBigEndianRoundTrip(b[..n]);
      assert FromBigEndian(b) / 256 == FromBigEndian(b[..n]);
      assert b == b[..n] + [b[n]];
    }
  }

  /** The order of two byte strings of one length is decided by all but the last byte, then by it. */
  lemma {:induction false} LessByLast(a: string, b: string, x: char, y: char)
    requires |a| == |b|
    ensures Less(a + [x], b + [y]) <==> Less(a, b) || (a == b && x < y)
  {
    if a == "" {
      assert a + [x] == [x] && b + [y] == [y];
      assert [x][1..] == "" && [y][1..] == "";
    } else {
      LessByLast(a[1..], b[1..], x, y);
      assert (a + [x])[1..] == a[1..] + [x] && (b + [y])[1..] == b[1..] + [y];
      assert a == b <==> a[0] == b[0] && a[1..] == b[1..] by {
        assert a == [a[0]] + a[1..] && b == [b[0]] + b[1..];
      }
    }
  }

  lemma {:induction false} BigEndianOrder(v: nat, u: nat, w: nat)
    requires v < Pow256(w) && u < Pow256(w)
    ensures Less(BigEndian(v, w), BigEndian(u, w)) <==> v < u
  {
    if w > 0 {
      BigEndianOrder(v / 256, u / 256, w - 1);
      BigEndianRoundTrip(v / 256, w - 1);
      BigEndianRoundTrip(u / 256, w - 1);
      LessByLast(BigEndian(v / 256, w - 1), BigEndian(u / 256, w - 1), (v % 256) as char, (u % 256) as char);
    }
  }

  lemma Pow256Word()
    ensures Pow256(8) == WORD
  {
    assert Pow256(4) == 0x1_0000_0000;
    assert Pow256(6) == 0x1_0000_0000_0000;
  }

  /** The two conversions are inverse to each other. */
  lemma KeyRoundTrip(v: uint64, k: Key)
    ensures IsKey(Uint64ToByte(v)) && ByteToUint64(Uint64ToByte(v)) == v
    ensures IsKey(k) ==> ByteToUint64(k) < WORD && Uint64ToByte(ByteToUint64(k)) == k
  {
    Pow256Word();
    PutUint64IsBigEndian(v, "");
    BigEndianRoundTrip(v, 8);
    if IsKey(k) { PutUint64IsBigEndian(FromBigEndian(k), ""); }
    if IsKey(k) { FromBigEndianRoundTrip(k); }
  }

  /** Bytewise order of the keys is numeric order of the IDs. */
  lemma KeyOrder(v: uint64, u: uint64)
    ensures Less(Uint64ToByte(v), Uint64ToByte(u)) <==> v < u
  {
    Pow256Word();
    PutUint64IsBigEndian(v, "");
    PutUint64IsBigEndian(u, "");
    BigEndianOrder(v, u, 8);
  }

  // ---------- hexadecimal text ----------

  function Digit(d: nat): char
    requires d < 16
  {
    if d < 10 then '0' + d as char else 'a' + (d - 10) as char
  }

  function DigitValue(c: char): Option<nat> {
    if '0' <= c <= '9' then Some((c - '0') as nat)
    else if 'a' <= c <= 'f' then Some((c - 'a') as nat + 10)
    else if 'A' <= c <= 'F' then Some((c - 'A') as nat + 10)
    else None
  }

  /** strconv.FormatUint(v, 16) */
  function FormatHex(v: nat): (s: string)
    ensures s != ""
  {
    if v < 16 then [Digit(v)] else FormatHex(v / 16) + [Digit(v % 16)]
  }

  /** The value of a non-empty string of hexadecimal digits. */
  function HexValue(s: string): Option<nat>
    requires s != ""
  {
    var last := DigitValue(s[|s| - 1]);
    if last.None? then None
    else if |s| == 1 then last
    else
      var high := HexValue(s[..|s| - 1]);
      if high.None? then None else Some(high.value * 16 + last.value)
  }

  /** strconv.ParseUint(s, 16, 64): no sign, no separators, and a range error from 2^64 on. */
  function ParseHex(s: string): (r: Option<nat>)
    ensures r.Some? ==> r.value < WORD
  {
    if s == "" then None
    else
      var v := HexValue(s);
      if v.Some? && v.value < WORD then v else None
  }

  lemma {:induction false} HexRoundTrip(v: nat)
    ensures HexValue(FormatHex(v)) == Some(v)
    ensures v < WORD ==> ParseHex(FormatHex(v)) == Some(v)
  {
    if v >= 16 {
      HexRoundTrip(v / 16);
      var s := FormatHex(v);
      assert s[..|s| - 1] == FormatHex(v / 16);
    }
  }

  const DIGITS := "0123456789abcdef"
  const CAPITALS := "0123456789ABCDEF"

  lemma DigitSpelled(i: nat)
    requires i < 16
    ensures Digit(i) == DIGITS[i] && DigitValue(DIGITS[i]) == Some(i) && DigitValue(CAPITALS[i]) == Some(i)
  {
  }

  lemma DigitRead(c: char)
    ensures DigitValue(c).Some? <==> c in DIGITS || c in CAPITALS
  {
    if DigitValue(c).Some? {
      assert c == DIGITS[DigitValue(c).value] || c == CAPITALS[DigitValue(c).value];
    } else {
      assert forall k | 0 <= k < 16 :: DIGITS[k] != c && CAPITALS[k] != c;
    }
  }

  /** The value of a text, digit by digit; small and capital letters are read alike, nothing else is. */
  lemma HexReads(high: string, c: char, i: nat)
    requires i < 16
    ensures HexValue([DIGITS[i]]) == Some(i) && HexValue([CAPITALS[i]]) == Some(i)
    ensures HexValue([c]).Some? <==> c in DIGITS || c in CAPITALS
    ensures high != "" ==>
              var h, last := HexValue(high), HexValue([c]);
              HexValue(high + [c]) == if h.Some? && last.Some? then Some(16 * h.value + last.value) else None
  {
    hide DIGITS, CAPITALS, DigitValue;
    DigitSpelled(i);
    DigitRead(c);
    assert (high + [c])[..|high|] == high;
  }

  /** Numbers are written in small letters and without leading zeros. */
  lemma {:induction false} HexWrites(v: nat)
    ensures v < 16 ==> FormatHex(v) == [DIGITS[v]]
    ensures v >= 16 ==> FormatHex(v) == FormatHex(v / 16) + [DIGITS[v % 16]]
    ensures v > 0 ==> FormatHex(v)[0] != '0'
  {
    hide Digit, DIGITS;
    DigitSpelled(v % 16);
    if v >= 16 {
      HexWrites(v / 16);
    } else if v > 0 {
      NotZero(v);
    }
  }

  lemma NotZero(d: nat)
    requires 1 <= d < 16
    ensures DIGITS[d] != '0'
  {
  }
}
