/**
 * Base32 without padding (sections 6 and 3.2 of RFC 4648) and the separator- and case-tolerant
 * reading of it that join codes go through.
 *
 * The block functions follow the layout of the encoder and decoder in Go's standard library, on
 * which the repository relies; the bit-stream lemma at the end of the encoding part ties them to
 * the definition in the RFC.
 */
module Base32 {
  import opened Wrappers
  import opened Text

  type Byte = n: int | 0 <= n < 256
  type Quint = n: int | 0 <= n < 32

  // ---------- 5-bit regrouping ----------

  function PackBlock(b: seq<Byte>): (q: seq<Quint>)
    requires |b| == 5
    ensures |q| == 8
  {
    [ b[0] / 8,
      (b[0] % 8) * 4 + b[1] / 64,
      (b[1] / 2) % 32,
      (b[1] % 2) * 16 + b[2] / 16,
      (b[2] % 16) * 2 + b[3] / 128,
      (b[3] / 4) % 32,
      (b[3] % 4) * 8 + b[4] / 32,
      b[4] % 32 ]
  }

  function UnpackBlock(q: seq<Quint>): (b: seq<Byte>)
    requires |q| == 8
    ensures |b| == 5
  {
    var q0: int, q1: int, q2: int, q3: int := q[0], q[1], q[2], q[3];
    var q4: int, q5: int, q6: int, q7: int := q[4], q[5], q[6], q[7];
    [ q0 * 8 + q1 / 4,
      (q1 % 4) * 64 + q2 * 2 + q3 / 16,
      (q3 % 16) * 16 + q4 / 2,
      (q4 % 2) * 128 + q5 * 4 + q6 / 8,
      (q6 % 8) * 32 + q7 ]
  }

  /** Characters that carry a final group of fewer than five bytes. */
  function TailChars(n: nat): (k: nat)
    requires n < 5
    ensures k < 8 && (8 * n + 4) / 5 == k
  {
    if n == 0 then 0 else if n == 1 then 2 else if n == 2 then 4 else if n == 3 then 5 else 7
  }

  /** Bytes the decoder delivers for a final group of fewer than eight characters: 1, 3 and 6 give none. */
  function TailBytes(k: nat): (n: nat)
    requires k < 8
    ensures n < 5
  {
    if k == 2 then 1 else if k == 4 then 2 else if k == 5 then 3 else if k == 7 then 4 else 0
  }

  function Zeros(n: nat): (z: seq<Byte>)
    ensures |z| == n && forall i :: 0 <= i < n ==> z[i] == 0
  {
    seq(n, _ => 0)
  }

  function ZeroQuints(n: nat): (z: seq<Quint>)
    ensures |z| == n && forall i :: 0 <= i < n ==> z[i] == 0
  {
    seq(n, _ => 0)
  }

  function EncodeQuints(d: seq<Byte>): (q: seq<Quint>)
  {
    if |d| >= 5 then PackBlock(d[..5]) + EncodeQuints(d[5..])
    else PackBlock(d + Zeros(5 - |d|))[..TailChars(|d|)]
  }

  function DecodeQuints(q: seq<Quint>): seq<Byte>
  {
    if |q| >= 8 then UnpackBlock(q[..8]) + DecodeQuints(q[8..])
    else UnpackBlock(q + ZeroQuints(8 - |q|))[..TailBytes(|q|)]
  }

  /** Two fields packed side by side come apart again. */
  lemma Fields(hi: nat, lo: nat, w: nat)
    requires w == 2 || w == 4 || w == 8 || w == 16
    requires lo < w
    ensures (hi * w + lo) / w == hi && (hi * w + lo) % w == lo
  {
    if w == 2 {
      assert (hi * 2 + lo) / 2 == hi;
    } else if w == 4 {
      assert (hi * 4 + lo) / 4 == hi;
    } else if w == 8 {
      assert (hi * 8 + lo) / 8 == hi;
    } else {
      assert (hi * 16 + lo) / 16 == hi;
    }
  }

  lemma UnpackPack(b: seq<Byte>)
    requires |b| == 5
    ensures UnpackBlock(PackBlock(b)) == b
  {
    Fields(b[0] % 8, b[1] / 64, 4);
    Fields(b[1] % 2, b[2] / 16, 16);
    Fields(b[2] % 16, b[3] / 128, 2);
    Fields(b[3] % 4, b[4] / 32, 8);
    Middle(b[1]);
    Middle4(b[3]);
  }

  lemma Middle(b: Byte)
    ensures (b / 64) * 64 + ((b / 2) % 32) * 2 + b % 2 == b
  {
  }

  lemma Middle4(b: Byte)
    ensures (b / 128) * 128 + ((b / 4) % 32) * 4 + b % 4 == b
  {
  }

  /** The zero bytes that pad a short final group also end up as zero characters. */
  lemma PackTail(d: seq<Byte>)
    requires |d| < 5
    ensures var q := PackBlock(d + Zeros(5 - |d|));
            q == q[..TailChars(|d|)] + ZeroQuints(8 - TailChars(|d|))
  {
    hide PackBlock;
    var b := d + Zeros(5 - |d|);
    PackZeros(b, |d|);
  }

  lemma PackZeros(b: seq<Byte>, n: nat)
    requires |b| == 5 && n < 5 && forall i :: n <= i < 5 ==> b[i] == 0
    ensures forall i :: TailChars(n) <= i < 8 ==> PackBlock(b)[i] == 0
  {
    if n <= 1 {
      assert b[1] == 0 && b[2] == 0;
    }
    if n <= 3 {
      assert b[3] == 0;
    }
    assert b[4] == 0;
    assert n == 0 ==> b[0] == 0;
    assert n <= 2 ==> b[2] == 0;
  }

  lemma {:induction false} DecodeEncodeQuints(d: seq<Byte>)
    ensures DecodeQuints(EncodeQuints(d)) == d
  {
    if |d| >= 5 {
      var head := PackBlock(d[..5]);
      var q := EncodeQuints(d);
      assert q[..8] == head && q[8..] == EncodeQuints(d[5..]);
      UnpackPack(d[..5]);
      DecodeEncodeQuints(d[5..]);
    } else {
      var b := d + Zeros(5 - |d|);
      PackTail(d);
      UnpackPack(b);
      assert TailBytes(TailChars(|d|)) == |d|;
    }
  }

  // ---------- the definition in RFC 4648: both sides are one bit string ----------

  /** The bits of `d` appended to the bit string `acc`, read as a number. */
  function AppendBytes(acc: nat, d: seq<Byte>): nat
    decreases |d|
  {
    if d == [] then acc else AppendBytes(acc * 256 + d[0], d[1..])
  }

  function AppendQuints(acc: nat, q: seq<Quint>): nat
    decreases |q|
  {
    if q == [] then acc else AppendQuints(acc * 32 + q[0], q[1..])
  }

  /** The zero bits that fill the last character: 5 * |quints| - 8 * |bytes| of them. */
  function PadScale(n: nat): nat {
    if n % 5 == 1 then 4 else if n % 5 == 2 then 16 else if n % 5 == 3 then 2 else if n % 5 == 4 then 8 else 1
  }

  lemma AppendBytesBlock(acc: nat, b: seq<Byte>)
    requires |b| == 5
    ensures AppendBytes(acc, b)
         == (((((acc * 256 + b[0]) * 256 + b[1]) * 256 + b[2]) * 256 + b[3]) * 256) + b[4]
  {
    var a1 := acc * 256 + b[0];
    var a2 := a1 * 256 + b[1];
    var a3 := a2 * 256 + b[2];
    assert b[1..][1..] == b[2..] && b[2..][1..] == b[3..] && b[3..][1..] == b[4..] && b[4..][1..] == [];
    var a4 := a3 * 256 + b[3];
    assert AppendBytes(acc, b) == AppendBytes(a1, b[1..]);
    assert AppendBytes(a1, b[1..]) == AppendBytes(a2, b[2..]);
    assert AppendBytes(a2, b[2..]) == AppendBytes(a3, b[3..]);
    assert AppendBytes(a3, b[3..]) == AppendBytes(a4, b[4..]);
    assert AppendBytes(a4, b[4..]) == a4 * 256 + b[4];
  }

  lemma {:induction false} AppendBytesConcat(acc: nat, a: seq<Byte>, b: seq<Byte>)
    ensures AppendBytes(acc, a + b) == AppendBytes(AppendBytes(acc, a), b)
    decreases |a|
  {
    if a == [] {
      assert a + b == b;
    } else {
      assert (a + b)[1..] == a[1..] + b;
      AppendBytesConcat(acc * 256 + a[0], a[1..], b);
    }
  }

  lemma {:induction false} AppendQuintsConcat(acc: nat, a: seq<Quint>, b: seq<Quint>)
    ensures AppendQuints(acc, a + b) == AppendQuints(AppendQuints(acc, a), b)
    decreases |a|
  {
    if a == [] {
      assert a + b == b;
    } else {
      assert (a + b)[1..] == a[1..] + b;
      AppendQuintsConcat(acc * 32 + a[0], a[1..], b);
    }
  }

  lemma AppendFour(acc: nat, q: seq<Quint>)
    requires |q| == 4
    ensures AppendQuints(acc, q) == (((acc * 32 + q[0]) * 32 + q[1]) * 32 + q[2]) * 32 + q[3]
  {
    var a1 := acc * 32 + q[0];
    var a2 := a1 * 32 + q[1];
    var a3 := a2 * 32 + q[2];
    assert q[1..][1..] == q[2..] && q[2..][1..] == q[3..] && q[3..][1..] == [];
    assert AppendQuints(acc, q) == AppendQuints(a1, q[1..]);
    assert AppendQuints(a1, q[1..]) == AppendQuints(a2, q[2..]);
    assert AppendQuints(a2, q[2..]) == AppendQuints(a3, q[3..]);
    assert AppendQuints(a3, q[3..]) == a3 * 32 + q[3];
  }

  lemma AppendQuintsBlock(acc: nat, q: seq<Quint>)
    requires |q| == 8
    ensures AppendQuints(acc, q)
         == ((((((((acc * 32 + q[0]) * 32 + q[1]) * 32 + q[2]) * 32 + q[3]) * 32
            + q[4]) * 32 + q[5]) * 32 + q[6]) * 32) + q[7]
  {
    var front, back := q[..4], q[4..];
    AppendQuintsConcat(acc, front, back);
    assert q == front + back;
    AppendFour(acc, front);
    AppendFour(AppendQuints(acc, front), back);
  }

  /** A block of five bytes and its eight characters are the same 40 bits. */
  lemma PackBlockBits(acc: nat, b: seq<Byte>)
    requires |b| == 5
    ensures AppendQuints(acc, PackBlock(b)) == AppendBytes(acc, b)
  {
    AppendBytesBlock(acc, b);
    AppendQuintsBlock(acc, PackBlock(b));
    Middle(b[1]);
    Middle4(b[3]);
  }

  lemma {:induction false} AppendZeroQuints(acc: nat, k: nat)
    requires k <= 8
    ensures AppendQuints(acc, ZeroQuints(k)) == acc * Power(32, k)
    decreases k
  {
    if k > 0 {
      assert ZeroQuints(k)[1..] == ZeroQuints(k - 1);
      AppendZeroQuints(acc * 32, k - 1);
      MulPower(acc, 32, k);
    }
  }

  lemma {:induction false} AppendZeroBytes(acc: nat, k: nat)
    requires k <= 5
    ensures AppendBytes(acc, Zeros(k)) == acc * Power(256, k)
    decreases k
  {
    if k > 0 {
      assert Zeros(k)[1..] == Zeros(k - 1);
      AppendZeroBytes(acc * 256, k - 1);
      MulPower(acc, 256, k);
    }
  }

  function Power(base: nat, k: nat): nat {
    if k == 0 then 1 else base * Power(base, k - 1)
  }

  lemma MulPower(acc: nat, base: nat, k: nat)
    requires k > 0
    ensures acc * base * Power(base, k - 1) == acc * Power(base, k)
  {
  }

  lemma TailBits(acc: nat, d: seq<Byte>)
    requires |d| < 5
    ensures AppendQuints(acc, EncodeQuints(d)) == AppendBytes(acc, d) * PadScale(|d|)
  {
    var n, k := |d|, TailChars(|d|);
    var q := PackBlock(d + Zeros(5 - n));
    PackTail(d);
    PackBlockBits(acc, d + Zeros(5 - n));
    AppendBytesConcat(acc, d, Zeros(5 - n));
    AppendZeroBytes(AppendBytes(acc, d), 5 - n);
    AppendQuintsConcat(acc, q[..k], ZeroQuints(8 - k));
    AppendZeroQuints(AppendQuints(acc, q[..k]), 8 - k);
    Powers();
    var x, y := AppendBytes(acc, d), AppendQuints(acc, q[..k]);
    assert x * Power(256, 5 - n) == y * Power(32, 8 - k);
    CancelPad(x, y, n);
  }

  lemma Powers()
    ensures Power(256, 1) == 256 && Power(256, 2) == 65536 && Power(256, 3) == 16777216
    ensures Power(256, 4) == 4294967296 && Power(256, 5) == 1099511627776
    ensures Power(32, 1) == 32 && Power(32, 3) == 32768 && Power(32, 4) == 1048576
    ensures Power(32, 6) == 1073741824 && Power(32, 8) == 1099511627776
  {
    assert Power(32, 2) == 1024;
    assert Power(32, 5) == 33554432;
    assert Power(32, 7) == 34359738368;
  }

  lemma CancelPad(x: nat, y: nat, n: nat)
    requires n < 5
    requires x * Power(256, 5 - n) == y * Power(32, 8 - TailChars(n))
    ensures y == x * PadScale(n)
  {
    Powers();
    if n == 0 {
      assert x * 1099511627776 == y * 1099511627776;
    } else if n == 1 {
      assert x * 4294967296 == y * 1073741824;
    } else if n == 2 {
      assert x * 16777216 == y * 1048576;
    } else if n == 3 {
      assert x * 65536 == y * 32768;
    } else {
      assert x * 256 == y * 32;
    }
  }

  /**
   * The encoding is the RFC's: the characters spell the input's bit string, filled with zero bits
   * up to a whole number of 5-bit groups, whatever bits stand in front.
   */
  lemma {:induction false} EncodingIsTheBitString(acc: nat, d: seq<Byte>)
    ensures AppendQuints(acc, EncodeQuints(d)) == AppendBytes(acc, d) * PadScale(|d|)
    ensures |EncodeQuints(d)| == (8 * |d| + 4) / 5
    decreases |d|
  {
    if |d| >= 5 {
      var head, rest := d[..5], d[5..];
      assert d == head + rest;
      assert PadScale(|d|) == PadScale(|rest|) by {
        assert (|rest| + 5) % 5 == |rest| % 5;
      }
      AppendBytesConcat(acc, head, rest);
      AppendQuintsConcat(acc, PackBlock(head), EncodeQuints(rest));
      PackBlockBits(acc, head);
      EncodingIsTheBitString(AppendBytes(acc, head), rest);
    } else {
      TailBits(acc, d);
    }
  }

  // ---------- characters ----------

  const ALPHABET: string := "ABCDEFGHIJKLMNOPQRSTUVWXYZ234567"

  predicate InAlphabet(c: char) {
    'A' <= c <= 'Z' || '2' <= c <= '7'
  }

  function CharToQuint(c: char): Quint
    requires InAlphabet(c)
  {
    if c <= '7' then (c as int) - 24 else (c as int) - 65
  }

  lemma QuintCharRoundTrip(q: Quint)
    ensures InAlphabet(ALPHABET[q]) && CharToQuint(ALPHABET[q]) == q
  {
    assert |ALPHABET| == 32;
  }

  function Spell(q: seq<Quint>): (s: string)
    ensures |s| == |q| && forall i :: 0 <= i < |q| ==> s[i] == ALPHABET[q[i]]
  {
    seq(|q|, i requires 0 <= i < |q| => ALPHABET[q[i]])
  }

  function EncodeNoPadding(d: seq<Byte>): string {
    Spell(EncodeQuints(d))
  }

  predicate AllInAlphabet(s: string) {
    forall i :: 0 <= i < |s| ==> InAlphabet(s[i])
  }

  function ReadQuints(s: string): (q: seq<Quint>)
    requires AllInAlphabet(s)
    ensures |q| == |s| && forall i :: 0 <= i < |s| ==> q[i] == CharToQuint(s[i])
  {
    seq(|s|, i requires 0 <= i < |s| => CharToQuint(s[i]))
  }

  datatype DecodeError = CorruptInput

  function DecodeStrict(s: string): Result<seq<Byte>, DecodeError> {
    if AllInAlphabet(s) then Ok(DecodeQuints(ReadQuints(s))) else Err(CorruptInput)
  }

  lemma ReadSpell(q: seq<Quint>)
    ensures AllInAlphabet(Spell(q)) && ReadQuints(Spell(q)) == q
  {
    forall i | 0 <= i < |q| ensures InAlphabet(ALPHABET[q[i]]) && CharToQuint(ALPHABET[q[i]]) == q[i] {
      QuintCharRoundTrip(q[i]);
    }
  }

  lemma StrictRoundTrip(d: seq<Byte>)
    ensures AllInAlphabet(EncodeNoPadding(d))
    ensures DecodeStrict(EncodeNoPadding(d)) == Ok(d)
  {
    ReadSpell(EncodeQuints(d));
    DecodeEncodeQuints(d);
  }

  // ---------- normalisation ----------

  predicate IsSeparator(c: char) {
    c == '-' || c == ' ' || c == '\t' || c == '\n' || c == '\r'
  }

  function StripSeparators(s: string): (t: string)
    ensures |t| <= |s|
    ensures forall c :: c in t <==> c in s && !IsSeparator(c)
  {
    if s == [] then []
    else if IsSeparator(s[0]) then StripSeparators(s[1..])
    else [s[0]] + StripSeparators(s[1..])
  }

  function Upcase(table: char -> char, s: string): (t: string)
    ensures |t| == |s| && forall i :: 0 <= i < |s| ==> t[i] == ToUpper(table, s[i])
  {
    seq(|s|, i requires 0 <= i < |s| => ToUpper(table, s[i]))
  }

  function Normalize(table: char -> char, s: string): string {
    Upcase(table, StripSeparators(TrimSpace(s)))
  }

  /** NormalizeBase32: trims, then builds the result one rune at a time. */
  method NormalizeBase32(table: char -> char, value: string) returns (normalized: string)
    ensures normalized == Normalize(table, value)
  {
    var trimmed := TrimSpace(value);
    var builder := "";
    var i := 0;
    while i < |trimmed|
      invariant 0 <= i <= |trimmed|
      invariant builder == StripSeparators(trimmed[..i])
    {
      StripConcat(trimmed[..i], [trimmed[i]]);
      assert trimmed[..i] + [trimmed[i]] == trimmed[..i + 1];
      if !IsSeparator(trimmed[i]) {
        builder := builder + [trimmed[i]];
      }
      i := i + 1;
    }
    assert trimmed[..i] == trimmed;
    normalized := Upcase(table, builder);
  }

  /** Base32NoPaddingDecode. */
  function DecodeNoPadding(table: char -> char, s: string): Result<seq<Byte>, DecodeError> {
    DecodeStrict(Normalize(table, s))
  }

  lemma {:induction false} StripConcat(a: string, b: string)
    ensures StripSeparators(a + b) == StripSeparators(a) + StripSeparators(b)
  {
    if a == [] {
      assert a + b == b;
    } else {
      assert (a + b)[1..] == a[1..] + b;
      StripConcat(a[1..], b);
    }
  }

  lemma {:induction false} StripNothing(s: string)
    requires forall c :: c in s ==> !IsSeparator(c)
    ensures StripSeparators(s) == s
  {
    if s != [] {
      StripNothing(s[1..]);
      assert s == [s[0]] + s[1..];
    }
  }

  lemma {:induction false} StripOnlySeparators(s: string)
    requires forall c :: c in s ==> IsSeparator(c)
    ensures StripSeparators(s) == []
  {
    if s != [] {
      StripOnlySeparators(s[1..]);
    }
  }

  lemma {:induction false} StripTrimLeft(s: string)
    requires forall c :: c in s && IsSpace(c) ==> IsSeparator(c)
    ensures StripSeparators(TrimLeft(s)) == StripSeparators(s)
  {
    if s != [] && IsSpace(s[0]) {
      StripTrimLeft(s[1..]);
    }
  }

  lemma {:induction false} StripTrimRight(s: string)
    requires forall c :: c in s && IsSpace(c) ==> IsSeparator(c)
    ensures StripSeparators(TrimRight(s)) == StripSeparators(s)
  {
    if s != [] && IsSpace(s[|s| - 1]) {
      var front := s[..|s| - 1];
      StripTrimRight(front);
      assert s == front + [s[|s| - 1]];
      StripConcat(front, [s[|s| - 1]]);
    }
  }

  /** Trimming removes nothing but separators from a text whose only spaces are separators. */
  lemma StripTrim(s: string)
    requires forall c :: c in s && IsSpace(c) ==> IsSeparator(c)
    ensures StripSeparators(TrimSpace(s)) == StripSeparators(s)
  {
    hide IsSpace, IsSeparator;
    TrimLeftSuffix(s);
    StripTrimLeft(s);
    StripTrimRight(TrimLeft(s));
  }

  /**
   * `s` is a way to type `code`: any number of dashes, spaces, tabs, carriage returns and line feeds
   * anywhere, and every letter in either case.
   */
  predicate SpellingOf(code: string, s: string) {
    var t := StripSeparators(s);
    && |t| == |code|
    && forall i :: 0 <= i < |code| ==> t[i] == code[i] || t[i] == LowerChar(code[i])
  }

  /** The same said one character at a time. */
  predicate TypedAs(code: string, s: string) {
    if s == "" then code == ""
    else
      || (s[0] in "- \t\r\n" && TypedAs(code, s[1..]))
      || (&& code != "" && TypedAs(code[1..], s[1..])
          && (s[0] == code[0] || ('A' <= code[0] <= 'Z' && s[0] == (code[0] as int + 32) as char)))
  }

  lemma {:induction false} SpellingIff(code: string, s: string)
    requires AllInAlphabet(code)
    ensures SpellingOf(code, s) <==> TypedAs(code, s)
  {
    if s != "" {
      var t := StripSeparators(s[1..]);
      if IsSeparator(s[0]) {
        SpellingIff(code, s[1..]);
        assert code != "" ==> InAlphabet(code[0]);
      } else {
        assert StripSeparators(s) == [s[0]] + t;
        if code != "" {
          SpellingIff(code[1..], s[1..]);
          assert SpellingOf(code, s) <==>
              (s[0] == code[0] || s[0] == LowerChar(code[0])) && SpellingOf(code[1..], s[1..]) by {
            assert forall i :: 1 <= i < |code| && |t| + 1 == |code| ==>
                StripSeparators(s)[i] == t[i - 1] && code[i] == code[1..][i - 1];
            assert forall i :: 0 <= i < |t| ==> StripSeparators(s)[i + 1] == t[i];
          }
        }
      }
    }
  }

  lemma AlphabetCase(table: char -> char, code: char, typed: char)
    requires InAlphabet(code)
    requires typed == code || typed == LowerChar(code)
    ensures ToUpper(table, typed) == code && !IsSpace(typed)
  {
  }

  lemma NormalizeSpelling(table: char -> char, code: string, s: string)
    requires AllInAlphabet(code)
    requires SpellingOf(code, s)
    ensures Normalize(table, s) == code
  {
    var t := StripSeparators(s);
    forall i | 0 <= i < |code|
      ensures ToUpper(table, t[i]) == code[i] && !IsSpace(t[i])
    {
      AlphabetCase(table, code[i], t[i]);
    }
    assert forall c :: c in t ==> !IsSpace(c);
    assert forall c :: c in s && IsSpace(c) ==> IsSeparator(c);
    StripTrim(s);
    assert Normalize(table, s) == code;
  }

  /** Every way to type an encoded value decodes to the original bytes. */
  lemma TolerantRoundTrip(table: char -> char, d: seq<Byte>, s: string)
    requires SpellingOf(EncodeNoPadding(d), s)
    ensures DecodeNoPadding(table, s) == Ok(d)
  {
    StrictRoundTrip(d);
    NormalizeSpelling(table, EncodeNoPadding(d), s);
  }

  lemma LowerSpelling(code: string)
    requires AllInAlphabet(code)
    ensures SpellingOf(code, ToLowerAscii(code))
  {
    var s := ToLowerAscii(code);
    assert forall c :: c in s ==> !IsSeparator(c) by {
      forall c | c in s ensures !IsSeparator(c) {
        var i :| 0 <= i < |s| && s[i] == c;
        assert InAlphabet(code[i]);
      }
    }
    StripNothing(s);
  }

  /** Lower-case encodings, which node and code ids use, can be read back. */
  lemma LowerCaseReadsBack(table: char -> char, d: seq<Byte>)
    ensures DecodeNoPadding(table, ToLowerAscii(EncodeNoPadding(d))) == Ok(d)
  {
    StrictRoundTrip(d);
    LowerSpelling(EncodeNoPadding(d));
    TolerantRoundTrip(table, d, ToLowerAscii(EncodeNoPadding(d)));
  }

  /** Lower-case encodings, which node and network ids use, determine the bytes. */
  lemma LowerEncodingInjective(a: seq<Byte>, b: seq<Byte>)
    requires ToLowerAscii(EncodeNoPadding(a)) == ToLowerAscii(EncodeNoPadding(b))
    ensures a == b
  {
    var table := (c: char) => c;
    LowerCaseReadsBack(table, a);
    LowerCaseReadsBack(table, b);
  }

  // ---------- normalising twice ----------

  /** What Unicode's upper-case table does: it is idempotent and neither makes nor removes spaces and separators. */
  ghost predicate UnicodeLike(table: char -> char) {
    forall c ::
      && ToUpper(table, ToUpper(table, c)) == ToUpper(table, c)
      && (IsSpace(ToUpper(table, c)) <==> IsSpace(c))
      && (IsSeparator(ToUpper(table, c)) <==> IsSeparator(c))
  }

  lemma NormalizeTwice(table: char -> char, s: string)
    requires UnicodeLike(table)
    ensures var t := Normalize(table, s);
            Normalize(table, t) == t <==> t == [] || (!IsSpace(t[0]) && !IsSpace(t[|t| - 1]))
  {
    hide IsSpace, IsSeparator, TrimSpace;
    var v := StripSeparators(TrimSpace(s));
    var t := Normalize(table, s);
    forall c | c in t ensures !IsSeparator(c) {
      var i :| 0 <= i < |t| && t[i] == c;
      assert v[i] in v;
    }
    if t == [] || (!IsSpace(t[0]) && !IsSpace(t[|t| - 1])) {
      TrimKeeps(t);
      StripNothing(t);
      assert Normalize(table, t) == t;
    } else {
      TrimShortens(t);
    }
  }

  lemma {:induction false} StripFirst(u: string) returns (k: nat)
    requires StripSeparators(u) != []
    ensures k < |u| && u[k] == StripSeparators(u)[0] && !IsSeparator(u[k])
    ensures forall j :: 0 <= j < k ==> IsSeparator(u[j])
  {
    hide IsSeparator;
    if IsSeparator(u[0]) {
      var m := StripFirst(u[1..]);
      k := m + 1;
      forall j | 0 <= j < k ensures IsSeparator(u[j]) {
        if j > 0 {
          assert u[1..][j - 1] == u[j];
        }
      }
    } else {
      k := 0;
    }
  }

  lemma {:induction false} StripLast(u: string) returns (k: nat)
    requires StripSeparators(u) != []
    ensures k < |u| && u[k] == StripSeparators(u)[|StripSeparators(u)| - 1] && !IsSeparator(u[k])
    ensures forall j :: k < j < |u| ==> IsSeparator(u[j])
  {
    hide IsSeparator;
    var front, last := u[..|u| - 1], u[|u| - 1];
    assert u == front + [last];
    StripConcat(front, [last]);
    if IsSeparator(last) {
      k := StripLast(front);
    } else {
      assert StripSeparators([last]) == [last];
      k := |u| - 1;
    }
  }

  /** A space that is no separator, with nothing but separators on one side of it. */
  predicate ShieldedSpace(u: string, k: nat)
    requires k < |u|
  {
    && IsSpace(u[k]) && !IsSeparator(u[k])
    && ((forall j :: 0 <= j < k ==> IsSeparator(u[j])) || (forall j :: k < j < |u| ==> IsSeparator(u[j])))
  }

  lemma ShieldedSpacesSurface(u: string)
    ensures var v := StripSeparators(u);
            (v != [] && (IsSpace(v[0]) || IsSpace(v[|v| - 1])))
            <==> exists k :: 0 <= k < |u| && ShieldedSpace(u, k)
  {
    hide IsSpace, IsSeparator;
    if StripSeparators(u) != [] {
      var first := StripFirst(u);
      var last := StripLast(u);
      assert IsSpace(u[first]) ==> ShieldedSpace(u, first);
      assert IsSpace(u[last]) ==> ShieldedSpace(u, last);
      forall k | 0 <= k < |u| && ShieldedSpace(u, k) ensures k == first || k == last {
      }
    } else {
      forall k | 0 <= k < |u| ensures !ShieldedSpace(u, k) {
        assert u[k] in u;
      }
    }
  }

  /**
   * Normalising twice changes nothing exactly when the trimmed input has no space that only separators
   * keep from either end: trimming looks past no separator, and removing the separators comes after it.
   */
  lemma NormalizeIdempotentIff(table: char -> char, s: string)
    requires UnicodeLike(table)
    ensures Normalize(table, Normalize(table, s)) == Normalize(table, s)
            <==> forall k :: 0 <= k < |TrimSpace(s)| ==> !ShieldedSpace(TrimSpace(s), k)
  {
    hide IsSpace, TrimSpace, StripSeparators, ShieldedSpace, Upcase, UnicodeLike;
    NormalizeTwice(table, s);
    UpcaseKeepsSpaces(table, StripSeparators(TrimSpace(s)));
    ShieldedSpacesSurface(TrimSpace(s));
  }

  lemma UpcaseKeepsSpaces(table: char -> char, v: string)
    requires UnicodeLike(table)
    ensures |Upcase(table, v)| == |v|
    ensures v != [] ==>
              && (IsSpace(Upcase(table, v)[0]) <==> IsSpace(v[0]))
              && (IsSpace(Upcase(table, v)[|v| - 1]) <==> IsSpace(v[|v| - 1]))
  {
    hide IsSpace, IsSeparator, ToUpper;
  }

  /** An input on which it fails: a no-break space next to a dash. */
  lemma NormalizeIsNotIdempotent()
    ensures var table := (c: char) => c;
            Normalize(table, "-\U{A0}A-") == "\U{A0}A" && Normalize(table, "\U{A0}A") == "A"
  {
    var s, t := "-\U{A0}A-", "\U{A0}A";
    TrimKeeps(s);
    assert StripSeparators(s) == t by {
      assert s[1..] == "\U{A0}A-" && s[1..][1..] == "A-" && s[1..][1..][1..] == "-";
      assert StripSeparators("-") == "" && StripSeparators("A-") == "A";
    }
    LeadingSpaceGoes();
    StripNothing("A");
  }

  lemma LeadingSpaceGoes()
    ensures TrimSpace("\U{A0}A") == "A"
  {
    var t := "\U{A0}A";
    assert t[1..] == "A";
    assert TrimLeft(t) == TrimLeft("A") == "A";
    TrimKeeps("A");
  }

  // ---------- which strings are encodings ----------

  /**
   * The last group has a length the encoder produces, and the bits of its last character that carry no
   * data are zero.
   */
  predicate CanonicalTail(q: seq<Quint>) {
    var k := |q| % 8;
    || k == 0
    || (k == 2 && q[|q| - 1] % 4 == 0)
    || (k == 4 && q[|q| - 1] % 16 == 0)
    || (k == 5 && q[|q| - 1] % 2 == 0)
    || (k == 7 && q[|q| - 1] % 8 == 0)
  }

  lemma MiddleFields(hi: nat, mid: nat, lo: nat)
    requires mid < 32
    ensures lo < 2 ==> var x := hi * 64 + mid * 2 + lo; x / 64 == hi && (x / 2) % 32 == mid && x % 2 == lo
    ensures lo < 4 ==> var x := hi * 128 + mid * 4 + lo; x / 128 == hi && (x / 4) % 32 == mid && x % 4 == lo
  {
    if lo < 2 {
      var x := hi * 64 + mid * 2 + lo;
      assert x / 2 == hi * 32 + mid;
    }
    if lo < 4 {
      var x := hi * 128 + mid * 4 + lo;
      assert x / 4 == hi * 32 + mid;
    }
  }

  lemma PackUnpack(q: seq<Quint>)
    requires |q| == 8
    ensures PackBlock(UnpackBlock(q)) == q
  {
    Fields(q[0], q[1] / 4, 8);
    MiddleFields(q[1] % 4, q[2], q[3] / 16);
    Fields(q[3] % 16, q[4] / 2, 16);
    MiddleFields(q[4] % 2, q[5], q[6] / 8);
    LastField(q[6] % 8, q[7]);
    PackParts(UnpackBlock(q), q);
  }

  lemma PackParts(b: seq<Byte>, q: seq<Quint>)
    requires |b| == 5 && |q| == 8
    requires b[0] / 8 == q[0] && b[0] % 8 == q[1] / 4
    requires b[1] / 64 == q[1] % 4 && (b[1] / 2) % 32 == q[2] && b[1] % 2 == q[3] / 16
    requires b[2] / 16 == q[3] % 16 && b[2] % 16 == q[4] / 2
    requires b[3] / 128 == q[4] % 2 && (b[3] / 4) % 32 == q[5] && b[3] % 4 == q[6] / 8
    requires b[4] / 32 == q[6] % 8 && b[4] % 32 == q[7]
    ensures PackBlock(b) == q
  {
  }

  lemma LastField(hi: nat, lo: nat)
    requires lo < 32
    ensures (hi * 32 + lo) / 32 == hi && (hi * 32 + lo) % 32 == lo
  {
  }

  /** Values of the last character of a final group of `k` characters that differ in its unused bits only. */
  function UnusedScale(k: nat): (u: nat)
    ensures u > 0
  {
    if k == 2 then 4 else if k == 4 then 16 else if k == 5 then 2 else if k == 7 then 8 else 1
  }

  /** A final group with the unused bits of its last character cleared. */
  function Cleared(q: seq<Quint>): (c: seq<Quint>)
    requires 0 < |q| < 8
    ensures |c| == |q|
  {
    var last, u: int := q[|q| - 1] as int, UnusedScale(|q|);
    q[..|q| - 1] + [last - last % u]
  }

  lemma ClearedShort(q: seq<Quint>)
    requires |q| == 2 || |q| == 4
    ensures var n := TailBytes(|q|);
            UnpackBlock(Cleared(q) + ZeroQuints(8 - |q|)) == UnpackBlock(q + ZeroQuints(8 - |q|))[..n] + Zeros(5 - n)
  {
    ClearedLow(q[|q| - 1], 4);
    ClearedLow(q[|q| - 1], 16);
  }

  lemma ClearedLong(q: seq<Quint>)
    requires |q| == 5 || |q| == 7
    ensures var n := TailBytes(|q|);
            UnpackBlock(Cleared(q) + ZeroQuints(8 - |q|)) == UnpackBlock(q + ZeroQuints(8 - |q|))[..n] + Zeros(5 - n)
  {
    ClearedLow(q[|q| - 1], 2);
    ClearedLow(q[|q| - 1], 8);
  }

  lemma ClearedLow(x: nat, u: nat)
    requires u == 2 || u == 4 || u == 8 || u == 16
    ensures (x - x % u) / u == x / u && (x - x % u) % u == 0
  {
    assert x == x / u * u + x % u;
    if u == 2 {
      assert (x - x % 2) / 2 == x / 2;
    } else if u == 4 {
      assert (x - x % 4) / 4 == x / 4;
    } else if u == 8 {
      assert (x - x % 8) / 8 == x / 8;
    } else {
      assert (x - x % 16) / 16 == x / 16;
    }
  }

  lemma ClearedBytes(q: seq<Quint>)
    requires |q| < 8 && TailBytes(|q|) > 0
    ensures var n := TailBytes(|q|);
            UnpackBlock(Cleared(q) + ZeroQuints(8 - |q|)) == UnpackBlock(q + ZeroQuints(8 - |q|))[..n] + Zeros(5 - n)
    ensures TailChars(TailBytes(|q|)) == |q|
  {
    hide UnpackBlock, Cleared;
    if |q| == 2 || |q| == 4 {
      ClearedShort(q);
    } else {
      ClearedLong(q);
    }
  }

  lemma EncodeTail(d: seq<Byte>)
    requires |d| < 5
    ensures EncodeQuints(d) == PackBlock(d + Zeros(5 - |d|))[..TailChars(|d|)]
  {
  }

  lemma DecodeTail(q: seq<Quint>)
    requires |q| < 8
    ensures DecodeQuints(q) == UnpackBlock(q + ZeroQuints(8 - |q|))[..TailBytes(|q|)]
  {
  }

  /** The final group alone: decoding clears unused bits, and forgets a group no encoding ends with. */
  lemma ReencodeTail(q: seq<Quint>)
    requires |q| < 8
    ensures EncodeQuints(DecodeQuints(q)) == (if TailBytes(|q|) == 0 then [] else Cleared(q))
  {
    hide PackBlock, UnpackBlock, Cleared, EncodeQuints, DecodeQuints, TailChars;
    DecodeTail(q);
    EncodeTail(DecodeQuints(q));
    if TailBytes(|q|) > 0 {
      var clear := Cleared(q) + ZeroQuints(8 - |q|);
      ClearedBytes(q);
      PackUnpack(clear);
      assert clear[..|q|] == Cleared(q);
    }
  }

  lemma ReencodeBlock(q: seq<Quint>)
    requires |q| >= 8
    ensures EncodeQuints(DecodeQuints(q)) == q[..8] + EncodeQuints(DecodeQuints(q[8..]))
  {
    hide PackBlock, UnpackBlock;
    var b, d := UnpackBlock(q[..8]), DecodeQuints(q[8..]);
    PackUnpack(q[..8]);
    assert (b + d)[..5] == b && (b + d)[5..] == d;
  }

  lemma ClearedIff(q: seq<Quint>)
    requires 0 < |q| < 8
    ensures Cleared(q) == q <==> q[|q| - 1] % UnusedScale(|q|) == 0
  {
    assert Cleared(q)[|q| - 1] as int == q[|q| - 1] as int - q[|q| - 1] % UnusedScale(|q|);
  }

  lemma ReencodeTailIff(q: seq<Quint>)
    requires |q| < 8
    ensures EncodeQuints(DecodeQuints(q)) == q <==> CanonicalTail(q)
  {
    hide EncodeQuints, DecodeQuints, Cleared;
    ReencodeTail(q);
    if TailBytes(|q|) > 0 {
      ClearedIff(q);
    }
  }

  lemma TailIsLocal(q: seq<Quint>)
    requires |q| >= 8
    ensures CanonicalTail(q) <==> CanonicalTail(q[8..])
  {
    var rest := q[8..];
    assert (|rest| + 8) % 8 == |rest| % 8;
    if |rest| > 0 {
      assert rest[|rest| - 1] == q[|q| - 1];
    }
  }

  lemma {:induction false} ReencodeQuintsIff(q: seq<Quint>)
    ensures EncodeQuints(DecodeQuints(q)) == q <==> CanonicalTail(q)
  {
    hide EncodeQuints, DecodeQuints, CanonicalTail;
    if |q| >= 8 {
      ReencodeBlock(q);
      ReencodeQuintsIff(q[8..]);
      TailIsLocal(q);
      SameAfter(q[..8], EncodeQuints(DecodeQuints(q[8..])), q[8..]);
      assert q == q[..8] + q[8..];
    } else {
      ReencodeTailIff(q);
    }
  }

  lemma SameAfter(head: seq<Quint>, a: seq<Quint>, b: seq<Quint>)
    ensures head + a == head + b <==> a == b
  {
    assert (head + a)[|head|..] == a && (head + b)[|head|..] == b;
  }

  predicate CanonicalString(s: string) {
    AllInAlphabet(s) && CanonicalTail(ReadQuints(s))
  }

  lemma SpellRead(s: string)
    requires AllInAlphabet(s)
    ensures Spell(ReadQuints(s)) == s
  {
    forall i | 0 <= i < |s| ensures ALPHABET[CharToQuint(s[i])] == s[i] {
      CharQuintRoundTrip(s[i]);
    }
  }

  lemma CharQuintRoundTrip(c: char)
    requires InAlphabet(c)
    ensures ALPHABET[CharToQuint(c)] == c
  {
    assert |ALPHABET| == 32;
  }

  /**
   * What decoding makes of any string: re-encoded, it is the string with the unused bits of its last
   * character cleared, and without a last group of a length no encoding has.
   */
  lemma {:induction false} ReencodingClears(q: seq<Quint>)
    ensures EncodeQuints(DecodeQuints(q))
         == var whole := |q| - |q| % 8;
            q[..whole] + if TailBytes(|q| % 8) == 0 then [] else Cleared(q[whole..])
  {
    hide EncodeQuints, DecodeQuints, Cleared, TailBytes;
    if |q| >= 8 {
      ReencodeBlock(q);
      ReencodingClears(q[8..]);
      var rest := q[8..];
      assert (|rest| + 8) % 8 == |rest| % 8;
      var whole := |rest| - |rest| % 8;
      assert q[..8] + rest[..whole] == q[..whole + 8] && rest[whole..] == q[whole + 8..];
    } else {
      ReencodeTail(q);
      assert q[0..] == q;
    }
  }

  /**
   * Exactly what is decoded at all: trimmed, without its separators and in upper case, the text has only
   * characters of the alphabet.
   */
  lemma DecodesIff(table: char -> char, s: string)
    ensures DecodeNoPadding(table, s).Ok? <==>
              forall c :: c in TrimSpace(s) && !IsSeparator(c) ==>
                'A' <= ToUpper(table, c) <= 'Z' || '2' <= ToUpper(table, c) <= '7'
    ensures DecodeNoPadding(table, s).Ok? ==>
              DecodeNoPadding(table, s).value == DecodeQuints(ReadQuints(Normalize(table, s)))
  {
    hide IsSpace, IsSeparator, TrimSpace, ToUpper;
    var v := StripSeparators(TrimSpace(s));
    var t := Normalize(table, s);
    if AllInAlphabet(t) {
      forall c | c in v ensures InAlphabet(ToUpper(table, c)) {
        var i :| 0 <= i < |v| && v[i] == c;
        assert InAlphabet(t[i]);
      }
    } else {
      var i :| 0 <= i < |t| && !InAlphabet(t[i]);
      assert v[i] in v;
    }
  }

  /** Decoding loses something exactly on the strings that no encoding is equal to. */
  lemma ReencodesIff(s: string)
    requires DecodeStrict(s).Ok?
    ensures EncodeNoPadding(DecodeStrict(s).value) == s <==> CanonicalString(s)
  {
    var q := ReadQuints(s);
    SpellRead(s);
    ReadSpell(EncodeQuints(DecodeQuints(q)));
    ReencodeQuintsIff(q);
  }

  /** On canonical strings decoding is injective. */
  lemma DecodingInjectiveOnCanonical(s: string, t: string)
    requires CanonicalString(s) && CanonicalString(t)
    ensures DecodeStrict(s) == DecodeStrict(t) <==> s == t
  {
    ReencodesIff(s);
    ReencodesIff(t);
  }

  /** Unused bits and stray characters are forgotten: neither `AB` nor `AAA` is canonical. */
  lemma DecodingIsNotInjective()
    ensures DecodeStrict("AA") == Ok([0]) == DecodeStrict("AB")
    ensures DecodeStrict("AAA") == Ok([]) == DecodeStrict("")
    ensures CanonicalString("AA") && !CanonicalString("AB") && !CanonicalString("AAA") && CanonicalString("")
  {
    assert ReadQuints("AA") == [0, 0];
    assert ReadQuints("AB") == [0, 1];
    assert UnpackBlock([0, 0] + ZeroQuints(6))[..1] == [0];
    assert UnpackBlock([0, 1] + ZeroQuints(6))[..1] == [0];
  }
}
