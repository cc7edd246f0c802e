/** UTF-8 (section 3 of RFC 3629): encoding, and decoding that drops what is malformed. */
module Utf8 {

  type Byte = b: int | 0 <= b < 256

  function Width(c: char): nat {
    var n := c as int;
    if n < 0x80 then 1 else if n < 0x800 then 2 else if n < 0x10000 then 3 else 4
  }

  /** The bytes that the first `n` characters take. */
  function SizeTo(s: string, n: nat): nat
    requires n <= |s|
  {
    if n == 0 then 0 else SizeTo(s, n - 1) + Width(s[n - 1])
  }

  /** `len(s.encode("utf-8"))`. */
  function Size(s: string): nat {
    SizeTo(s, |s|)
  }

  lemma {:induction false} SizeToFront(s: string, n: nat)
    requires 0 < n <= |s|
    ensures SizeTo(s, n) == Width(s[0]) + SizeTo(s[1..], n - 1)
  {
    if n > 1 {
      SizeToFront(s, n - 1);
    }
  }

  lemma SizeFront(s: string)
    requires s != ""
    ensures Size(s) == Width(s[0]) + Size(s[1..])
  {
    SizeToFront(s, |s|);
  }

  lemma {:induction false} SizeToConcat(a: string, b: string, n: nat)
    requires n <= |b|
    ensures SizeTo(a + b, |a| + n) == Size(a) + SizeTo(b, n)
  {
    if n == 0 {
      SizeToPrefix(a + b, a, |a|);
    } else {
      SizeToConcat(a, b, n - 1);
    }
  }

  lemma {:induction false} SizeToPrefix(s: string, t: string, n: nat)
    requires n <= |s| && n <= |t| && s[..n] == t[..n]
    ensures SizeTo(s, n) == SizeTo(t, n)
  {
    if n > 0 {
      assert s[..n][n - 1] == t[..n][n - 1];
      assert s[..n - 1] == s[..n][..n - 1] && t[..n - 1] == t[..n][..n - 1];
      SizeToPrefix(s, t, n - 1);
    }
  }

  lemma SizeConcat(a: string, b: string)
    ensures Size(a + b) == Size(a) + Size(b)
  {
    SizeToConcat(a, b, |b|);
  }

  /** Plain text has one byte a character. */
  lemma {:induction false} SizeOfAscii(s: string, n: nat)
    requires n <= |s| && forall i :: 0 <= i < |s| ==> s[i] as int < 0x80
    ensures SizeTo(s, n) == n
  {
    if n > 0 {
      SizeOfAscii(s, n - 1);
    }
  }

  function EncodeChar(c: char): (b: seq<Byte>)
    ensures |b| == Width(c)
  {
    var n := c as int;
    if n < 0x80 then [n]
    else if n < 0x800 then [0xC0 + n / 64, 0x80 + n % 64]
    else if n < 0x10000 then [0xE0 + n / 4096, 0x80 + n / 64 % 64, 0x80 + n % 64]
    else [0xF0 + n / 262144, 0x80 + n / 4096 % 64, 0x80 + n / 64 % 64, 0x80 + n % 64]
  }

  function Encode(s: string): (b: seq<Byte>)
    ensures |b| == Size(s)
  {
    if s == "" then [] else SizeFront(s); EncodeChar(s[0]) + Encode(s[1..])
  }

  // -------------------------------------------------------------------- decoding

  /** How many bytes a sequence with this first byte has; 0 for no first byte. */
  function Need(lead: Byte): nat {
    if lead < 0x80 then 1
    else if 0xC2 <= lead < 0xE0 then 2
    else if 0xE0 <= lead < 0xF0 then 3
    else if 0xF0 <= lead < 0xF5 then 4
    else 0
  }

  predicate Continues(b: Byte) {
    0x80 <= b < 0xC0
  }

  /** The second byte may not make the sequence overlong, a surrogate, or too large. */
  predicate SecondFits(lead: Byte, b: Byte) {
    if lead == 0xE0 then 0xA0 <= b < 0xC0
    else if lead == 0xED then 0x80 <= b < 0xA0
    else if lead == 0xF0 then 0x90 <= b < 0xC0
    else if lead == 0xF4 then 0x80 <= b < 0x90
    else Continues(b)
  }

  /** The length of the longest start of `b` that begins a well-formed sequence. */
  function Run(b: seq<Byte>): (k: nat)
    requires b != []
    ensures k <= |b| && k <= Need(b[0])
  {
    var need := Need(b[0]);
    if need <= 1 then need
    else if |b| < 2 || !SecondFits(b[0], b[1]) then 1
    else if need == 2 || |b| < 3 || !Continues(b[2]) then 2
    else if need == 3 || |b| < 4 || !Continues(b[3]) then 3
    else 4
  }

  /** The number that a well-formed sequence carries. */
  function CodePoint(b: seq<int>, need: nat): int
    requires 1 <= need <= 4 && need <= |b|
  {
    if need == 1 then b[0]
    else if need == 2 then (b[0] - 0xC0) * 64 + (b[1] - 0x80)
    else if need == 3 then (b[0] - 0xE0) * 4096 + (b[1] - 0x80) * 64 + (b[2] - 0x80)
    else (b[0] - 0xF0) * 262144 + (b[1] - 0x80) * 4096 + (b[2] - 0x80) * 64 + (b[3] - 0x80)
  }

  function DecodeChar(b: seq<Byte>): char
    requires b != [] && Need(b[0]) > 0 && Run(b) == Need(b[0])
  {
    var n := CodePoint(b, Need(b[0]));
    assert 0 <= n < 0xD800 || 0xE000 <= n < 0x110000;
    n as char
  }

  /** `b.decode("utf-8", errors="ignore")`. */
  function DecodeIgnore(b: seq<Byte>): string
    decreases |b|
  {
    if b == [] then ""
    else
      var need, run := Need(b[0]), Run(b);
      if need > 0 && run == need then [DecodeChar(b)] + DecodeIgnore(b[need..])
      else DecodeIgnore(b[if run == 0 then 1 else run..])
  }

  // ------------------------------------------------------------------ round trip

  /** The six-bit digits of a number. */
  lemma SixBits(n: nat)
    ensures n == n / 64 * 64 + n % 64
    ensures n / 64 == n / 4096 * 64 + n / 64 % 64
    ensures n / 4096 == n / 262144 * 64 + n / 4096 % 64
  {
    assert n / 64 / 64 == n / 4096;
    assert n / 4096 / 64 == n / 262144;
  }

  lemma EncodedCodePoint(c: char)
    ensures CodePoint(EncodeChar(c), Width(c)) == c as int
  {
    SixBits(c as int);
  }

  lemma EncodedNeed(c: char)
    ensures Need(EncodeChar(c)[0]) == Width(c)
  {
    var n := c as int;
    assert n < 0xD800 || 0xE000 <= n < 0x110000;
  }

  lemma EncodedIsWellFormed(c: char, k: nat)
    requires 0 < k <= Width(c)
    ensures Run(EncodeChar(c)[..k]) == k
  {
    var n := c as int;
    assert n < 0xD800 || 0xE000 <= n < 0x110000;
    EncodedNeed(c);
    SixBits(n);
  }

  lemma RunIsLocal(b: seq<Byte>, rest: seq<Byte>)
    requires b != [] && Run(b) == Need(b[0]) == |b|
    ensures Run(b + rest) == |b|
  {
  }

  lemma EncodedRun(c: char, rest: seq<Byte>)
    ensures Run(EncodeChar(c) + rest) == Width(c) == Need(EncodeChar(c)[0])
    ensures DecodeChar(EncodeChar(c) + rest) == c
  {
    var b := EncodeChar(c);
    EncodedNeed(c);
    EncodedIsWellFormed(c, Width(c));
    assert b[..Width(c)] == b;
    RunIsLocal(b, rest);
    EncodedCodePoint(c);
    assert CodePoint(b + rest, Width(c)) == CodePoint(b, Width(c));
  }

  /** A character cut short decodes to nothing. */
  lemma CutCharacter(c: char, k: nat)
    requires k < Width(c)
    ensures DecodeIgnore(EncodeChar(c)[..k]) == ""
  {
    var b := EncodeChar(c)[..k];
    if k > 0 {
      EncodedNeed(c);
      EncodedIsWellFormed(c, k);
      assert b[k..] == [];
    }
  }

  /** How many whole characters fit into `room` bytes. */
  function Fit(s: string, room: nat): (k: nat)
    ensures k <= |s|
  {
    if s == "" || Width(s[0]) > room then 0 else 1 + Fit(s[1..], room - Width(s[0]))
  }

  /** Decoding the first bytes of an encoded text gives its whole characters that fit. */
  lemma {:induction false} DecodeOfCut(s: string, room: nat)
    requires room <= Size(s)
    ensures DecodeIgnore(Encode(s)[..room]) == s[..Fit(s, room)]
    decreases |s|
  {
    if s != "" {
      SizeFront(s);
      var c, w := EncodeChar(s[0]), Width(s[0]);
      if w <= room {
        assert Encode(s)[..room] == c + Encode(s[1..])[..room - w];
        EncodedRun(s[0], Encode(s[1..])[..room - w]);
        assert (c + Encode(s[1..])[..room - w])[w..] == Encode(s[1..])[..room - w];
        DecodeOfCut(s[1..], room - w);
        assert s[..Fit(s, room)] == [s[0]] + s[1..][..Fit(s[1..], room - w)];
      } else {
        assert Encode(s)[..room] == c[..room];
        CutCharacter(s[0], room);
      }
    }
  }

  /** Encoding and decoding is the identity. */
  lemma RoundTrip(s: string)
    ensures DecodeIgnore(Encode(s)) == s
  {
    DecodeOfCut(s, Size(s));
    FitAll(s);
    assert Encode(s)[..Size(s)] == Encode(s) && s[..|s|] == s;
  }

  lemma {:induction false} FitAll(s: string)
    ensures Fit(s, Size(s)) == |s|
    decreases |s|
  {
    if s != "" {
      SizeFront(s);
      FitAll(s[1..]);
    }
  }

  lemma {:induction false} FitIsLongest(s: string, room: nat, k: nat)
    requires k <= |s|
    ensures Size(s[..k]) <= room <==> k <= Fit(s, room)
    decreases |s|
  {
    if k > 0 {
      assert s[..k][1..] == s[1..][..k - 1] && s[..k][0] == s[0];
      SizeFront(s[..k]);
      if Width(s[0]) <= room {
        FitIsLongest(s[1..], room - Width(s[0]), k - 1);
      }
    }
  }
}
