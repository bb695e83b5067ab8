/**
 How input held during an outage is shown (src/linkstate.rs, `held_cut` and `render_held`).

 A Dafny `char` is a Unicode scalar value, so a Rust `String` is a `string` here. The encoding
 is that of section 3 of RFC 3629, and the decoder admits exactly the sequences of its section
 4, with each maximal invalid piece read as U+FFFD, as `String::from_utf8_lossy` does.
 */
module HeldInput {
  import opened Bytes
  import opened Decimals

  const HELD_SHOWN := 200

  // ---------------------------------------------------------------- UTF-8

  function Encode(c: char): (bytes: seq<Byte>)
    ensures 1 <= |bytes| <= 4
  {
    var u := c as int;
    if u < 0x80 then [u]
    else if u < 0x800 then [0xC0 + u / 64, 0x80 + u % 64]
    else if u < 0x1_0000 then [0xE0 + u / 4096, 0x80 + u / 64 % 64, 0x80 + u % 64]
    else [0xF0 + u / 262_144, 0x80 + u / 4096 % 64, 0x80 + u / 64 % 64, 0x80 + u % 64]
  }

  function EncodeAll(s: string): seq<Byte> {
    if s == [] then [] else Encode(s[0]) + EncodeAll(s[1..])
  }

  /** `(b & 0xc0) == 0x80`. */
  predicate IsContinuation(b: Byte) {
    b / 64 == 2
  }

  /** The bytes a lead byte promises, or 0 for a byte that leads nothing. */
  function Width(lead: Byte): nat {
    if lead < 0x80 then 1
    else if 0xC2 <= lead <= 0xDF then 2
    else if 0xE0 <= lead <= 0xEF then 3
    else if 0xF0 <= lead <= 0xF4 then 4
    else 0
  }

  /** Which second bytes a lead byte admits: no overlong forms, no surrogates, nothing past U+10FFFF. */
  predicate SecondFits(lead: Byte, second: Byte) {
    if lead == 0xE0 then 0xA0 <= second <= 0xBF
    else if lead == 0xED then 0x80 <= second <= 0x9F
    else if lead == 0xF0 then 0x90 <= second <= 0xBF
    else if lead == 0xF4 then 0x80 <= second <= 0x8F
    else IsContinuation(second)
  }

  /** How many of the first bytes could begin one character: the piece one U+FFFD stands for. */
  function Agreeing(bytes: seq<Byte>): (n: nat)
    requires bytes != []
    ensures 1 <= n <= |bytes|
  {
    if Width(bytes[0]) < 2 || |bytes| < 2 || !SecondFits(bytes[0], bytes[1]) then 1
    else if Width(bytes[0]) < 3 || |bytes| < 3 || !IsContinuation(bytes[2]) then 2
    else if Width(bytes[0]) < 4 || |bytes| < 4 || !IsContinuation(bytes[3]) then 3
    else 4
  }

  predicate Complete(bytes: seq<Byte>)
    requires bytes != []
  {
    Width(bytes[0]) == Agreeing(bytes)
  }

  /** The six bits a continuation byte carries. */
  function Bits(b: Byte): int {
    b - 0x80
  }

  function Scalar(bytes: seq<Byte>): char
    requires bytes != [] && Complete(bytes)
  {
    var lead: int := bytes[0];
    match Width(bytes[0])
    case 1 => lead as char
    case 2 => (64 * (lead - 0xC0) + Bits(bytes[1])) as char
    case 3 => (4096 * (lead - 0xE0) + 64 * Bits(bytes[1]) + Bits(bytes[2])) as char
    case _ => (262_144 * (lead - 0xF0) + 4096 * Bits(bytes[1]) + 64 * Bits(bytes[2]) + Bits(bytes[3])) as char
  }

  /** `String::from_utf8_lossy`. */
  function DecodeLossy(bytes: seq<Byte>): string
    decreases |bytes|
  {
    if bytes == [] then []
    else [if Complete(bytes) then Scalar(bytes) else '\U{FFFD}'] + DecodeLossy(bytes[Agreeing(bytes)..])
  }

  /** The four lengths, digit by digit in base 64. */
  lemma SplitTwo(u: int)
    requires 0x80 <= u < 0x800
    ensures 0xC2 <= 0xC0 + u / 64 <= 0xDF && 64 * (u / 64) + u % 64 == u && (0x80 + u % 64) / 64 == 2
  {
  }

  lemma SplitThree(u: int)
    requires 0x800 <= u < 0x1_0000 && !(0xD800 <= u < 0xE000)
    ensures 0xE0 <= 0xE0 + u / 4096 <= 0xEF && 4096 * (u / 4096) + 64 * (u / 64 % 64) + u % 64 == u
    ensures SecondFits(0xE0 + u / 4096, 0x80 + u / 64 % 64) && (0x80 + u % 64) / 64 == 2
  {
    assert u / 64 % 64 == u / 64 - 64 * (u / 4096);
  }

  lemma SplitFour(u: int)
    requires 0x1_0000 <= u < 0x11_0000
    ensures 0xF0 <= 0xF0 + u / 262_144 <= 0xF4
    ensures 262_144 * (u / 262_144) + 4096 * (u / 4096 % 64) + 64 * (u / 64 % 64) + u % 64 == u
    ensures SecondFits(0xF0 + u / 262_144, 0x80 + u / 4096 % 64)
    ensures (0x80 + u / 64 % 64) / 64 == 2 && (0x80 + u % 64) / 64 == 2
  {
    assert u / 4096 % 64 == u / 4096 - 64 * (u / 262_144);
    assert u / 64 % 64 == u / 64 - 64 * (u / 4096);
  }

  lemma DecodeOne(c: char, rest: seq<Byte>)
    ensures var b := Encode(c) + rest;
      Complete(b) && Agreeing(b) == |Encode(c)| && Scalar(b) == c
  {
    var u := c as int;
    var b := Encode(c) + rest;
    assert forall i :: 0 <= i < |Encode(c)| ==> b[i] == Encode(c)[i];
    if u < 0x80 {
    } else if u < 0x800 {
      SplitTwo(u);
    } else if u < 0x1_0000 {
      SplitThree(u);
    } else {
      SplitFour(u);
    }
  }

  /** Decoding undoes encoding, for every string. */
  lemma {:induction false} DecodeUndoesEncode(s: string)
    ensures DecodeLossy(EncodeAll(s)) == s
  {
    if s != [] {
      var rest := EncodeAll(s[1..]);
      DecodeOne(s[0], rest);
      DecodeUndoesEncode(s[1..]);
      assert (Encode(s[0]) + rest)[|Encode(s[0])|..] == rest;
    }
  }

  /** And put together again: the ranges of section 4 of RFC 3629 are those of section 3. */
  lemma JoinTwo(a: int, b: int)
    requires 2 <= a <= 31 && 0 <= b < 64
    ensures var u := 64 * a + b; 0x80 <= u < 0x800 && u / 64 == a && u % 64 == b
  {
  }

  lemma JoinThree(a: int, b: int, c: int)
    requires 0 <= a <= 15 && 0 <= b < 64 && 0 <= c < 64 && (a == 0 ==> 32 <= b) && (a == 13 ==> b < 32)
    ensures var u := 4096 * a + 64 * b + c;
      && 0x800 <= u < 0x1_0000 && !(0xD800 <= u < 0xE000)
      && u / 4096 == a && u / 64 % 64 == b && u % 64 == c
  {
    var u := 4096 * a + 64 * b + c;
    assert u / 64 == 64 * a + b;
  }

  lemma JoinFour(a: int, b: int, c: int, d: int)
    requires 0 <= a <= 4 && 0 <= b < 64 && 0 <= c < 64 && 0 <= d < 64 && (a == 0 ==> 16 <= b) && (a == 4 ==> b < 16)
    ensures var u := 262_144 * a + 4096 * b + 64 * c + d;
      && 0x1_0000 <= u < 0x11_0000
      && u / 262_144 == a && u / 4096 % 64 == b && u / 64 % 64 == c && u % 64 == d
  {
    var u := 262_144 * a + 4096 * b + 64 * c + d;
    assert u / 64 == 4096 * a + 64 * b + c;
    assert u / 4096 == 64 * a + b;
  }

  lemma EncodeOne(bytes: seq<Byte>)
    requires bytes != [] && Complete(bytes)
    ensures Encode(Scalar(bytes)) == bytes[..Agreeing(bytes)]
  {
    var lead: int := bytes[0];
    match Width(bytes[0])
    case 1 =>
    case 2 => JoinTwo(lead - 0xC0, Bits(bytes[1]));
    case 3 => JoinThree(lead - 0xE0, Bits(bytes[1]), Bits(bytes[2]));
    case _ => JoinFour(lead - 0xF0, Bits(bytes[1]), Bits(bytes[2]), Bits(bytes[3]));
  }

  /** The decoder takes for a character exactly what some character encodes to, and for that one. */
  lemma OnlyTextIsComplete(bytes: seq<Byte>)
    requires bytes != []
    ensures Complete(bytes) ==> Encode(Scalar(bytes)) == bytes[..Agreeing(bytes)]
    ensures Complete(bytes) <==> exists c :: Encode(c) <= bytes
  {
    if Complete(bytes) {
      EncodeOne(bytes);
      assert Encode(Scalar(bytes)) <= bytes;
    }
    if c: char :| Encode(c) <= bytes {
      DecodeOne(c, bytes[|Encode(c)|..]);
      assert bytes == Encode(c) + bytes[|Encode(c)|..];
    }
  }

  /** The first byte of a character is no continuation byte, and every other byte is one. */
  lemma OnlyTheFirstLeads(c: char, i: nat)
    requires i < |Encode(c)|
    ensures IsContinuation(Encode(c)[i]) <==> i != 0
  {
  }

  // ---------------------------------------------------------------- the cut

  /** From `p`, back while the byte after the cut continues a character. */
  function StepBack(bytes: seq<Byte>, p: nat): nat
    requires p <= |bytes|
  {
    if 0 < p < |bytes| && IsContinuation(bytes[p]) then StepBack(bytes, p - 1) else p
  }

  function Min(a: nat, b: nat): nat {
    if a < b then a else b
  }

  function Cut(bytes: seq<Byte>): (cut: nat)
    ensures cut <= |bytes|
  {
    StepBackBounds(bytes, Min(|bytes|, HELD_SHOWN));
    StepBack(bytes, Min(|bytes|, HELD_SHOWN))
  }

  lemma {:induction false} StepBackBounds(bytes: seq<Byte>, p: nat)
    requires p <= |bytes|
    ensures StepBack(bytes, p) <= p
  {
    if 0 < p < |bytes| && IsContinuation(bytes[p]) {
      StepBackBounds(bytes, p - 1);
    }
  }

  method HeldCut(bytes: seq<Byte>) returns (cut: nat)
    ensures cut == Cut(bytes) && cut <= HELD_SHOWN
    ensures |bytes| <= HELD_SHOWN ==> cut == |bytes|
    ensures 0 < cut < |bytes| ==> !IsContinuation(bytes[cut])
    ensures forall i :: cut < i <= HELD_SHOWN && i < |bytes| ==> IsContinuation(bytes[i])
  {
    cut := Min(|bytes|, HELD_SHOWN);
    while 0 < cut < |bytes| && IsContinuation(bytes[cut])
      decreases cut
      invariant cut <= |bytes| && cut <= HELD_SHOWN
      invariant StepBack(bytes, cut) == Cut(bytes)
      invariant |bytes| <= HELD_SHOWN ==> cut == |bytes|
      invariant forall i :: cut < i <= HELD_SHOWN && i < |bytes| ==> IsContinuation(bytes[i])
    {
      cut := cut - 1;
    }
  }

  /** How many characters of `s` fit in `n` bytes. */
  function Fit(s: string, n: nat): (k: nat)
    ensures k <= |s|
  {
    if s == [] || n < |Encode(s[0])| then 0 else 1 + Fit(s[1..], n - |Encode(s[0])|)
  }

  /** Past a whole character, stepping back goes on in the rest. */
  lemma {:induction false} StepBackShift(head: seq<Byte>, rest: seq<Byte>, q: nat)
    requires q < |rest| && !IsContinuation(rest[0])
    ensures StepBack(head + rest, |head| + q) == |head| + StepBack(rest, q)
  {
    assert (head + rest)[|head| + q] == rest[q];
    if 0 < q && IsContinuation(rest[q]) {
      StepBackShift(head, rest, q - 1);
    }
  }

  /** Inside a character, stepping back goes to where it begins. */
  lemma {:induction false} StepBackInside(c: char, rest: seq<Byte>, p: nat)
    requires p < |Encode(c)|
    ensures StepBack(Encode(c) + rest, p) == 0
  {
    assert (Encode(c) + rest)[p] == Encode(c)[p];
    OnlyTheFirstLeads(c, p);
    if 0 < p {
      StepBackInside(c, rest, p - 1);
    }
  }

  /** The characters that fit are a prefix of the text, whole, and the next one does not fit. */
  lemma {:induction false} FitIsLongest(s: string, n: nat)
    ensures |EncodeAll(s[..Fit(s, n)])| <= n
    ensures Fit(s, n) < |s| ==> n < |EncodeAll(s[..Fit(s, n) + 1])| && n <= |EncodeAll(s[..Fit(s, n)])| + 3
    ensures EncodeAll(s[..Fit(s, n)]) <= EncodeAll(s)
  {
    var k := Fit(s, n);
    if s != [] && |Encode(s[0])| <= n {
      FitIsLongest(s[1..], n - |Encode(s[0])|);
      assert s[..k][1..] == s[1..][..k - 1];
      assert k < |s| ==> s[..k + 1][1..] == s[1..][..k];
    } else if s != [] {
      assert s[..1][1..] == [];
      assert EncodeAll(s[..1]) == Encode(s[0]) + EncodeAll([]);
    }
  }

  /** Past a whole character of a text, the cut is that character and the cut of the rest. */
  lemma StepBackPast(head: seq<Byte>, s: string, n: nat)
    requires |head| <= n
    ensures var rest := EncodeAll(s);
      StepBack(head + rest, Min(|head + rest|, n)) == |head| + StepBack(rest, Min(|rest|, n - |head|))
  {
    var rest := EncodeAll(s);
    if n < |head| + |rest| {
      assert rest[0] == Encode(s[0])[0];
      OnlyTheFirstLeads(s[0], 0);
      StepBackShift(head, rest, n - |head|);
    }
  }

  /** On text, the cut is exactly where the characters that fit end. */
  lemma {:induction false} CutFits(s: string, n: nat)
    ensures var b := EncodeAll(s); StepBack(b, Min(|b|, n)) == |EncodeAll(s[..Fit(s, n)])|
  {
    if s != [] {
      var head := Encode(s[0]);
      if |head| <= n {
        CutFits(s[1..], n - |head|);
        StepBackPast(head, s[1..], n);
        assert s[..Fit(s, n)][1..] == s[1..][..Fit(s, n) - 1];
      } else {
        StepBackInside(s[0], EncodeAll(s[1..]), n);
      }
    }
  }

  // ---------------------------------------------------------------- the rendering

  predicate IsControl(c: char) {
    c < ' ' || '\U{7F}' <= c <= '\U{9F}'
  }

  function HexDigit(n: nat): (c: char)
    requires n < 16
    ensures !IsControl(c)
  {
    if n < 10 then Digit(n) else ('A' as int + n - 10) as char
  }

  function EscapeChar(c: char): string {
    if c == '\r' || c == '\n' then ['\U{21B5}']
    else if c < ' ' then ['^', (c as int + '@' as int) as char]
    else if c == '\U{7F}' then "^?"
    else if '\U{80}' <= c <= '\U{9F}' then ['<', HexDigit(c as int / 16), HexDigit(c as int % 16), '>']
    else [c]
  }

  function Escape(s: string): string {
    if s == [] then [] else Escape(s[..|s| - 1]) + EscapeChar(s[|s| - 1])
  }

  function More(n: nat): string {
    if n == 0 then "" else "  ...and " + Padded(n, 1) + " more bytes"
  }

  function Rendered(bytes: seq<Byte>): string {
    Escape(DecodeLossy(bytes[..Cut(bytes)])) + More(|bytes| - Cut(bytes))
  }

  lemma EscapeNext(s: string, i: nat)
    requires i < |s|
    ensures Escape(s[..i + 1]) == Escape(s[..i]) + EscapeChar(s[i])
  {
    assert s[..i + 1][..i] == s[..i];
  }

  method RenderHeld(bytes: seq<Byte>) returns (out: string)
    ensures out == Rendered(bytes)
  {
    var cut := HeldCut(bytes);
    var decoded := DecodeLossy(bytes[..cut]);
    out := "";
    for i := 0 to |decoded|
      invariant out == Escape(decoded[..i])
    {
      EscapeNext(decoded, i);
      out := out + EscapeChar(decoded[i]);
    }
    assert decoded[..|decoded|] == decoded;
    if cut < |bytes| {
      out := out + More(|bytes| - cut);
    }
  }

  lemma {:induction false} EscapeHasNoControls(s: string)
    ensures forall i :: 0 <= i < |Escape(s)| ==> !IsControl(Escape(s)[i])
  {
    if s != [] {
      EscapeHasNoControls(s[..|s| - 1]);
    }
  }

  /** What can be shown as it is, is. */
  lemma {:induction false} PrintableIsItself(s: string)
    requires forall i :: 0 <= i < |s| ==> !IsControl(s[i])
    ensures Escape(s) == s
  {
    if s != [] {
      PrintableIsItself(s[..|s| - 1]);
      PrintableChar(s[|s| - 1]);
    }
  }

  lemma PrintableChar(c: char)
    ensures !IsControl(c) ==> EscapeChar(c) == [c]
  {
  }

  /** Whatever was typed, no C0, DEL or C1 scalar reaches the renderer. */
  lemma RenderingHasNoControls(bytes: seq<Byte>)
    ensures forall i :: 0 <= i < |Rendered(bytes)| ==> !IsControl(Rendered(bytes)[i])
  {
    var shown, more := DecodeLossy(bytes[..Cut(bytes)]), More(|bytes| - Cut(bytes));
    EscapeHasNoControls(shown);
    assert forall i :: 0 <= i < |more| ==> !IsControl(more[i]);
  }

  /**
   Text is shown as itself: for well-formed input the rendering is that of the longest prefix of
   whole characters within HELD_SHOWN bytes, which falls at most three bytes short of the limit
   when there is more, followed by how much more there is.
   */
  lemma TextIsShownWhole(s: string)
    ensures var b, k := EncodeAll(s), Fit(s, HELD_SHOWN);
      && b[..Cut(b)] == EncodeAll(s[..k])
      && Rendered(b) == Escape(s[..k]) + More(|b| - Cut(b))
      && (k < |s| ==> HELD_SHOWN - 3 <= Cut(b) <= HELD_SHOWN < |EncodeAll(s[..k + 1])|)
      && (k == |s| <==> |b| <= HELD_SHOWN)
  {
    var k := Fit(s, HELD_SHOWN);
    CutIsAPrefix(s);
    DecodeUndoesEncode(s[..k]);
  }

  lemma CutIsAPrefix(s: string)
    ensures var b, k := EncodeAll(s), Fit(s, HELD_SHOWN);
      && b[..Cut(b)] == EncodeAll(s[..k])
      && (k < |s| ==> HELD_SHOWN - 3 <= Cut(b) <= HELD_SHOWN < |EncodeAll(s[..k + 1])|)
      && (k == |s| <==> |b| <= HELD_SHOWN)
  {
    var b, k := EncodeAll(s), Fit(s, HELD_SHOWN);
    CutFits(s, HELD_SHOWN);
    FitIsLongest(s, HELD_SHOWN);
    assert s[..|s|] == s;
    if k < |s| {
      PrefixEncodes(s, k + 1);
    }
  }

  lemma {:induction false} PrefixEncodes(s: string, k: nat)
    requires k <= |s|
    ensures EncodeAll(s[..k]) <= EncodeAll(s)
  {
    if k > 0 {
      PrefixEncodes(s[1..], k - 1);
      assert s[..k][1..] == s[1..][..k - 1];
    }
  }

  lemma {:induction false} StepBackStops(bytes: seq<Byte>, p: nat, q: nat)
    requires 0 < q <= p < |bytes|
    ensures StepBack(bytes, p) >= q <==> exists i :: q <= i <= p && !IsContinuation(bytes[i])
  {
    if IsContinuation(bytes[p]) {
      StepBackBounds(bytes, p - 1);
      if q < p {
        StepBackStops(bytes, p - 1, q);
      }
    }
  }

  /**
   The promise about the cut, for any bytes: of an input that is cut at all, it keeps all but at most
   three of the HELD_SHOWN bytes if and only if one of the four bytes at the limit continues no
   character. Text always has one.
   */
  lemma CutIsNearIff(bytes: seq<Byte>)
    requires HELD_SHOWN < |bytes|
    ensures HELD_SHOWN - 3 <= Cut(bytes) <==>
      exists i :: HELD_SHOWN - 3 <= i <= HELD_SHOWN && !IsContinuation(bytes[i])
  {
    StepBackStops(bytes, HELD_SHOWN, HELD_SHOWN - 3);
  }

  /**
   Bytes that are no text can be cut to nothing: more than HELD_SHOWN continuation bytes in a row
   show none of themselves.
   */
  lemma ContinuationsShowNothing(n: nat)
    requires HELD_SHOWN < n
    ensures Cut(seq(n, _ => 0x80)) == 0
  {
    AllContinuations(seq(n, _ => 0x80), HELD_SHOWN);
  }

  lemma {:induction false} AllContinuations(bytes: seq<Byte>, p: nat)
    requires p < |bytes| && forall i :: 0 <= i < |bytes| ==> IsContinuation(bytes[i])
    ensures StepBack(bytes, p) == 0
  {
    if 0 < p {
      AllContinuations(bytes, p - 1);
    }
  }
}
