/**
 `generateRandomString`: n random bytes, unpadded base64url (section 5 of RFC 4648), cut to n
 characters (operator/internal/controller/client_controller.go:145-152). Cutting is safe, and exactly
 the first 6n of the 8n random bits survive.
 */
module Base64 {

  type Byte = b: nat | b < 256

  /** The URL-safe alphabet: A-Z, a-z, 0-9, '-' and '_'. */
  function Symbol(v: nat): (c: char)
    requires v < 64
  {
    if v < 26 then ('A' as int + v) as char
    else if v < 52 then ('a' as int + v - 26) as char
    else if v < 62 then ('0' as int + v - 52) as char
    else if v == 62 then '-' else '_'
  }

  /** Table 2 of RFC 4648, by the codes of the characters. */
  lemma SymbolTable(v: nat)
    requires v < 64
    ensures v < 26 ==> Symbol(v) as int == 65 + v
    ensures 26 <= v < 52 ==> Symbol(v) as int == 97 + (v - 26)
    ensures 52 <= v < 62 ==> Symbol(v) as int == 48 + (v - 52)
    ensures v == 62 ==> Symbol(v) == '-'
    ensures v == 63 ==> Symbol(v) == '_'
  {
  }

  predicate UrlSafe(c: char) {
    'A' <= c <= 'Z' || 'a' <= c <= 'z' || '0' <= c <= '9' || c == '-' || c == '_'
  }

  lemma SymbolInjective(v: nat, w: nat)
    requires v < 64 && w < 64
    ensures Symbol(v) == Symbol(w) <==> v == w
    ensures UrlSafe(Symbol(v))
  {
  }

  /** The symbols of one full group. */
  function Group(x: Byte, y: Byte, z: Byte): (r: string)
    ensures |r| == 4
  {
    [Symbol(x / 4), Symbol(x % 4 * 16 + y / 16), Symbol(y % 16 * 4 + z / 64), Symbol(z % 64)]
  }

  /** Three bytes give four symbols; two left over give three, one gives two. */
  function Encode(b: seq<Byte>): (r: string)
    ensures |r| == (4 * |b| + 2) / 3
  {
    if |b| == 0 then []
    else if |b| == 1 then [Symbol(b[0] / 4), Symbol(b[0] % 4 * 16)]
    else if |b| == 2 then [Symbol(b[0] / 4), Symbol(b[0] % 4 * 16 + b[1] / 16), Symbol(b[1] % 16 * 4)]
    else Group(b[0], b[1], b[2]) + Encode(b[3..])
  }

  /** x shifted right by n. */
  function Shr(x: nat, n: nat): nat { if n == 0 then x else Shr(x, n - 1) / 2 }

  function BitOf(x: Byte, j: nat): (r: nat)
    ensures r < 2
  {
    Shr(x, j) % 2
  }

  /** Bit i of the bytes, the most significant bit of each byte first. */
  function Bit(b: seq<Byte>, i: nat): (r: nat)
    requires i < 8 * |b|
    ensures r < 2
  {
    BitOf(b[i / 8], 7 - i % 8)
  }

  /** The six bits from 6k on, as a number. */
  function Sextet(b: seq<Byte>, k: nat): nat
    requires 6 * k + 5 < 8 * |b|
  {
    Number(Bit(b, 6 * k), Bit(b, 6 * k + 1), Bit(b, 6 * k + 2), Bit(b, 6 * k + 3), Bit(b, 6 * k + 4), Bit(b, 6 * k + 5))
  }

  function Number(p: nat, q: nat, r: nat, s: nat, t: nat, u: nat): nat {
    32 * p + 16 * q + 8 * r + 4 * s + 2 * t + u
  }

  lemma NumberInjective(p: nat, q: nat, r: nat, s: nat, t: nat, u: nat, p': nat, q': nat, r': nat, s': nat, t': nat, u': nat)
    requires p < 2 && q < 2 && r < 2 && s < 2 && t < 2 && u < 2
    requires p' < 2 && q' < 2 && r' < 2 && s' < 2 && t' < 2 && u' < 2
    requires Number(p, q, r, s, t, u) == Number(p', q', r', s', t', u')
    ensures p == p' && q == q' && r == r' && s == s' && t == t' && u == u'
  {
  }

  lemma Halve(x: Byte, j: nat)
    ensures Shr(x, j) == 2 * Shr(x, j + 1) + BitOf(x, j)
  {
  }

  lemma Quarter(x: Byte, j: nat)
    ensures Shr(x, j + 2) == Shr(x, j) / 4
  {
    assert Shr(x, j + 1) == Shr(x, j) / 2 && Shr(x, j + 2) == Shr(x, j + 1) / 2;
  }

  /** Cutting a byte at bit 2, 4 or 6 is shifting. */
  lemma Cuts(x: Byte)
    ensures x / 4 == Shr(x, 2) && x / 16 == Shr(x, 4) && x / 64 == Shr(x, 6) && Shr(x, 7) == BitOf(x, 7)
    ensures x == 4 * Shr(x, 2) + 2 * BitOf(x, 1) + BitOf(x, 0)
  {
    Quarter(x, 0); Quarter(x, 2); Quarter(x, 4);
    Halve(x, 0); Halve(x, 1); Halve(x, 6);
  }

  /** The parts of a byte the encoder cuts out, in terms of its bits. */
  lemma ByteBits(x: Byte)
    ensures x / 4 == Number(BitOf(x, 7), BitOf(x, 6), BitOf(x, 5), BitOf(x, 4), BitOf(x, 3), BitOf(x, 2))
    ensures x / 16 == 8 * BitOf(x, 7) + 4 * BitOf(x, 6) + 2 * BitOf(x, 5) + BitOf(x, 4)
    ensures x / 64 == 2 * BitOf(x, 7) + BitOf(x, 6)
    ensures x % 4 == 2 * BitOf(x, 1) + BitOf(x, 0)
    ensures x % 16 == 8 * BitOf(x, 3) + 4 * BitOf(x, 2) + 2 * BitOf(x, 1) + BitOf(x, 0)
    ensures x % 64 == Number(BitOf(x, 5), BitOf(x, 4), BitOf(x, 3), BitOf(x, 2), BitOf(x, 1), BitOf(x, 0))
  {
    hide Shr, BitOf;
    Cuts(x);
    Halve(x, 2); Halve(x, 3); Halve(x, 4); Halve(x, 5); Halve(x, 6);
  }

  lemma ShiftBits(b: seq<Byte>, k: nat)
    requires k >= 4 && |b| >= 3 && 6 * k + 5 < 8 * |b|
    ensures 6 * (k - 4) + 5 < 8 * |b[3..]| && Sextet(b, k) == Sextet(b[3..], k - 4)
  {
    ShiftBit(b, 6 * k); ShiftBit(b, 6 * k + 1); ShiftBit(b, 6 * k + 2);
    ShiftBit(b, 6 * k + 3); ShiftBit(b, 6 * k + 4); ShiftBit(b, 6 * k + 5);
  }

  lemma ShiftBit(b: seq<Byte>, i: nat)
    requires |b| >= 3 && 24 <= i < 8 * |b|
    ensures Bit(b, i) == Bit(b[3..], i - 24)
  {
    assert (i - 24) / 8 == i / 8 - 3 && (i - 24) % 8 == i % 8;
  }

  lemma Sextet0(b: seq<Byte>)
    requires |b| > 0
    ensures Sextet(b, 0) == b[0] / 4
  {
    ByteBits(b[0]);
    var x := b[0];
    assert Bit(b, 0) == BitOf(x, 7) && Bit(b, 1) == BitOf(x, 6) && Bit(b, 2) == BitOf(x, 5);
    assert Bit(b, 3) == BitOf(x, 4) && Bit(b, 4) == BitOf(x, 3) && Bit(b, 5) == BitOf(x, 2);
  }

  lemma Sextet1(b: seq<Byte>)
    requires |b| > 1
    ensures Sextet(b, 1) == b[0] % 4 * 16 + b[1] / 16
  {
    ByteBits(b[0]);
    ByteBits(b[1]);
    var x, y := b[0], b[1];
    assert Bit(b, 6) == BitOf(x, 1) && Bit(b, 7) == BitOf(x, 0) && Bit(b, 8) == BitOf(y, 7);
    assert Bit(b, 9) == BitOf(y, 6) && Bit(b, 10) == BitOf(y, 5) && Bit(b, 11) == BitOf(y, 4);
  }

  lemma Sextet2(b: seq<Byte>)
    requires |b| > 2
    ensures Sextet(b, 2) == b[1] % 16 * 4 + b[2] / 64
  {
    ByteBits(b[1]);
    ByteBits(b[2]);
    var x, y := b[1], b[2];
    assert Bit(b, 12) == BitOf(x, 3) && Bit(b, 13) == BitOf(x, 2) && Bit(b, 14) == BitOf(x, 1);
    assert Bit(b, 15) == BitOf(x, 0) && Bit(b, 16) == BitOf(y, 7) && Bit(b, 17) == BitOf(y, 6);
  }

  lemma Sextet3(b: seq<Byte>)
    requires |b| > 2
    ensures Sextet(b, 3) == b[2] % 64
  {
    ByteBits(b[2]);
    var x := b[2];
    assert Bit(b, 18) == BitOf(x, 5) && Bit(b, 19) == BitOf(x, 4) && Bit(b, 20) == BitOf(x, 3);
    assert Bit(b, 21) == BitOf(x, 2) && Bit(b, 22) == BitOf(x, 1) && Bit(b, 23) == BitOf(x, 0);
  }

  /** What the encoder cuts out for one of the first four symbols. */
  function Cut(b: seq<Byte>, k: nat): (v: nat)
    requires k < 4 && k < |b|
    ensures v < 64
  {
    if k == 0 then b[0] / 4
    else if k == 1 then b[0] % 4 * 16 + b[1] / 16
    else if k == 2 then b[1] % 16 * 4 + b[2] / 64
    else b[2] % 64
  }

  lemma EncodeHead(b: seq<Byte>, k: nat)
    requires k < 4 && k < |b|
    ensures Encode(b)[k] == Symbol(Cut(b, k))
  {
  }

  lemma EncodeTail(b: seq<Byte>, k: nat)
    requires 4 <= k < |b|
    ensures Encode(b)[k] == Encode(b[3..])[k - 4]
  {
    hide Symbol;
    assert Encode(b) == Group(b[0], b[1], b[2]) + Encode(b[3..]);
  }

  lemma CutIsSextet(b: seq<Byte>, k: nat)
    requires k < 4 && k < |b|
    ensures Sextet(b, k) == Cut(b, k)
  {
    match k
    case 0 => Sextet0(b);
    case 1 => Sextet1(b);
    case 2 => Sextet2(b);
    case 3 => Sextet3(b);
  }

  /** Below position n every symbol is made of whole sextets: no padding bits are involved. */
  lemma {:induction false} SymbolAt(b: seq<Byte>, k: nat)
    requires k < |b|
    ensures Sextet(b, k) < 64 && Encode(b)[k] == Symbol(Sextet(b, k))
    decreases |b|
  {
    if k >= 4 {
      EncodeTail(b, k);
      ShiftBits(b, k);
      SymbolAt(b[3..], k - 4);
    } else {
      EncodeHead(b, k);
      CutIsSextet(b, k);
    }
  }

  lemma SextetBits(b: seq<Byte>, c: seq<Byte>, k: nat, j: nat)
    requires |b| == |c| && k < |b| && j < 6
    requires Sextet(b, k) == Sextet(c, k)
    ensures Bit(b, 6 * k + j) == Bit(c, 6 * k + j)
  {
    NumberInjective(
      Bit(b, 6 * k), Bit(b, 6 * k + 1), Bit(b, 6 * k + 2), Bit(b, 6 * k + 3), Bit(b, 6 * k + 4), Bit(b, 6 * k + 5),
      Bit(c, 6 * k), Bit(c, 6 * k + 1), Bit(c, 6 * k + 2), Bit(c, 6 * k + 3), Bit(c, 6 * k + 4), Bit(c, 6 * k + 5));
  }

  /**
   Two draws of n bytes give the same secret exactly when their first 6n bits agree: every secret is
   hit by 2^2n draws, so n characters carry 6n uniformly random bits.
   */
  lemma KeepsSixBitsPerCharacter(b: seq<Byte>, c: seq<Byte>)
    requires |b| == |c|
    ensures |Encode(b)| >= |b| && |Encode(c)| >= |c|
    ensures Encode(b)[..|b|] == Encode(c)[..|c|] <==> forall i :: 0 <= i < 6 * |b| ==> Bit(b, i) == Bit(c, i)
  {
    if Encode(b)[..|b|] == Encode(c)[..|c|] { SameText(b, c); }
    if forall i :: 0 <= i < 6 * |b| ==> Bit(b, i) == Bit(c, i) { SameBits(b, c); }
  }

  lemma SameText(b: seq<Byte>, c: seq<Byte>)
    requires |b| == |c| && |Encode(b)| >= |b| && |Encode(c)| >= |c| && Encode(b)[..|b|] == Encode(c)[..|c|]
    ensures forall i :: 0 <= i < 6 * |b| ==> Bit(b, i) == Bit(c, i)
  {
    forall i | 0 <= i < 6 * |b| ensures Bit(b, i) == Bit(c, i) { SameTextAt(b, c, i / 6, i); }
  }

  lemma SameTextAt(b: seq<Byte>, c: seq<Byte>, k: nat, i: nat)
    requires |b| == |c| && |Encode(b)| >= |b| && |Encode(c)| >= |c| && Encode(b)[..|b|] == Encode(c)[..|c|]
    requires k < |b| && 6 * k <= i < 6 * k + 6
    ensures Bit(b, i) == Bit(c, i)
  {
    hide Encode, Bit;
    assert 6 * k + (i - 6 * k) == i;
    SymbolsGiveBits(b, c, k, i - 6 * k);
  }

  lemma SameBits(b: seq<Byte>, c: seq<Byte>)
    requires |b| == |c| && |Encode(b)| >= |b| && |Encode(c)| >= |c|
    requires forall i :: 0 <= i < 6 * |b| ==> Bit(b, i) == Bit(c, i)
    ensures Encode(b)[..|b|] == Encode(c)[..|c|]
  {
    forall k | 0 <= k < |b| ensures Encode(b)[..|b|][k] == Encode(c)[..|c|][k] { BitsGiveSymbols(b, c, k); }
  }

  lemma SymbolsGiveBits(b: seq<Byte>, c: seq<Byte>, k: nat, j: nat)
    requires |b| == |c| && k < |b| && j < 6
    requires |Encode(b)| >= |b| && |Encode(c)| >= |c| && Encode(b)[..|b|] == Encode(c)[..|c|]
    ensures Bit(b, 6 * k + j) == Bit(c, 6 * k + j)
  {
    SymbolAt(b, k);
    SymbolAt(c, k);
    assert Encode(b)[..|b|][k] == Encode(c)[..|c|][k];
    SymbolInjective(Sextet(b, k), Sextet(c, k));
    SextetBits(b, c, k, j);
  }

  lemma BitsGiveSymbols(b: seq<Byte>, c: seq<Byte>, k: nat)
    requires |b| == |c| && k < |b|
    requires forall i :: 0 <= i < 6 * |b| ==> Bit(b, i) == Bit(c, i)
    ensures |Encode(b)| > k && |Encode(c)| > k && Encode(b)[k] == Encode(c)[k]
  {
    SymbolAt(b, k);
    SymbolAt(c, k);
    SameSextet(b, c, k);
  }

  lemma SameSextet(b: seq<Byte>, c: seq<Byte>, k: nat)
    requires |b| == |c| && k < |b|
    requires forall i :: 0 <= i < 6 * |b| ==> Bit(b, i) == Bit(c, i)
    ensures Sextet(b, k) == Sextet(c, k)
  {
    assert 6 * k + 5 < 6 * |b|;
  }

  lemma {:induction false} AlphabetOnly(b: seq<Byte>, k: nat)
    requires k < |Encode(b)|
    ensures UrlSafe(Encode(b)[k])
    decreases |b|
  {
    if |b| >= 3 {
      if k >= 4 { AlphabetOnly(b[3..], k - 4); }
    }
  }

  lemma EncodeGroup(text: string, b: seq<Byte>, i: nat)
    requires i + 3 <= |b|
    ensures text + Encode(b[i..]) == (text + Group(b[i], b[i + 1], b[i + 2])) + Encode(b[i + 3..])
  {
    var rest := b[i..];
    assert rest[0] == b[i] && rest[1] == b[i + 1] && rest[2] == b[i + 2] && rest[3..] == b[i + 3..];
  }

  /** Fill a buffer from the random source, encode it group by group, cut the text to length. */
  method GenerateRandomString(length: nat, random: seq<Byte>) returns (s: string)
    requires |random| == length
    ensures |Encode(random)| >= length && s == Encode(random)[..length]
    ensures |s| == length && forall k :: 0 <= k < length ==> UrlSafe(s[k])
  {
    var b := new Byte[length];
    for i := 0 to length
      invariant b[..i] == random[..i]
    {
      b[i] := random[i];
    }
    assert b[..] == random;
    var text := EncodeBuffer(b);
    s := text[..length];
    forall k | 0 <= k < length ensures UrlSafe(s[k]) { AlphabetOnly(random, k); }
  }

  method EncodeBuffer(b: array<Byte>) returns (text: string)
    ensures text == Encode(b[..])
  {
    text := "";
    var i := 0;
    while i + 3 <= b.Length
      invariant i <= b.Length && text + Encode(b[..][i..]) == Encode(b[..])
    {
      EncodeGroup(text, b[..], i);
      text := text + Group(b[i], b[i + 1], b[i + 2]);
      i := i + 3;
    }
    ghost var rest := b[..][i..];
    if b.Length - i == 1 {
      assert rest == [b[i]];
      text := text + [Symbol(b[i] / 4), Symbol(b[i] % 4 * 16)];
    } else if b.Length - i == 2 {
      assert rest == [b[i], b[i + 1]];
      text := text + [Symbol(b[i] / 4), Symbol(b[i] % 4 * 16 + b[i + 1] / 16), Symbol(b[i + 1] % 16 * 4)];
    } else {
      assert rest == [] && text + [] == text;
    }
  }

  /** Three of the vectors of section 10 of RFC 4648, without padding. */
  lemma Vectors()
    ensures Encode([102]) == "Zg" && Encode([102, 111]) == "Zm8" && Encode([102, 111, 111]) == "Zm9v"
    ensures Encode([102, 111, 111, 98]) == "Zm9vYg"
  {
    var four: seq<Byte> := [102, 111, 111, 98];
    assert four[3..] == [98];
    assert Encode(four) == Group(102, 111, 111) + Encode(four[3..]);
  }
}
