/** Numbers as bytes. */
module Bytes {
  lemma NarrowByte(k: nat)
    requires k < 256
    ensures (k as bv8) as int == k
  {
  }

  lemma BelowSixtyFour(b: bv8)
    ensures b < 64 <==> b as int < 64
  {
  }
}

/** What a base 64 text means, bit by bit, after section 4 of RFC 4648: the octets of the data and the
    six-bit groups of the text are the same bits, up to fewer than six zero bits of filling. */
module Base64 {
  import opened Bytes

  const ALPHABET: string := UPPER + LOWER + DIGITS
  const UPPER := "ABCDEFGHIJKLMNOPQRSTUVWXYZ"
  const LOWER := "abcdefghijklmnopqrstuvwxyz"
  const DIGITS := "0123456789+/"

  predicate IsBase64(c: char) {
    'A' <= c <= 'Z' || 'a' <= c <= 'z' || '0' <= c <= '9' || c == '+' || c == '/'
  }

  /** The alphabet in table 1 of RFC 4648. */
  lemma AlphabetAt(k: nat)
    requires k < |ALPHABET|
    ensures |ALPHABET| == 64 && IsBase64(ALPHABET[k])
    ensures ALPHABET[k] as int == if k < 26 then 'A' as int + k
                                  else if k < 52 then 'a' as int + k - 26
                                  else if k < 62 then '0' as int + k - 52
                                  else if k == 62 then '+' as int else '/' as int
  {
    assert |UPPER| == 26 && |LOWER| == 26 && |DIGITS| == 12;
    if k < 26 {
      assert ALPHABET[k] == UPPER[k];
    } else if k < 52 {
      assert ALPHABET[k] == LOWER[k - 26];
    } else {
      assert ALPHABET[k] == DIGITS[k - 52];
    }
  }

  /** The place of a character in the alphabet. */
  function Place(c: char): (k: nat)
    requires IsBase64(c)
    ensures k < |ALPHABET| && ALPHABET[k] == c
  {
    var k := if 'A' <= c <= 'Z' then c as int - 'A' as int
             else if 'a' <= c <= 'z' then 26 + c as int - 'a' as int
             else if '0' <= c <= '9' then 52 + c as int - '0' as int
             else if c == '+' then 62 else 63;
    assert |ALPHABET| == 64;
    AlphabetAt(k);
    k
  }

  function IndexOf(c: char): (k: bv8)
    requires IsBase64(c)
    ensures k < 64 && k as int == Place(c)
  {
    SmallByte(Place(c));
    Place(c) as bv8
  }

  lemma SmallByte(k: nat)
    requires k < |ALPHABET|
    ensures |ALPHABET| == 64 && k as bv8 < 64 && (k as bv8) as int == k
  {
    AlphabetAt(k);
    NarrowByte(k);
    BelowSixtyFour(k as bv8);
  }

  lemma IndexOfAlphabet(v: bv8)
    requires v < 64
    ensures v as int < |ALPHABET| && IsBase64(ALPHABET[v as int]) && IndexOf(ALPHABET[v as int]) == v
  {
    assert |ALPHABET| == 64;
    AlphabetAt(v as int);
    AlphabetAt(Place(ALPHABET[v as int]));
  }

  /** The eight bits of a byte, the highest first. */
  function Octet(b: bv8): seq<bool> {
    [b & 0x80 != 0, b & 0x40 != 0, b & 0x20 != 0, b & 0x10 != 0, b & 8 != 0, b & 4 != 0, b & 2 != 0, b & 1 != 0]
  }

  /** The low six bits of a byte, the highest first. */
  function Sextet(v: bv8): seq<bool> {
    [v & 0x20 != 0, v & 0x10 != 0, v & 8 != 0, v & 4 != 0, v & 2 != 0, v & 1 != 0]
  }

  function OctetBits(bytes: seq<bv8>): (bits: seq<bool>)
    ensures |bits| == 8 * |bytes|
  {
    if bytes == [] then [] else OctetBits(bytes[..|bytes| - 1]) + Octet(bytes[|bytes| - 1])
  }

  predicate InAlphabet(text: string) {
    forall k | 0 <= k < |text| :: IsBase64(text[k])
  }

  function SextetBits(text: string): (bits: seq<bool>)
    requires InAlphabet(text)
    ensures |bits| == 6 * |text|
  {
    if text == [] then []
    else SextetBits(text[..|text| - 1]) + Sextet(IndexOf(text[|text| - 1]))
  }

  /** How many characters come before the first one outside the alphabet. */
  function Prefix(text: string): (n: nat)
    ensures n <= |text| && InAlphabet(text[..n]) && (n < |text| ==> !IsBase64(text[n]))
  {
    if text == [] || !IsBase64(text[0]) then 0
    else
      assert forall k | 0 <= k < Prefix(text[1..]) :: text[1..][k] == text[k + 1];
      1 + Prefix(text[1..])
  }

  function DataBits(text: string): seq<bool> {
    SextetBits(text[..Prefix(text)])
  }

  predicate Zeros(bits: seq<bool>) {
    forall k | 0 <= k < |bits| :: !bits[k]
  }

  /** Whole groups of four, the last one filled up with at most two pad characters. */
  predicate Padded(text: string) {
    && |text| % 4 == 0
    && |text| - Prefix(text) <= 2
    && forall k | Prefix(text) <= k < |text| :: text[k] == '='
  }

  /** `text` encodes `bytes`. */
  predicate IsEncoding(bytes: seq<bv8>, text: string) {
    && Padded(text)
    && OctetBits(bytes) <= DataBits(text)
    && |DataBits(text)| - |OctetBits(bytes)| < 6
    && Zeros(DataBits(text)[|OctetBits(bytes)|..])
  }

  /** `bytes` are the whole octets in the characters of `text` up to the first foreign one. */
  predicate IsDecoding(text: string, bytes: seq<bv8>) {
    OctetBits(bytes) <= DataBits(text) && |DataBits(text)| - |OctetBits(bytes)| < 8
  }

  /** Section 3.5 of RFC 4648: the pad bits are zero. */
  predicate Canonical(text: string) {
    Padded(text) && Zeros(DataBits(text)[|DataBits(text)| / 8 * 8..])
  }

  // ---------------------------------------------------------------- bits determine bytes and texts

  lemma {:induction false} OctetBitsInjective(a: seq<bv8>, b: seq<bv8>)
    requires OctetBits(a) == OctetBits(b)
    ensures a == b
  {
    if a != [] {
      var n := |a| - 1;
      assert OctetBits(a)[..8 * n] == OctetBits(a[..n]) && OctetBits(b)[..8 * n] == OctetBits(b[..n]);
      OctetBitsInjective(a[..n], b[..n]);
      assert OctetBits(a)[8 * n..] == Octet(a[n]) && OctetBits(b)[8 * n..] == Octet(b[n]);
      OctetInjective(a[n], b[n]);
      assert a == a[..n] + [a[n]] && b == b[..n] + [b[n]];
    }
  }

  lemma OctetInjective(a: bv8, b: bv8)
    requires Octet(a) == Octet(b)
    ensures a == b
  {
    assert forall k | 0 <= k < 8 :: Octet(a)[k] == Octet(b)[k];
  }

  lemma SextetInjective(a: bv8, b: bv8)
    requires a < 64 && b < 64 && Sextet(a) == Sextet(b)
    ensures a == b
  {
    assert forall k | 0 <= k < 6 :: Sextet(a)[k] == Sextet(b)[k];
  }

  lemma {:induction false} SextetBitsInjective(a: string, b: string)
    requires InAlphabet(a) && InAlphabet(b) && SextetBits(a) == SextetBits(b)
    ensures a == b
  {
    hide IndexOf, IsBase64;
    if a != [] {
      var n := |a| - 1;
      assert SextetBits(a)[..6 * n] == SextetBits(a[..n]) && SextetBits(b)[..6 * n] == SextetBits(b[..n]);
      SextetBitsInjective(a[..n], b[..n]);
      assert SextetBits(a)[6 * n..] == Sextet(IndexOf(a[n])) && SextetBits(b)[6 * n..] == Sextet(IndexOf(b[n]));
      SextetInjective(IndexOf(a[n]), IndexOf(b[n]));
      assert a == a[..n] + [a[n]] && b == b[..n] + [b[n]];
    }
  }

  /** A padded text is known by its data bits. */
  lemma PaddedInjective(a: string, b: string)
    requires Padded(a) && Padded(b) && DataBits(a) == DataBits(b)
    ensures a == b
  {
    SextetBitsInjective(a[..Prefix(a)], b[..Prefix(b)]);
    assert |a| == |b|;
    assert forall k | 0 <= k < Prefix(a) :: a[k] == a[..Prefix(a)][k] == b[..Prefix(a)][k] == b[k];
  }

  // ---------------------------------------------------------------- round trips

  lemma DecodeUndoesEncode(bytes: seq<bv8>, text: string, decoded: seq<bv8>)
    requires IsEncoding(bytes, text) && IsDecoding(text, decoded)
    ensures decoded == bytes
  {
    assert |bytes| == |decoded|;
    assert OctetBits(bytes) == DataBits(text)[..8 * |bytes|] == OctetBits(decoded);
    OctetBitsInjective(bytes, decoded);
  }

  lemma EncodingIsUnique(bytes: seq<bv8>, a: string, b: string)
    requires IsEncoding(bytes, a) && IsEncoding(bytes, b)
    ensures a == b
  {
    hide OctetBits, SextetBits, Prefix;
    var n := 8 * |bytes|;
    assert |DataBits(a)| == |DataBits(b)|;
    assert DataBits(a) == OctetBits(bytes) + DataBits(a)[n..] && DataBits(b) == OctetBits(bytes) + DataBits(b)[n..];
    assert DataBits(a)[n..] == DataBits(b)[n..];
    PaddedInjective(a, b);
  }

  /** Every text has at most one decoding. */
  lemma DecodingIsUnique(text: string, a: seq<bv8>, b: seq<bv8>)
    requires IsDecoding(text, a) && IsDecoding(text, b)
    ensures a == b
  {
    assert |a| == |b|;
    assert OctetBits(a) == DataBits(text)[..8 * |a|] == OctetBits(b);
    OctetBitsInjective(a, b);
  }

  lemma WholeOctets(p: nat, pads: nat, n: nat)
    requires (p + pads) % 4 == 0 && pads <= 2 && 0 <= 6 * p - 8 * n < 8
    ensures 6 * p - 8 * n < 6 && 6 * p / 8 * 8 == 8 * n
  {
  }

  lemma EncodingIsCanonical(text: string, bytes: seq<bv8>)
    requires IsEncoding(bytes, text)
    ensures Canonical(text)
  {
    hide OctetBits, SextetBits, Prefix;
    WholeOctets(Prefix(text), |text| - Prefix(text), |bytes|);
  }

  lemma CanonicalIsEncoding(text: string, bytes: seq<bv8>)
    requires IsDecoding(text, bytes) && Canonical(text)
    ensures IsEncoding(bytes, text)
  {
    hide OctetBits, SextetBits, Prefix;
    WholeOctets(Prefix(text), |text| - Prefix(text), |bytes|);
  }

  /** Encoding what was decoded gives the text back exactly when the text was canonical. */
  lemma EncodeUndoesDecodeIff(text: string, bytes: seq<bv8>, again: string)
    requires IsDecoding(text, bytes) && IsEncoding(bytes, again)
    ensures again == text <==> Canonical(text)
  {
    hide IsDecoding, IsEncoding, Canonical;
    EncodingIsCanonical(again, bytes);
    if Canonical(text) {
      CanonicalIsEncoding(text, bytes);
      EncodingIsUnique(bytes, again, text);
    }
  }

  /** Decoding sees nothing from the first character outside the alphabet on. */
  lemma DecodesPrefix(text: string, bytes: seq<bv8>)
    ensures IsDecoding(text, bytes) <==> IsDecoding(text[..Prefix(text)], bytes)
  {
    var data := text[..Prefix(text)];
    assert Prefix(data) == |data|;
    assert data[..|data|] == data;
  }
}
