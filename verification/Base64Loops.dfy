/** The loops of the encoder and of the decoder, with their staging arrays. The arrays start with
    arbitrary bytes, and the tails leave old bytes in them. */
module Base64Loops {
  import opened Base64
  import opened Bytes

  // ---------------------------------------------------------------- three bytes are four sextets

  function Quad0(a: bv8): bv8 { (a & 0xfc) >> 2 }

  function Quad1(a: bv8, b: bv8): bv8 { ((a & 0x03) << 4) + ((b & 0xf0) >> 4) }

  function Quad2(b: bv8, c: bv8): bv8 { ((b & 0x0f) << 2) + ((c & 0xc0) >> 6) }

  function Quad3(c: bv8): bv8 { c & 0x3f }

  function Triple0(v: bv8, w: bv8): bv8 { (v << 2) + ((w & 0x30) >> 4) }

  function Triple1(w: bv8, x: bv8): bv8 { ((w & 0xf) << 4) + ((x & 0x3c) >> 2) }

  function Triple2(x: bv8, y: bv8): bv8 { ((x & 0x3) << 6) + y }

  lemma Lengths(b: bv8)
    ensures |Octet(b)| == 8 && |Sextet(b)| == 6
  {
  }

  lemma Quad0Bits(a: bv8)
    ensures Quad0(a) < 64 && Sextet(Quad0(a)) == Octet(a)[..6]
  {
  }

  lemma Quad1Each(a: bv8, b: bv8)
    ensures var s := Sextet(Quad1(a, b));
            && Quad1(a, b) < 64
            && s[0] == Octet(a)[6] && s[1] == Octet(a)[7] && s[2] == Octet(b)[0] && s[3] == Octet(b)[1]
            && s[4] == Octet(b)[2] && s[5] == Octet(b)[3]
  {
  }

  lemma Quad1Bits(a: bv8, b: bv8)
    ensures Quad1(a, b) < 64 && Sextet(Quad1(a, b)) == Octet(a)[6..] + Octet(b)[..4]
  {
    hide Octet, Sextet, Quad1;
    Quad1Each(a, b);
    Lengths(Quad1(a, b)); Lengths(a); Lengths(b);
  }

  lemma Quad2Each(b: bv8, c: bv8)
    ensures var s := Sextet(Quad2(b, c));
            && Quad2(b, c) < 64
            && s[0] == Octet(b)[4] && s[1] == Octet(b)[5] && s[2] == Octet(b)[6] && s[3] == Octet(b)[7]
            && s[4] == Octet(c)[0] && s[5] == Octet(c)[1]
  {
  }

  lemma Quad2Bits(b: bv8, c: bv8)
    ensures Quad2(b, c) < 64 && Sextet(Quad2(b, c)) == Octet(b)[4..] + Octet(c)[..2]
  {
    hide Octet, Sextet, Quad2;
    Quad2Each(b, c);
    Lengths(Quad2(b, c)); Lengths(b); Lengths(c);
  }

  lemma Quad3Bits(c: bv8)
    ensures Quad3(c) < 64 && Sextet(Quad3(c)) == Octet(c)[2..]
  {
  }

  lemma Triple0High(v: bv8, w: bv8)
    ensures var s := Octet(Triple0(v, w));
            && s[0] == Sextet(v)[0] && s[1] == Sextet(v)[1] && s[2] == Sextet(v)[2] && s[3] == Sextet(v)[3]
  {
  }

  lemma Triple0Low(v: bv8, w: bv8)
    ensures var s := Octet(Triple0(v, w));
            && s[4] == Sextet(v)[4] && s[5] == Sextet(v)[5] && s[6] == Sextet(w)[0] && s[7] == Sextet(w)[1]
  {
  }

  lemma Triple0Bits(v: bv8, w: bv8)
    ensures Octet(Triple0(v, w)) == Sextet(v) + Sextet(w)[..2]
  {
    hide Octet, Sextet, Triple0;
    Triple0High(v, w);
    Triple0Low(v, w);
    Lengths(Triple0(v, w)); Lengths(v); Lengths(w);
  }

  lemma Triple1High(w: bv8, x: bv8)
    ensures var s := Octet(Triple1(w, x));
            && s[0] == Sextet(w)[2] && s[1] == Sextet(w)[3] && s[2] == Sextet(w)[4] && s[3] == Sextet(w)[5]
  {
  }

  lemma Triple1Low(w: bv8, x: bv8)
    ensures var s := Octet(Triple1(w, x));
            && s[4] == Sextet(x)[0] && s[5] == Sextet(x)[1] && s[6] == Sextet(x)[2] && s[7] == Sextet(x)[3]
  {
  }

  lemma Triple1Bits(w: bv8, x: bv8)
    ensures Octet(Triple1(w, x)) == Sextet(w)[2..] + Sextet(x)[..4]
  {
    hide Octet, Sextet, Triple1;
    Triple1High(w, x);
    Triple1Low(w, x);
    Lengths(Triple1(w, x)); Lengths(w); Lengths(x);
  }

  lemma Triple2Each(x: bv8, y: bv8)
    requires y < 64
    ensures var s := Octet(Triple2(x, y));
            && s[0] == Sextet(x)[4] && s[1] == Sextet(x)[5] && s[2] == Sextet(y)[0] && s[3] == Sextet(y)[1]
            && s[4] == Sextet(y)[2] && s[5] == Sextet(y)[3] && s[6] == Sextet(y)[4] && s[7] == Sextet(y)[5]
  {
  }

  lemma Triple2Bits(x: bv8, y: bv8)
    requires y < 64
    ensures Octet(Triple2(x, y)) == Sextet(x)[4..] + Sextet(y)
  {
    hide Octet, Sextet, Triple2;
    Triple2Each(x, y);
    Lengths(Triple2(x, y)); Lengths(x); Lengths(y);
  }

  lemma ZeroOctet()
    ensures Zeros(Octet(0))
  {
  }

  /** Twenty-four bits in groups of eight and in groups of six. */
  lemma Regroup(a: seq<bool>, b: seq<bool>, c: seq<bool>)
    requires |a| == |b| == |c| == 8
    ensures a[..6] + (a[6..] + b[..4]) + (b[4..] + c[..2]) + c[2..] == a + b + c
  {
    assert a == a[..6] + a[6..];
    assert b == b[..4] + b[4..];
    assert c == c[..2] + c[2..];
  }

  lemma RegroupOne(a: seq<bool>, rest: seq<bool>)
    requires |a| == 8
    ensures a[..6] + (a[6..] + rest) == a + rest
  {
    assert a == a[..6] + a[6..];
  }

  lemma UngroupOne(v: seq<bool>, w: seq<bool>)
    requires |w| == 6
    ensures (v + w[..2]) + w[2..] == v + w
  {
    assert w == w[..2] + w[2..];
  }

  lemma RegroupTwo(a: seq<bool>, b: seq<bool>, rest: seq<bool>)
    requires |a| == |b| == 8
    ensures a[..6] + (a[6..] + b[..4]) + (b[4..] + rest) == a + b + rest
  {
    assert a == a[..6] + a[6..];
    assert b == b[..4] + b[4..];
  }

  lemma UngroupTwo(v: seq<bool>, w: seq<bool>, x: seq<bool>)
    requires |v| == |w| == |x| == 6
    ensures (v + w[..2]) + (w[2..] + x[..4]) + x[4..] == v + w + x
  {
    assert w == w[..2] + w[2..];
    assert x == x[..4] + x[4..];
  }

  lemma Ungroup(v: seq<bool>, w: seq<bool>, x: seq<bool>, y: seq<bool>)
    requires |v| == |w| == |x| == |y| == 6
    ensures (v + w[..2]) + (w[2..] + x[..4]) + (x[4..] + y) == v + w + x + y
  {
    assert w == w[..2] + w[2..];
    assert x == x[..4] + x[4..];
  }

  // ---------------------------------------------------------------- appending characters and bytes

  function CharOf(v: bv8): char
    requires v < 64
  {
    IndexOfAlphabet(v);
    ALPHABET[v as int]
  }

  predicate Small(q: seq<bv8>) {
    forall k | 0 <= k < |q| :: q[k] < 64
  }

  function CharsOf(q: seq<bv8>): (text: string)
    requires Small(q)
    ensures |text| == |q|
  {
    if q == [] then "" else CharsOf(q[..|q| - 1]) + [CharOf(q[|q| - 1])]
  }

  function BitsOf(q: seq<bv8>): seq<bool> {
    if q == [] then [] else BitsOf(q[..|q| - 1]) + Sextet(q[|q| - 1])
  }

  lemma AppendsChar(text: string, v: bv8)
    requires InAlphabet(text) && v < 64
    ensures InAlphabet(text + [CharOf(v)]) && SextetBits(text + [CharOf(v)]) == SextetBits(text) + Sextet(v)
  {
    IndexOfAlphabet(v);
    assert (text + [CharOf(v)])[..|text|] == text;
  }

  lemma {:induction false} AppendsChars(text: string, q: seq<bv8>)
    requires InAlphabet(text) && Small(q)
    ensures InAlphabet(text + CharsOf(q)) && SextetBits(text + CharsOf(q)) == SextetBits(text) + BitsOf(q)
  {
    hide CharOf, SextetBits, Sextet;
    if q == [] {
      assert text + CharsOf(q) == text;
    } else {
      var n := |q| - 1;
      AppendsChars(text, q[..n]);
      AppendsChar(text + CharsOf(q[..n]), q[n]);
      assert text + CharsOf(q) == text + CharsOf(q[..n]) + [CharOf(q[n])];
    }
  }

  lemma {:induction false} OctetBitsAppend(a: seq<bv8>, b: seq<bv8>)
    ensures OctetBits(a + b) == OctetBits(a) + OctetBits(b)
  {
    hide Octet;
    if b == [] {
      assert a + b == a;
    } else {
      var n := |b| - 1;
      OctetBitsAppend(a, b[..n]);
      assert (a + b)[..|a| + n] == a + b[..n];
    }
  }

  lemma BitsOfThree(v: bv8, w: bv8, x: bv8)
    ensures BitsOf([v]) == Sextet(v) && BitsOf([v, w]) == Sextet(v) + Sextet(w)
    ensures BitsOf([v, w, x]) == Sextet(v) + Sextet(w) + Sextet(x)
  {
    assert [v][..0] == [] && [v, w][..1] == [v] && [v, w, x][..2] == [v, w];
  }

  lemma BitsOfFour(v: bv8, w: bv8, x: bv8, y: bv8)
    ensures BitsOf([v, w, x, y]) == Sextet(v) + Sextet(w) + Sextet(x) + Sextet(y)
  {
    BitsOfThree(v, w, x);
    assert [v, w, x, y][..3] == [v, w, x];
  }

  lemma OctetsOfThree(a: bv8, b: bv8, c: bv8)
    ensures OctetBits([a]) == Octet(a) && OctetBits([a, b]) == Octet(a) + Octet(b)
    ensures OctetBits([a, b, c]) == Octet(a) + Octet(b) + Octet(c)
  {
    assert [a][..0] == [] && [a, b][..1] == [a] && [a, b, c][..2] == [a, b];
  }

  /** Four whole sextets carry the bits of three bytes. */
  lemma QuadCarries(a: bv8, b: bv8, c: bv8)
    ensures BitsOf([Quad0(a), Quad1(a, b), Quad2(b, c), Quad3(c)]) == OctetBits([a, b, c])
  {
    hide Octet, Sextet, Quad0, Quad1, Quad2, Quad3;
    Quad0Bits(a); Quad1Bits(a, b); Quad2Bits(b, c); Quad3Bits(c);
    BitsOfFour(Quad0(a), Quad1(a, b), Quad2(b, c), Quad3(c));
    OctetsOfThree(a, b, c);
    Lengths(a); Lengths(b); Lengths(c);
    Regroup(Octet(a), Octet(b), Octet(c));
  }

  lemma TripleCarries(v: bv8, w: bv8, x: bv8, y: bv8)
    requires y < 64
    ensures OctetBits([Triple0(v, w), Triple1(w, x), Triple2(x, y)]) == BitsOf([v, w, x, y])
  {
    hide Octet, Sextet, Triple0, Triple1, Triple2;
    Triple0Bits(v, w); Triple1Bits(w, x); Triple2Bits(x, y);
    BitsOfFour(v, w, x, y);
    OctetsOfThree(Triple0(v, w), Triple1(w, x), Triple2(x, y));
    Lengths(v); Lengths(w); Lengths(x); Lengths(y);
    Ungroup(Sextet(v), Sextet(w), Sextet(x), Sextet(y));
  }

  /** One byte left over: two characters, the last four bits of which are zero. */
  lemma OneByteTail(a: bv8)
    ensures BitsOf([Quad0(a), Quad1(a, 0)]) == OctetBits([a]) + Octet(0)[..4]
  {
    hide Octet, Sextet, Quad0, Quad1;
    Quad0Bits(a); Quad1Bits(a, 0);
    BitsOfThree(Quad0(a), Quad1(a, 0), 0);
    OctetsOfThree(a, 0, 0);
    Lengths(a);
    RegroupOne(Octet(a), Octet(0)[..4]);
  }

  lemma TwoByteTail(a: bv8, b: bv8)
    ensures BitsOf([Quad0(a), Quad1(a, b), Quad2(b, 0)]) == OctetBits([a, b]) + Octet(0)[..2]
  {
    hide Octet, Sextet, Quad0, Quad1, Quad2;
    Quad0Bits(a); Quad1Bits(a, b); Quad2Bits(b, 0);
    BitsOfThree(Quad0(a), Quad1(a, b), Quad2(b, 0));
    OctetsOfThree(a, b, 0);
    Lengths(a); Lengths(b);
    RegroupTwo(Octet(a), Octet(b), Octet(0)[..2]);
  }

  /** Two or three characters left over: one or two bytes, and four or two bits that are dropped. */
  lemma TwoCharTail(v: bv8, w: bv8)
    ensures BitsOf([v, w]) == OctetBits([Triple0(v, w)]) + Sextet(w)[2..]
  {
    hide Octet, Sextet, Triple0;
    Triple0Bits(v, w);
    BitsOfThree(v, w, 0);
    OctetsOfThree(Triple0(v, w), 0, 0);
    Lengths(v); Lengths(w);
    UngroupOne(Sextet(v), Sextet(w));
  }

  lemma ThreeCharTail(v: bv8, w: bv8, x: bv8)
    ensures BitsOf([v, w, x]) == OctetBits([Triple0(v, w), Triple1(w, x)]) + Sextet(x)[4..]
  {
    hide Octet, Sextet, Triple0, Triple1;
    Triple0Bits(v, w); Triple1Bits(w, x);
    BitsOfThree(v, w, x);
    OctetsOfThree(Triple0(v, w), Triple1(w, x), 0);
    Lengths(v); Lengths(w); Lengths(x);
    UngroupTwo(Sextet(v), Sextet(w), Sextet(x));
  }

  lemma NothingYet()
    ensures InAlphabet("") && SextetBits("") == OctetBits([])
  {
  }

  // ---------------------------------------------------------------- padding and prefixes

  lemma PrefixIs(text: string, n: nat)
    requires n <= |text| && InAlphabet(text[..n]) && (n < |text| ==> !IsBase64(text[n]))
    ensures Prefix(text) == n
  {
    hide IsBase64, Prefix;
    var p := Prefix(text);
    assert forall k | 0 <= k < p :: text[..p][k] == text[k];
    assert forall k | 0 <= k < n :: text[..n][k] == text[k];
  }

  lemma PadCompletes(bytes: seq<bv8>, data: string, zeros: seq<bool>, text: string)
    requires InAlphabet(data) && SextetBits(data) == OctetBits(bytes) + zeros && Zeros(zeros) && |zeros| < 6
    requires |text| % 4 == 0 && |data| <= |text| <= |data| + 2 && text[..|data|] == data
    requires forall k | |data| <= k < |text| :: text[k] == '='
    ensures IsEncoding(bytes, text)
  {
    hide OctetBits, SextetBits;
    PrefixIs(text, |data|);
  }

  // ---------------------------------------------------------------- the encoder

  /** Characters for the first `count` values, one at a time. */
  method AppendFirst(text: string, q: array<bv8>, count: nat) returns (ret: string)
    requires count <= q.Length && Small(q[..count])
    ensures ret == text + CharsOf(q[..count])
  {
    ret := text;
    for i := 0 to count
      invariant ret == text + CharsOf(q[..i])
    {
      assert q[..i + 1][..i] == q[..i];
      assert q[i] == q[..count][i];
      ret := ret + [CharOf(q[i])];
    }
  }

  /** A full group: three bytes of the input become four characters of the output. */
  lemma GroupEncoded(text: string, done: seq<bv8>, a: bv8, b: bv8, c: bv8)
    requires InAlphabet(text) && SextetBits(text) == OctetBits(done)
    ensures var q := [Quad0(a), Quad1(a, b), Quad2(b, c), Quad3(c)];
            && Small(q)
            && InAlphabet(text + CharsOf(q))
            && SextetBits(text + CharsOf(q)) == OctetBits(done + [a, b, c])
  {
    var q := [Quad0(a), Quad1(a, b), Quad2(b, c), Quad3(c)];
    Quad0Bits(a); Quad1Bits(a, b); Quad2Bits(b, c); Quad3Bits(c);
    hide OctetBits, SextetBits, BitsOf, CharsOf, Quad0, Quad1, Quad2, Quad3;
    AppendsChars(text, q);
    QuadCarries(a, b, c);
    OctetBitsAppend(done, [a, b, c]);
  }

  /** The tail: `i` bytes of the input and zero bits become `i + 1` characters. */
  lemma TailEncoded(text: string, done: seq<bv8>, tail: seq<bv8>, q: seq<bv8>, zeros: seq<bool>)
    requires InAlphabet(text) && SextetBits(text) == OctetBits(done)
    requires Small(q) && BitsOf(q) == OctetBits(tail) + zeros
    ensures InAlphabet(text + CharsOf(q)) && SextetBits(text + CharsOf(q)) == OctetBits(done + tail) + zeros
  {
    hide OctetBits, SextetBits, BitsOf, CharsOf;
    AppendsChars(text, q);
    OctetBitsAppend(done, tail);
  }

  /** `base64_encode`. */
  method Encode(bytes: array<bv8>) returns (ret: string)
    ensures IsEncoding(bytes[..], ret)
  {
    hide OctetBits, SextetBits, InAlphabet, CharsOf, Quad0, Quad1, Quad2, Quad3, IsEncoding;
    ret := "";
    var i, n := 0, 0;
    var charArray3, charArray4 := new bv8[3], new bv8[4];
    NothingYet();
    while n < bytes.Length
      invariant 0 <= i <= n <= bytes.Length && i < 3
      invariant charArray3[..i] == bytes[n - i..n]
      invariant InAlphabet(ret) && |ret| % 4 == 0 && SextetBits(ret) == OctetBits(bytes[..n - i])
    {
      charArray3[i] := bytes[n];
      i, n := i + 1, n + 1;
      if i == 3 {
        var a, b, c := charArray3[0], charArray3[1], charArray3[2];
        FillThree(charArray3, charArray4);
        charArray4[3] := Quad3(c);
        GroupEncoded(ret, bytes[..n - 3], a, b, c);
        assert charArray4[..4] == charArray4[..3] + [Quad3(c)] == [Quad0(a), Quad1(a, b), Quad2(b, c), Quad3(c)];
        assert bytes[..n] == bytes[..n - 3] + [a, b, c];
        ret := AppendFirst(ret, charArray4, 4);
        i := 0;
      }
    }
    if i == 0 {
      assert bytes[..n] == bytes[..];
      WholeGroups(bytes[..], ret);
    } else {
      ret := EncodeTail(bytes, i, charArray3, charArray4, ret);
    }
  }

  lemma WholeGroups(bytes: seq<bv8>, text: string)
    requires InAlphabet(text) && |text| % 4 == 0 && SextetBits(text) == OctetBits(bytes)
    ensures IsEncoding(bytes, text)
  {
    assert OctetBits(bytes) == OctetBits(bytes) + [];
    PadCompletes(bytes, text, [], text);
  }

  /** The part of `base64_encode` after its loop, for one or two bytes left over. */
  method EncodeTail(bytes: array<bv8>, count: nat, charArray3: array<bv8>, charArray4: array<bv8>, text: string)
    returns (ret: string)
    requires 0 < count < 3 && count <= bytes.Length && charArray3.Length == 3 && charArray4.Length == 4
    requires charArray3 != charArray4 && bytes != charArray3 && bytes != charArray4
    requires charArray3[..count] == bytes[bytes.Length - count..]
    requires InAlphabet(text) && |text| % 4 == 0 && SextetBits(text) == OctetBits(bytes[..bytes.Length - count])
    modifies charArray3, charArray4
    ensures IsEncoding(bytes[..], ret)
  {
    hide OctetBits, SextetBits, InAlphabet, CharsOf, BitsOf, Quad0, Quad1, Quad2, Octet, IsEncoding;
    ghost var done, left := bytes[..bytes.Length - count], bytes[bytes.Length - count..];
    assert bytes[..] == done + left;
    ZeroRest(charArray3, count);
    FillThree(charArray3, charArray4);
    ghost var a, b := charArray3[0], charArray3[1];
    ghost var tail, zeros := TailBits(count, a, b);
    TailLeft(charArray3[..], count, left, tail);
    assert charArray4[..count + 1] == TailQuads(count, a, b);
    hide TailQuads;
    TailEncoded(text, done, tail, TailQuads(count, a, b), zeros);
    ret := AppendFirst(text, charArray4, count + 1);
    ret := AppendPads(bytes[..], ret, count, zeros);
  }

  lemma TailLeft(q: seq<bv8>, count: nat, left: seq<bv8>, tail: seq<bv8>)
    requires 0 < count < 3 && |q| == 3 && q[..count] == left && tail == [q[0], q[1]][..count]
    ensures left == tail
  {
    assert forall k | 0 <= k < count :: q[..count][k] == q[k];
  }

  /** The first three characters of a group, as the loop and the tail both compute them. */
  method FillThree(charArray3: array<bv8>, charArray4: array<bv8>)
    requires charArray3.Length == 3 && charArray4.Length == 4 && charArray3 != charArray4
    modifies charArray4
    ensures charArray4[..1] == [Quad0(charArray3[0])]
    ensures charArray4[..2] == [Quad0(charArray3[0]), Quad1(charArray3[0], charArray3[1])]
    ensures charArray4[..3] == [Quad0(charArray3[0]), Quad1(charArray3[0], charArray3[1]),
                                Quad2(charArray3[1], charArray3[2])]
  {
    hide Quad0, Quad1, Quad2;
    charArray4[0] := Quad0(charArray3[0]);
    charArray4[1] := Quad1(charArray3[0], charArray3[1]);
    charArray4[2] := Quad2(charArray3[1], charArray3[2]);
  }

  /** Nothing of the previous group stays in the places that the tail does not fill. */
  method ZeroRest(q: array<bv8>, count: nat)
    requires count <= q.Length == 3
    modifies q
    ensures q[..count] == old(q[..count])
    ensures forall k | count <= k < 3 :: q[k] == 0
  {
    var j := count;
    while j < 3
      invariant count <= j <= 3
      invariant q[..count] == old(q[..count])
      invariant forall k | count <= k < j :: q[k] == 0
    {
      q[j] := 0;
      j := j + 1;
    }
  }

  method AppendPads(ghost bytes: seq<bv8>, data: string, count: nat, ghost zeros: seq<bool>) returns (ret: string)
    requires 0 < count < 3 && (|data| + 3 - count) % 4 == 0
    requires InAlphabet(data) && SextetBits(data) == OctetBits(bytes) + zeros && Zeros(zeros) && |zeros| < 6
    ensures IsEncoding(bytes, ret)
  {
    hide OctetBits, SextetBits, InAlphabet, IsEncoding;
    ret := data;
    var i := count;
    while i < 3
      invariant count <= i <= 3
      invariant |ret| == |data| + i - count && ret[..|data|] == data
      invariant forall k | |data| <= k < |ret| :: ret[k] == '='
    {
      ret := ret + "=";
      i := i + 1;
    }
    PadCompletes(bytes, data, zeros, ret);
  }

  function TailQuads(count: nat, a: bv8, b: bv8): seq<bv8>
  {
    if count == 1 then [Quad0(a), Quad1(a, b)] else [Quad0(a), Quad1(a, b), Quad2(b, 0)]
  }

  lemma TailBits(count: nat, a: bv8, b: bv8) returns (tail: seq<bv8>, zeros: seq<bool>)
    requires 0 < count < 3 && (count == 1 ==> b == 0)
    ensures tail == [a, b][..count] && Zeros(zeros) && |zeros| < 6
    ensures Small(TailQuads(count, a, b)) && BitsOf(TailQuads(count, a, b)) == OctetBits(tail) + zeros
  {
    Quad0Bits(a); Quad1Bits(a, b); Quad2Bits(b, 0);
    ZeroOctet();
    hide OctetBits, BitsOf, Quad0, Quad1, Quad2;
    if count == 1 {
      OneByteTail(a);
      tail, zeros := [a], Octet(0)[..4];
    } else {
      TwoByteTail(a, b);
      tail, zeros := [a, b], Octet(0)[..2];
    }
  }

  // ---------------------------------------------------------------- the decoder

  /** The values of the characters of a text. */
  function Indices(text: string): (q: seq<bv8>)
    requires InAlphabet(text)
    ensures |q| == |text| && Small(q) && forall k | 0 <= k < |q| :: q[k] == IndexOf(text[k])
  {
    if text == [] then [] else Indices(text[..|text| - 1]) + [IndexOf(text[|text| - 1])]
  }

  lemma SextetBitsGrow(text: string, c: char)
    requires InAlphabet(text) && IsBase64(c)
    ensures InAlphabet(text + [c]) && SextetBits(text + [c]) == SextetBits(text) + Sextet(IndexOf(c))
  {
    hide IndexOf, IsBase64, Sextet;
    assert (text + [c])[..|text|] == text;
  }

  lemma BitsGrow(q: seq<bv8>, v: bv8)
    ensures BitsOf(q + [v]) == BitsOf(q) + Sextet(v)
  {
    hide Sextet;
    assert (q + [v])[..|q|] == q;
  }

  lemma {:induction false} SextetBitsAppend(done: string, text: string)
    requires InAlphabet(done) && InAlphabet(text)
    ensures InAlphabet(done + text) && SextetBits(done + text) == SextetBits(done) + BitsOf(Indices(text))
  {
    hide IndexOf, IsBase64, Sextet, SextetBits;
    if text == [] {
      assert done + text == done;
    } else {
      var n := |text| - 1;
      var front, c := text[..n], text[n];
      SextetBitsAppend(done, front);
      assert Indices(text) == Indices(front) + [IndexOf(c)];
      hide Indices, BitsOf;
      assert done + text == done + front + [c];
      SextetBitsGrow(done + front, c);
      BitsGrow(Indices(front), IndexOf(c));
      Associates(SextetBits(done), BitsOf(Indices(front)), Sextet(IndexOf(c)));
    }
  }

  lemma Associates(a: seq<bool>, b: seq<bool>, c: seq<bool>)
    ensures a + b + c == a + (b + c)
  {
  }

  lemma GroupDecoded(bytes: seq<bv8>, done: string, text: string)
    requires InAlphabet(done) && InAlphabet(text) && |text| == 4 && OctetBits(bytes) == SextetBits(done)
    ensures var q := Indices(text);
            var t := [Triple0(q[0], q[1]), Triple1(q[1], q[2]), Triple2(q[2], q[3])];
            OctetBits(bytes + t) == SextetBits(done + text)
  {
    hide OctetBits, SextetBits, BitsOf, Indices, Triple0, Triple1, Triple2;
    var q := Indices(text);
    var t := [Triple0(q[0], q[1]), Triple1(q[1], q[2]), Triple2(q[2], q[3])];
    SextetBitsAppend(done, text);
    TripleCarries(q[0], q[1], q[2], q[3]);
    assert q == [q[0], q[1], q[2], q[3]];
    OctetBitsAppend(bytes, t);
  }

  /** One, two or three characters left over: the bits of their whole bytes come first. */
  lemma TailDecoded(bytes: seq<bv8>, done: string, text: string, out: seq<bv8>)
    requires InAlphabet(done) && InAlphabet(text) && 0 < |text| < 4 && OctetBits(bytes) == SextetBits(done)
    requires |out| == |text| - 1
    requires |out| > 0 ==> out[0] == Triple0(Indices(text)[0], Indices(text)[1])
    requires |out| > 1 ==> out[1] == Triple1(Indices(text)[1], Indices(text)[2])
    ensures OctetBits(bytes + out) <= SextetBits(done + text)
    ensures |SextetBits(done + text)| - |OctetBits(bytes + out)| < 8
  {
    hide OctetBits, SextetBits, BitsOf, Indices, Triple0, Triple1;
    var q := Indices(text);
    SextetBitsAppend(done, text);
    OctetBitsAppend(bytes, out);
    if |text| == 1 {
      assert out == [];
    } else if |text| == 2 {
      assert q == [q[0], q[1]] && out == [Triple0(q[0], q[1])];
      TwoCharTail(q[0], q[1]);
    } else {
      assert q == [q[0], q[1], q[2]] && out == [Triple0(q[0], q[1]), Triple1(q[1], q[2])];
      ThreeCharTail(q[0], q[1], q[2]);
    }
  }

  /** `char_array_4[j] = base64_chars.find(char_array_4[j])` for the first `count` places. */
  method FindFirst(q: array<bv8>, count: nat, ghost text: string)
    requires count <= q.Length && InAlphabet(text) && Staged(q[..count], text)
    modifies q
    ensures q[..count] == Indices(text)
  {
    hide IndexOf;
    assert forall k | 0 <= k < count :: q[k] as int == q[..count][k] as int == text[k] as int;
    var j := 0;
    while j < count
      invariant 0 <= j <= count
      invariant forall k | 0 <= k < j :: q[k] == IndexOf(text[k])
      invariant forall k | j <= k < count :: q[k] as int == text[k] as int
    {
      var c := q[j] as int as char;
      assert c == text[j];
      q[j] := IndexOf(c);
      j := j + 1;
    }
  }

  lemma AlphabetIsNarrow(c: char)
    requires IsBase64(c)
    ensures (c as int) < 256 && ((c as int) as bv8) as int == c as int
  {
    NarrowByte(c as int);
  }

  /** `base64_decode`. */
  method Decode(text: string) returns (ret: seq<bv8>)
    ensures IsDecoding(text, ret)
  {
    hide OctetBits, SextetBits, Indices, IndexOf, Triple0, Triple1, Triple2, IsDecoding, IsBase64, InAlphabet, Staged;
    ret := [];
    var i, n := 0, 0;
    var charArray4, charArray3 := new bv8[4], new bv8[3];
    NothingYet();
    NothingStaged(text, 0);
    while n < |text| && text[n] != '=' && IsBase64(text[n])
      invariant 0 <= i <= n <= |text| && i < 4
      invariant InAlphabet(text[..n]) && InAlphabet(text[..n - i]) && InAlphabet(text[n - i..n])
      invariant Staged(charArray4[..i], text[n - i..n])
      invariant OctetBits(ret) == SextetBits(text[..n - i])
    {
      AlphabetGrows(text, n - i, n);
      AlphabetIsNarrow(text[n]);
      ghost var staged := charArray4[..i];
      charArray4[i] := text[n] as int as bv8;
      assert charArray4[..i + 1] == staged + [charArray4[i]];
      assert text[n - i..n + 1] == text[n - i..n] + [text[n]];
      StagedGrows(staged, text[n - i..n], charArray4[i], text[n]);
      i, n := i + 1, n + 1;
      if i == 4 {
        assert text[..n] == text[..n - 4] + text[n - 4..n];
        ret := DecodeGroup(text[..n - 4], text[n - 4..n], charArray4, charArray3, ret);
        i := 0;
        NothingStaged(text, n);
      }
    }
    PrefixFound(text, n);
    if i == 0 {
      WholeBytes(text, n, ret);
    } else {
      ret := DecodeTail(text, n, i, charArray4, charArray3, ret);
    }
  }

  /** The branch of `base64_decode` for a full group of four characters. */
  method DecodeGroup(ghost done: string, ghost group: string, charArray4: array<bv8>, charArray3: array<bv8>,
                     bytes: seq<bv8>)
    returns (ret: seq<bv8>)
    requires charArray4.Length == 4 && charArray3.Length == 3 && charArray3 != charArray4
    requires InAlphabet(done) && InAlphabet(group) && Staged(charArray4[..4], group)
    requires OctetBits(bytes) == SextetBits(done)
    modifies charArray4, charArray3
    ensures OctetBits(ret) == SextetBits(done + group)
  {
    hide OctetBits, SextetBits, Indices, IndexOf, Triple0, Triple1, Triple2, IsBase64, InAlphabet;
    FindFirst(charArray4, 4, group);
    assert forall k | 0 <= k < 4 :: charArray4[k] == charArray4[..4][k] == Indices(group)[k];
    charArray3[0] := Triple0(charArray4[0], charArray4[1]);
    charArray3[1] := Triple1(charArray4[1], charArray4[2]);
    charArray3[2] := Triple2(charArray4[2], charArray4[3]);
    GroupDecoded(bytes, done, group);
    assert charArray3[..3] == [charArray3[0], charArray3[1], charArray3[2]];
    ret := AppendBytes(bytes, charArray3, 3);
  }

  /** The part of `base64_decode` after its loop, for one to three characters left over. */
  method DecodeTail(text: string, n: nat, count: nat, charArray4: array<bv8>, charArray3: array<bv8>, bytes: seq<bv8>)
    returns (ret: seq<bv8>)
    requires 0 < count < 4 && count <= n <= |text| && charArray4.Length == 4 && charArray3.Length == 3
    requires charArray3 != charArray4
    requires Prefix(text) == n && InAlphabet(text[..n - count]) && InAlphabet(text[n - count..n])
    requires Staged(charArray4[..count], text[n - count..n])
    requires OctetBits(bytes) == SextetBits(text[..n - count])
    modifies charArray4, charArray3
    ensures IsDecoding(text, ret)
  {
    hide OctetBits, SextetBits, Indices, IndexOf, Triple0, Triple1, IsBase64, InAlphabet, Prefix;
    ghost var tail := text[n - count..n];
    FindFirst(charArray4, count, tail);
    assert forall k | 0 <= k < count :: charArray4[k] == charArray4[..count][k] == Indices(tail)[k];
    charArray3[0] := Triple0(charArray4[0], charArray4[1]);
    charArray3[1] := Triple1(charArray4[1], charArray4[2]);
    TailDecoded(bytes, text[..n - count], tail, charArray3[..count - 1]);
    assert text[..n] == text[..n - count] + tail;
    ret := AppendBytes(bytes, charArray3, count - 1);
  }

  /** `ret += char_array_3[j]` for the first `count` places. */
  method AppendBytes(bytes: seq<bv8>, from: array<bv8>, count: nat) returns (ret: seq<bv8>)
    requires count <= from.Length
    ensures ret == bytes + from[..count]
  {
    ret := bytes;
    for j := 0 to count
      invariant ret == bytes + from[..j]
    {
      assert from[..j + 1] == from[..j] + [from[j]];
      ret := ret + [from[j]];
    }
  }

  /** The array holds the codes of the characters. */
  predicate Staged(q: seq<bv8>, text: string) {
    |q| == |text| && forall k | 0 <= k < |q| :: q[k] as int == text[k] as int
  }

  lemma StagedGrows(q: seq<bv8>, text: string, v: bv8, c: char)
    requires Staged(q, text) && v as int == c as int
    ensures Staged(q + [v], text + [c])
  {
  }

  lemma AlphabetGrows(text: string, from: nat, n: nat)
    requires from <= n < |text| && IsBase64(text[n]) && InAlphabet(text[..n])
    ensures InAlphabet(text[..n + 1]) && InAlphabet(text[from..n + 1])
  {
    assert forall k | 0 <= k < n :: text[k] == text[..n][k];
  }

  lemma NothingStaged(text: string, n: nat)
    requires n <= |text|
    ensures InAlphabet(text[n..n]) && Staged([], text[n..n])
  {
  }

  lemma PrefixFound(text: string, n: nat)
    requires n <= |text| && InAlphabet(text[..n])
    requires n < |text| ==> text[n] == '=' || !IsBase64(text[n])
    ensures Prefix(text) == n
  {
    PrefixIs(text, n);
  }

  lemma WholeBytes(text: string, n: nat, bytes: seq<bv8>)
    requires n <= |text| && Prefix(text) == n && OctetBits(bytes) == SextetBits(text[..n])
    ensures IsDecoding(text, bytes)
  {
  }
}
