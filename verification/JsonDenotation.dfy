/** The parser meets the grammar: on every well-formed text it yields the denoted document and stops
    just behind the closing bracket. */
module JsonDenotation {
  import opened JsonValue
  import opened JsonGrammar
  import opened JsonParser

  // ---------------------------------------------------------------- text at a position

  lemma PrefixSplit(text: string, it: nat, a: string, b: string)
    requires HasPrefix(text, it, a + b)
    ensures HasPrefix(text, it, a) && HasPrefix(text, it + |a|, b) && it + |a| + |b| <= |text|
  {
    var ab := a + b;
    forall k | 0 <= k < |a| ensures text[it + k] == a[k] {
      assert ab[k] == a[k];
    }
    forall k | 0 <= k < |b| ensures text[it + |a| + k] == b[k] {
      assert ab[|a| + k] == b[k];
    }
  }

  lemma PrefixSplit3(text: string, it: nat, a: string, b: string, c: string)
    requires HasPrefix(text, it, a + b + c)
    ensures HasPrefix(text, it, a) && HasPrefix(text, it + |a|, b) && HasPrefix(text, it + |a| + |b|, c)
    ensures it + |a| + |b| + |c| <= |text|
  {
    hide HasPrefix;
    PrefixSplit(text, it, a + b, c);
    PrefixSplit(text, it, a, b);
  }

  lemma PrefixAt(text: string, it: nat, a: string, k: nat)
    requires HasPrefix(text, it, a) && k < |a|
    ensures it + |a| <= |text| && text[it + k] == a[k]
  {
  }

  lemma PrefixHead(text: string, it: nat, a: string)
    requires HasPrefix(text, it, a) && a != []
    ensures it < |text| && text[it] == a[0] && HasPrefix(text, it + 1, a[1..])
  {
    assert a == a[..1] + a[1..];
    PrefixSplit(text, it, a[..1], a[1..]);
    PrefixAt(text, it, a, 0);
  }

  /** White space up to one of the characters that end a value. */
  predicate Followed(text: string, it: nat)
    decreases |text| - it
  {
    it < |text| && (IsDelimiter(text[it]) || (IsSpace(text[it]) && Followed(text, it + 1)))
  }

  lemma FollowedEndsToken(text: string, it: nat)
    requires Followed(text, it)
    ensures it < |text| && !IsNumberStart(text[it]) && text[it] !in {'.', 'e', 'E'}
  {
  }

  lemma {:induction false} FollowedBySpace(text: string, it: nat, s: string)
    requires HasPrefix(text, it, s) && AllSpace(s)
    requires it + |s| < |text| && IsDelimiter(text[it + |s|])
    ensures Followed(text, it)
    decreases |s|
  {
    hide HasPrefix;
    if s != [] {
      PrefixHead(text, it, s);
      FollowedBySpace(text, it + 1, s[1..]);
    }
  }

  // ---------------------------------------------------------------- one turn of the loop

  lemma TurnString(text: string, it: nat, e: nat, s: string, name: string, c: Value, conv: Converter)
    requires it < |text| && text[it] == '\"' && ReadString(text, it + 1, conv) == At(e, s) && IsContainer(c)
    ensures ParseLoop(text, it, ParseValue, name, c, conv)
         == ParseLoop(text, e + 1, NextState(c), name, PushBack(c, name, Str(s)), conv)
    ensures ParseLoop(text, it, ParseName, name, c, conv) == ParseLoop(text, e + 1, ParseValue, s, c, conv)
  {
    hide ReadString;
  }

  lemma TurnNumber(text: string, it: nat, e: nat, v: Value, name: string, c: Value, conv: Converter)
    requires it < |text| && IsNumberStart(text[it]) && ReadNumber(text, it) == At(e, v) && IsContainer(c)
    ensures ParseLoop(text, it, ParseValue, name, c, conv)
         == ParseLoop(text, e, NextState(c), name, PushBack(c, name, v), conv)
  {
    hide ReadNumber;
  }

  lemma TurnLiteral(text: string, it: nat, e: nat, v: Value, name: string, c: Value, conv: Converter)
    requires it < |text| && IsLiteralStart(text[it]) && ReadLiteral(text, it) == At(e, v) && IsContainer(c)
    ensures ParseLoop(text, it, ParseValue, name, c, conv)
         == ParseLoop(text, e, NextState(c), name, PushBack(c, name, v), conv)
  {
    hide ReadLiteral;
  }

  lemma TurnNested(text: string, it: nat, e: nat, v: Value, name: string, c: Value, conv: Converter)
    requires it < |text| && (text[it] == '{' || text[it] == '[') && IsContainer(c)
    requires var empty := EmptyContainer(text[it]);
             ParseLoop(text, it + 1, NextState(empty), "", empty, conv) == At(e, v)
    ensures ParseLoop(text, it, ParseValue, name, c, conv)
         == ParseLoop(text, e, NextState(c), name, PushBack(c, name, v), conv)
  {
  }

  lemma TurnClose(text: string, it: nat, state: State, name: string, c: Value, conv: Converter)
    requires it < |text| && (text[it] == '}' || text[it] == ']') && IsContainer(c)
    ensures ParseLoop(text, it, state, name, c, conv) == At(it + 1, c)
  {
  }

  predicate IsFiller(c: char) {
    IsSpace(c) || c == ',' || c == ':'
  }

  lemma TurnFiller(text: string, it: nat, state: State, name: string, c: Value, conv: Converter)
    requires it < |text| && IsFiller(text[it]) && IsContainer(c)
    ensures ParseLoop(text, it, state, name, c, conv) == ParseLoop(text, it + 1, state, name, c, conv)
  {
  }

  /** White space, commas and colons leave the state of the loop alone. */
  lemma {:induction false} SkipsFiller(text: string, it: nat, s: string, state: State, name: string, c: Value,
                                       conv: Converter)
    requires HasPrefix(text, it, s) && IsContainer(c) && it <= |text|
    requires forall i | 0 <= i < |s| :: IsFiller(s[i])
    ensures it + |s| <= |text|
    ensures ParseLoop(text, it, state, name, c, conv) == ParseLoop(text, it + |s|, state, name, c, conv)
    decreases |s|
  {
    hide HasPrefix, ParseLoop;
    if s != [] {
      PrefixHead(text, it, s);
      TurnFiller(text, it, state, name, c, conv);
      SkipsFiller(text, it + 1, s[1..], state, name, c, conv);
    }
  }

  // ---------------------------------------------------------------- strings

  lemma HexDigitsAgree(c: char)
    ensures IsHex(c) <==> HexToNum(c) >= 0
    ensures IsHex(c) ==> HexToNum(c) == HexDigit(c)
  {
  }

  lemma HexadecimalOfFour(h: string)
    requires |h| == 4 && AllHex(h)
    ensures Hexadecimal(h) == 0x1000 * HexDigit(h[0]) + 0x100 * HexDigit(h[1]) + 0x10 * HexDigit(h[2]) + HexDigit(h[3])
  {
    assert h[..3][..2] == h[..2] && h[..2][..1] == h[..1];
    assert Hexadecimal(h[..1]) == HexDigit(h[0]) by { assert h[..1][..0] == ""; }
    assert Hexadecimal(h[..2]) == 16 * Hexadecimal(h[..1]) + HexDigit(h[1]);
    assert Hexadecimal(h[..3]) == 16 * Hexadecimal(h[..2]) + HexDigit(h[2]);
  }

  /** Four hexadecimal digits are read left to right as one code unit of 16 bits. */
  lemma HexQuadIsHexadecimal(text: string, it: nat, hex: string)
    requires |hex| == 4 && AllHex(hex) && HasPrefix(text, it, hex)
    ensures HasHexQuad(text, it) && HexQuad(text, it) == Hexadecimal(hex) && 0 <= Hexadecimal(hex) < 0x1_0000
  {
    forall k | 0 <= k < 4
      ensures text[it + k] == hex[k] && HexToNum(text[it + k]) == HexDigit(hex[k])
    {
      HexDigitsAgree(hex[k]);
    }
    assert text[it + 0] == hex[0];
    HexadecimalOfFour(hex);
    forall k | it <= k < it + 4
      ensures HexToNum(text[k]) >= 0
    {
      assert text[k] == text[it + (k - it)];
    }
  }

  /** The text of the characters with the closing quote behind it. */
  predicate AtChars(text: string, it: nat, cs: seq<Char>) {
    var e := it + |RenderChars(cs)|;
    HasPrefix(text, it, RenderChars(cs)) && e < |text| && text[e] == '\"'
  }

  lemma CharsText(cs: seq<Char>)
    requires cs != []
    ensures RenderChars(cs) == RenderChar(cs[0]) + RenderChars(cs[1..])
  {
  }

  lemma CharsSplit(text: string, it: nat, cs: seq<Char>)
    requires AtChars(text, it, cs) && cs != []
    ensures HasPrefix(text, it, RenderChar(cs[0])) && AtChars(text, it + |RenderChar(cs[0])|, cs[1..])
  {
    hide HasPrefix, RenderChars, RenderChar;
    CharsText(cs);
    PrefixSplit(text, it, RenderChar(cs[0]), RenderChars(cs[1..]));
  }

  lemma PlainCharAt(text: string, it: nat, c: Char)
    requires CharWellFormed(c) && !c.Run? && HasPrefix(text, it, RenderChar(c))
    ensures c.Raw? ==> it < |text| && text[it] == c.c && c.c != '\"' && c.c != '\\'
    ensures c.Escaped? ==> it + 1 < |text| && text[it] == '\\' && text[it + 1] == c.letter && c.letter != 'u'
    ensures it <= |text| && !AtUnit(text, it)
  {
    PrefixAt(text, it, RenderChar(c), 0);
    if c.Escaped? {
      PrefixAt(text, it, RenderChar(c), 1);
    }
  }

  /** No code-unit escape follows a run. */
  lemma RunIsMaximal(text: string, it: nat, cs: seq<Char>)
    requires CharsWellFormed(cs) && AtChars(text, it, cs) && (cs != [] ==> !cs[0].Run?)
    ensures it <= |text| && !AtUnit(text, it)
  {
    if cs != [] {
      CharsSplit(text, it, cs);
      PlainCharAt(text, it, cs[0]);
    }
  }

  lemma UnitsSplit(text: string, it: nat, us: seq<string>)
    requires us != [] && UnitsWellFormed(us) && HasPrefix(text, it, RenderUnits(us))
    ensures it <= |text| && AtUnit(text, it) && HasHexQuad(text, it + 2)
    ensures HexQuad(text, it + 2) == Hexadecimal(us[0])
    ensures HasPrefix(text, it + 6, RenderUnits(us[1..]))
  {
    hide HasPrefix;
    var more := RenderUnits(us[1..]);
    assert RenderUnits(us) == "\\u" + us[0] + more;
    hide RenderUnits;
    PrefixSplit3(text, it, "\\u", us[0], more);
    PrefixAt(text, it, "\\u", 0);
    PrefixAt(text, it, "\\u", 1);
    HexQuadIsHexadecimal(text, it + 2, us[0]);
  }

  /** A run of code-unit escapes is gathered whole. */
  lemma {:induction false} GathersRun(text: string, it: nat, us: seq<string>)
    requires UnitsWellFormed(us) && it <= |text| && HasPrefix(text, it, RenderUnits(us))
    requires it + |RenderUnits(us)| <= |text| && !AtUnit(text, it + |RenderUnits(us)|)
    ensures GatherUnits(text, it) == At(it + |RenderUnits(us)|, UnitValues(us))
    decreases |us|
  {
    hide HasPrefix;
    if us != [] {
      var more := RenderUnits(us[1..]);
      assert |RenderUnits(us)| == 6 + |more|;
      hide RenderUnits, Hexadecimal, HexQuad, HasHexQuad;
      UnitsSplit(text, it, us);
      GathersRun(text, it + 6, us[1..]);
    }
  }

  lemma EscapesAgree(letter: char)
    requires letter in ESCAPES
    ensures letter != 'u' && Unescaped(letter) == ESCAPES[letter]
  {
  }

  lemma StringRaw(text: string, it: nat, conv: Converter)
    requires it < |text| && text[it] != '\"' && text[it] != '\\'
    ensures ReadString(text, it, conv) == Prepend([text[it]], ReadString(text, it + 1, conv))
  {
  }

  lemma StringEscape(text: string, it: nat, conv: Converter)
    requires it + 1 < |text| && text[it] == '\\' && text[it + 1] != 'u'
    ensures ReadString(text, it, conv) == Prepend([Unescaped(text[it + 1])], ReadString(text, it + 2, conv))
  {
  }

  lemma StringRun(text: string, it: nat, e: nat, units: seq<int>, conv: Converter)
    requires it <= |text| && AtUnit(text, it) && GatherUnits(text, it) == At(e, units)
    ensures ReadString(text, it, conv) == Prepend(conv(units), ReadString(text, e, conv))
  {
    hide GatherUnits;
  }

  lemma ReadsChar(text: string, it: nat, cs: seq<Char>, conv: Converter)
    requires CharsWellFormed(cs) && AtChars(text, it, cs) && cs != []
    ensures var next := it + |RenderChar(cs[0])|;
            && next <= |text| && AtChars(text, next, cs[1..])
            && ReadString(text, it, conv) == Prepend(DenoteChar(cs[0], conv), ReadString(text, next, conv))
  {
    hide AtChars, HasPrefix, ReadString;
    CharsSplit(text, it, cs);
    if cs[0].Run? {
      var us := cs[0].units;
      RunIsMaximal(text, it + |RenderUnits(us)|, cs[1..]);
      UnitsSplit(text, it, us);
      GathersRun(text, it, us);
      StringRun(text, it, it + |RenderUnits(us)|, UnitValues(us), conv);
    } else if cs[0].Raw? {
      PlainCharAt(text, it, cs[0]);
      StringRaw(text, it, conv);
    } else {
      PlainCharAt(text, it, cs[0]);
      StringEscape(text, it, conv);
      EscapesAgree(cs[0].letter);
    }
  }

  lemma {:induction false} ReadsChars(text: string, it: nat, cs: seq<Char>, conv: Converter)
    requires CharsWellFormed(cs) && AtChars(text, it, cs)
    ensures it <= |text| && ReadString(text, it, conv) == At(it + |RenderChars(cs)|, DenoteChars(cs, conv))
    decreases |cs|
  {
    if cs == [] {
      assert text[it] == '\"';
    } else {
      hide AtChars, HasPrefix, ReadString, RenderChar, DenoteChar;
      ReadsChar(text, it, cs, conv);
      ReadsChars(text, it + |RenderChar(cs[0])|, cs[1..], conv);
      assert ReadString(text, it, conv) == At(it + |RenderChars(cs)|, DenoteChars(cs, conv));
    }
  }

  // ---------------------------------------------------------------- numbers and literals

  lemma DecimalAppend(ds: string, d: char)
    requires AllDigits(ds) && IsDigit(d)
    ensures AllDigits(ds + [d]) && Decimal(ds + [d]) == 10 * Decimal(ds) + (d as int - '0' as int)
  {
    assert (ds + [d])[..|ds + [d]| - 1] == ds;
  }

  lemma {:induction false} ReadsDigits(text: string, it: nat, before: string, ds: string)
    requires AllDigits(before) && AllDigits(ds) && HasPrefix(text, it, ds) && it <= |text|
    requires it + |ds| == |text| || (it + |ds| < |text| && !IsDigit(text[it + |ds|]))
    ensures ReadDigits(text, it, Decimal(before)) == Decimal(before + ds)
    decreases |ds|
  {
    hide HasPrefix, Decimal;
    if ds == [] {
      assert before + ds == before;
    } else {
      PrefixHead(text, it, ds);
      DecimalAppend(before, ds[0]);
      ReadsDigits(text, it + 1, before + [ds[0]], ds[1..]);
      assert before + [ds[0]] + ds[1..] == before + ds;
    }
  }

  lemma {:induction false} SkipsDigits(text: string, it: nat, ds: string)
    requires AllDigits(ds) && HasPrefix(text, it, ds) && Followed(text, it + |ds|)
    ensures it <= |text| && SkipInt(text, it) == SkipNumber(text, it) == it + |ds|
    decreases |ds|
  {
    hide HasPrefix, Followed;
    if ds != [] {
      PrefixHead(text, it, ds);
      SkipsDigits(text, it + 1, ds[1..]);
    } else {
      FollowedEndsToken(text, it);
    }
  }

  lemma NumberParts(text: string, it: nat, neg: bool, ds: string)
    requires ds != [] && AllDigits(ds) && HasPrefix(text, it, Render(Number(neg, ds)))
    ensures var first := if neg then it + 1 else it;
            && first < |text| && HasPrefix(text, first, ds) && IsDigit(text[first])
            && (neg ==> text[it] == '-') && it + |Render(Number(neg, ds))| == first + |ds|
  {
    hide HasPrefix;
    var sign := if neg then "-" else "";
    PrefixSplit(text, it, sign, ds);
    PrefixHead(text, it + |sign|, ds);
    if neg {
      PrefixHead(text, it, sign);
    }
  }

  lemma AtoiReads(text: string, it: nat, neg: bool, ds: string)
    requires ds != [] && AllDigits(ds)
    requires HasPrefix(text, it, Render(Number(neg, ds))) && Followed(text, it + |Render(Number(neg, ds))|)
    ensures it <= |text| && Atoi(text, it) == Signed(neg, ds)
  {
    var first := if neg then it + 1 else it;
    assert Decimal("") == 0 && "" + ds == ds;
    hide HasPrefix, Followed, Decimal, Render, ReadDigits;
    NumberParts(text, it, neg, ds);
    FollowedEndsToken(text, first + |ds|);
    ReadsDigits(text, first, "", ds);
  }

  lemma ReadsNumber(text: string, it: nat, neg: bool, ds: string)
    requires ds != [] && AllDigits(ds) && IsInt32(Signed(neg, ds))
    requires HasPrefix(text, it, Render(Number(neg, ds))) && Followed(text, it + |Render(Number(neg, ds))|)
    ensures it < |text| && IsNumberStart(text[it])
    ensures ReadNumber(text, it) == At(it + |Render(Number(neg, ds))|, Int(Signed(neg, ds)))
  {
    hide HasPrefix, Followed, Atoi, Signed, Render;
    var first := if neg then it + 1 else it;
    AtoiReads(text, it, neg, ds);
    NumberParts(text, it, neg, ds);
    FollowedEndsToken(text, first + |ds|);
    SkipsDigits(text, first, ds);
    assert SkipInt(text, it) == SkipNumber(text, it) == first + |ds|;
  }

  /** From behind a literal both `SkipLiteral` and the loop go to the same delimiter. */
  lemma {:induction false} SkipsToDelimiter(text: string, it: nat, state: State, name: string, c: Value,
                                            conv: Converter)
    requires Followed(text, it) && IsContainer(c)
    ensures it <= |text| && SkipLiteral(text, it).At?
    ensures ParseLoop(text, it, state, name, c, conv)
         == ParseLoop(text, SkipLiteral(text, it).it, state, name, c, conv)
    decreases |text| - it
  {
    hide ParseLoop;
    if !IsDelimiter(text[it]) {
      TurnFiller(text, it, state, name, c, conv);
      SkipsToDelimiter(text, it + 1, state, name, c, conv);
    }
  }

  predicate IsLiteral(s: Syntax) {
    s.NullLit? || s.TrueLit? || s.FalseLit?
  }

  lemma ReadsLiteral(s: Syntax, text: string, it: nat, conv: Converter)
    requires IsLiteral(s) && HasPrefix(text, it, Render(s)) && Followed(text, it + |Render(s)|)
    ensures it < |text| && IsLiteralStart(text[it])
    ensures SkipLiteral(text, it) == SkipLiteral(text, it + |Render(s)|)
    ensures LiteralAt(text, it) == Denote(s, conv)
  {
    var lit := Render(s);
    assert text[it + 0] == lit[0] && text[it + 1] == lit[1] && text[it + 2] == lit[2] && text[it + 3] == lit[3];
    assert "nul"[0] == 'n' && "tru"[0] == 't';
    assert LiteralAt(text, it) == Denote(s, conv);
    if s.FalseLit? {
      assert text[it + 4] == lit[4];
    }
    hide HasPrefix, Followed;
    assert SkipLiteral(text, it) == SkipLiteral(text, it + 1) == SkipLiteral(text, it + 2)
      == SkipLiteral(text, it + 3) == SkipLiteral(text, it + 4);
  }

  // ---------------------------------------------------------------- values

  /** One value in value position: the loop stores it and goes on behind it. */
  lemma {:induction false} ParsesValue(s: Syntax, text: string, it: nat, name: string, c: Value, conv: Converter)
    requires WellFormed(s) && IsContainer(c)
    requires HasPrefix(text, it, Render(s)) && Followed(text, it + |Render(s)|)
    ensures it <= |text|
    ensures ParseLoop(text, it, ParseValue, name, c, conv)
         == ParseLoop(text, it + |Render(s)|, NextState(c), name, PushBack(c, name, Denote(s, conv)), conv)
    decreases s, 2
  {
    hide ParseLoop, HasPrefix, Followed;
    var e, v := it + |Render(s)|, Denote(s, conv);
    if s.Number? {
      ReadsNumber(text, it, s.negative, s.digits);
      TurnNumber(text, it, e, v, name, c, conv);
    } else if s.Text? {
      ParsesText(text, it, s.chars, ParseValue, name, c, conv);
    } else if s.Array? || s.Object? {
      ParsesContainer(s, text, it, conv);
      TurnNested(text, it, e, v, name, c, conv);
    } else {
      ReadsLiteral(s, text, it, conv);
      SkipsToDelimiter(text, e, NextState(c), name, PushBack(c, name, v), conv);
      TurnLiteral(text, it, SkipLiteral(text, e).it, v, name, c, conv);
    }
  }

  /** A quoted string is a value or a key, depending on the state. */
  lemma ParsesText(text: string, it: nat, cs: seq<Char>, state: State, name: string, c: Value, conv: Converter)
    requires CharsWellFormed(cs) && IsContainer(c) && HasPrefix(text, it, Quoted(cs))
    ensures it <= |text|
    ensures var e := it + |Quoted(cs)|; var s := DenoteChars(cs, conv);
            && ParseLoop(text, it, ParseValue, name, c, conv)
               == ParseLoop(text, e, NextState(c), name, PushBack(c, name, Str(s)), conv)
            && ParseLoop(text, it, ParseName, name, c, conv) == ParseLoop(text, e, ParseValue, s, c, conv)
  {
    hide ParseLoop, HasPrefix, DenoteChars, RenderChars;
    PrefixSplit(text, it, "\"", RenderChars(cs) + "\"");
    PrefixAt(text, it, "\"", 0);
    PrefixSplit(text, it + 1, RenderChars(cs), "\"");
    PrefixAt(text, it + 1 + |RenderChars(cs)|, "\"", 0);
    ReadsChars(text, it + 1, cs, conv);
    TurnString(text, it, it + 1 + |RenderChars(cs)|, DenoteChars(cs, conv), name, c, conv);
  }

  // ---------------------------------------------------------------- containers

  function OpenBracket(s: Syntax): char
    requires s.Array? || s.Object?
  {
    if s.Array? then '[' else '{'
  }

  /** A nested or outermost container: from behind its opening bracket to behind its closing one. */
  lemma {:induction false} ParsesContainer(s: Syntax, text: string, it: nat, conv: Converter)
    requires WellFormed(s) && (s.Array? || s.Object?) && HasPrefix(text, it, Render(s))
    ensures var open := OpenBracket(s);
            && it < |text| && text[it] == open
            && ParseLoop(text, it + 1, NextState(EmptyContainer(open)), "", EmptyContainer(open), conv)
               == At(it + |Render(s)|, Denote(s, conv))
    decreases s, 1
  {
    hide ParseLoop, HasPrefix;
    PrefixHead(text, it, Render(s));
    if s.Array? {
      if s.elements == [] {
        assert Render(s)[1..] == s.pad + "]";
        ParsesEmpty(text, it + 1, s.pad, "]", ParseValue, Arr([]), conv);
      } else {
        ArrayText(s);
        ParsesElements(s.elements, text, it + 1, conv);
      }
    } else {
      if s.members == [] {
        assert Render(s)[1..] == s.pad + "}";
        ParsesEmpty(text, it + 1, s.pad, "}", ParseName, Obj(map[]), conv);
      } else {
        ObjectText(s);
        ParsesMembers(s.members, text, it + 1, "", map[], conv);
      }
    }
  }

  lemma ArrayText(s: Syntax)
    requires s.Array? && s.elements != []
    ensures Render(s)[1..] == RenderElement(s.elements[0]) + (RenderMoreElements(s.elements[1..]) + "]")
    ensures |Render(s)| == |RenderElements(s.elements)| + 2
  {
    var es := s.elements;
    assert Render(s) == "[" + (RenderElement(es[0]) + (RenderMoreElements(es[1..]) + "]"));
  }

  lemma ObjectText(s: Syntax)
    requires s.Object? && s.members != []
    ensures Render(s)[1..] == RenderMember(s.members[0]) + (RenderMoreMembers(s.members[1..]) + "}")
    ensures |Render(s)| == |RenderMembers(s.members)| + 2
  {
    var ms := s.members;
    assert Render(s) == "{" + (RenderMember(ms[0]) + (RenderMoreMembers(ms[1..]) + "}"));
  }

  lemma ParsesEmpty(text: string, it: nat, pad: string, close: string, state: State, c: Value, conv: Converter)
    requires AllSpace(pad) && (close == "]" || close == "}") && IsContainer(c)
    requires it <= |text| && HasPrefix(text, it, pad + close)
    ensures ParseLoop(text, it, state, "", c, conv) == At(it + |pad| + 1, c)
  {
    hide ParseLoop, HasPrefix;
    PrefixSplit(text, it, pad, close);
    SkipsFiller(text, it, pad, state, "", c, conv);
    PrefixAt(text, it + |pad|, close, 0);
    TurnClose(text, it + |pad|, state, "", c, conv);
  }

  /** The pieces of a value between white space that runs up to a delimiter. */
  lemma PaddedValue(text: string, it: nat, before: string, s: string, after: string, rest: string)
    requires AllSpace(after) && rest != "" && IsDelimiter(rest[0])
    requires HasPrefix(text, it, before + s + after + rest)
    ensures var at := it + |before|;
            && HasPrefix(text, it, before) && HasPrefix(text, at, s)
            && HasPrefix(text, at + |s|, after) && HasPrefix(text, at + |s| + |after|, rest)
            && Followed(text, at + |s|)
  {
    hide HasPrefix, Followed;
    PrefixSplit(text, it, before + s + after, rest);
    PrefixSplit3(text, it, before, s, after);
    PrefixAt(text, it + |before| + |s| + |after|, rest, 0);
    FollowedBySpace(text, it + |before| + |s|, after);
  }

  lemma {:induction false} ParsesElement(e: Element, text: string, it: nat, rest: string, acc: seq<Value>,
                                         conv: Converter)
    requires AllSpace(e.before) && WellFormed(e.value) && AllSpace(e.after)
    requires rest != "" && IsDelimiter(rest[0]) && it <= |text| && HasPrefix(text, it, RenderElement(e) + rest)
    ensures HasPrefix(text, it + |RenderElement(e)|, rest) && it + |RenderElement(e)| <= |text|
    ensures ParseLoop(text, it, ParseValue, "", Arr(acc), conv)
         == ParseLoop(text, it + |RenderElement(e)|, ParseValue, "", Arr(acc + [Denote(e.value, conv)]), conv)
    decreases e, 0
  {
    hide ParseLoop, HasPrefix;
    var written, v := Render(e.value), Denote(e.value, conv);
    var at := it + |e.before|;
    assert RenderElement(e) == e.before + written + e.after;
    hide Followed, RenderElement;
    PaddedValue(text, it, e.before, written, e.after, rest);
    SkipsFiller(text, it, e.before, ParseValue, "", Arr(acc), conv);
    ParsesValue(e.value, text, at, "", Arr(acc), conv);
    assert PushBack(Arr(acc), "", v) == Arr(acc + [v]);
    hide Render, Denote, WellFormed;
    SkipsFiller(text, at + |written|, e.after, ParseValue, "", Arr(acc + [v]), conv);
  }

  lemma {:induction false} ParsesElements(es: seq<Element>, text: string, it: nat, conv: Converter)
    requires es != [] && ElementsWellFormed(es) && it <= |text|
    requires HasPrefix(text, it, RenderElement(es[0]) + (RenderMoreElements(es[1..]) + "]"))
    ensures ParseLoop(text, it, ParseValue, "", Arr([]), conv)
         == At(it + |RenderElements(es)| + 1, Arr(DenoteElements(es, conv)))
    decreases es, 0
  {
    hide ParseLoop, HasPrefix;
    var rest := RenderMoreElements(es[1..]) + "]";
    var v := Denote(es[0].value, conv);
    assert [] + [v] == [v] && [v] + DenoteElements(es[1..], conv) == DenoteElements(es, conv);
    ElementsText(es);
    hide RenderElement, RenderMoreElements, DenoteElements, Denote;
    ParsesElement(es[0], text, it, rest, [], conv);
    ParsesMoreElements(es[1..], text, it + |RenderElement(es[0])|, [v], conv);
  }

  lemma {:induction false} ParsesMoreElements(es: seq<Element>, text: string, it: nat, acc: seq<Value>, conv: Converter)
    requires ElementsWellFormed(es) && it <= |text| && HasPrefix(text, it, RenderMoreElements(es) + "]")
    ensures ParseLoop(text, it, ParseValue, "", Arr(acc), conv)
         == At(it + |RenderMoreElements(es)| + 1, Arr(acc + DenoteElements(es, conv)))
    decreases es, 0
  {
    hide ParseLoop, HasPrefix;
    if es == [] {
      assert acc + DenoteElements(es, conv) == acc;
      PrefixHead(text, it, RenderMoreElements(es) + "]");
      TurnClose(text, it, ParseValue, "", Arr(acc), conv);
    } else {
      var rest := RenderMoreElements(es[1..]) + "]";
      var v := Denote(es[0].value, conv);
      MoreElementsText(es);
      assert acc + [v] + DenoteElements(es[1..], conv) == acc + DenoteElements(es, conv);
      hide RenderElement, RenderMoreElements, DenoteElements, Denote;
      ParsesComma(text, it, RenderElement(es[0]) + rest, ParseValue, "", Arr(acc), conv);
      ParsesElement(es[0], text, it + 1, rest, acc, conv);
      ParsesMoreElements(es[1..], text, it + 1 + |RenderElement(es[0])|, acc + [v], conv);
    }
  }

  lemma ParsesComma(text: string, it: nat, tail: string, state: State, name: string, c: Value, conv: Converter)
    requires HasPrefix(text, it, "," + tail) && IsContainer(c)
    ensures it < |text| && HasPrefix(text, it + 1, tail)
    ensures ParseLoop(text, it, state, name, c, conv) == ParseLoop(text, it + 1, state, name, c, conv)
  {
    hide ParseLoop, HasPrefix;
    PrefixSplit(text, it, ",", tail);
    PrefixAt(text, it, ",", 0);
    TurnFiller(text, it, state, name, c, conv);
  }

  lemma ColonIsFiller(before: string, after: string)
    requires AllSpace(before) && AllSpace(after)
    ensures var colon := before + ":" + after; forall i | 0 <= i < |colon| :: IsFiller(colon[i])
  {
  }

  lemma ParsesKey(m: Member, text: string, it: nat, name: string, c: Value, conv: Converter)
    requires AllSpace(m.before) && CharsWellFormed(m.key) && AllSpace(m.beforeColon) && AllSpace(m.afterColon)
    requires it <= |text| && HasPrefix(text, it, RenderKey(m)) && IsContainer(c)
    ensures it + |RenderKey(m)| <= |text|
    ensures ParseLoop(text, it, ParseName, name, c, conv)
         == ParseLoop(text, it + |RenderKey(m)|, ParseValue, DenoteChars(m.key, conv), c, conv)
  {
    hide ParseLoop, HasPrefix;
    var quoted := Quoted(m.key);
    var colon := m.beforeColon + ":" + m.afterColon;
    var at := it + |m.before|;
    ColonIsFiller(m.beforeColon, m.afterColon);
    assert RenderKey(m) == m.before + quoted + colon;
    hide RenderKey, Quoted, DenoteChars, CharsWellFormed;
    PrefixSplit3(text, it, m.before, quoted, colon);
    SkipsFiller(text, it, m.before, ParseName, name, c, conv);
    ParsesText(text, at, m.key, ParseName, name, c, conv);
    SkipsFiller(text, at + |quoted|, colon, ParseValue, DenoteChars(m.key, conv), c, conv);
  }

  lemma {:induction false} ParsesMember(m: Member, text: string, it: nat, rest: string, name: string, acc: map<string,
                                        Value>, conv: Converter)
    requires AllSpace(m.before) && CharsWellFormed(m.key) && AllSpace(m.beforeColon)
    requires AllSpace(m.afterColon) && WellFormed(m.value) && AllSpace(m.after)
    requires rest != "" && IsDelimiter(rest[0]) && it <= |text| && HasPrefix(text, it, RenderMember(m) + rest)
    ensures HasPrefix(text, it + |RenderMember(m)|, rest) && it + |RenderMember(m)| <= |text|
    ensures var key := DenoteChars(m.key, conv);
            ParseLoop(text, it, ParseName, name, Obj(acc), conv)
            == ParseLoop(text, it + |RenderMember(m)|, ParseName, key, Obj(acc[key := Denote(m.value, conv)]), conv)
    decreases m, 0
  {
    hide ParseLoop, HasPrefix;
    var written, key := Render(m.value), DenoteChars(m.key, conv);
    var after := PushBack(Obj(acc), key, Denote(m.value, conv));
    var at := it + |RenderKey(m)|;
    hide Followed, RenderKey, DenoteChars, CharsWellFormed;
    PaddedValue(text, it, RenderKey(m), written, m.after, rest);
    ParsesKey(m, text, it, name, Obj(acc), conv);
    ParsesValue(m.value, text, at, key, Obj(acc), conv);
    SkipsFiller(text, at + |written|, m.after, ParseName, key, after, conv);
  }

  lemma MembersText(ms: seq<Member>)
    requires ms != []
    ensures var rest := RenderMoreMembers(ms[1..]) + "}";
            && rest[0] == (if ms[1..] == [] then '}' else ',')
            && |RenderMembers(ms)| == |RenderMember(ms[0])| + |rest| - 1
  {
    hide RenderMember;
  }

  lemma MoreMembersStart(ms: seq<Member>)
    ensures (RenderMoreMembers(ms) + "}")[0] == (if ms == [] then '}' else ',')
  {
    hide RenderMember;
  }

  lemma MoreMembersText(ms: seq<Member>)
    requires ms != []
    ensures var rest := RenderMoreMembers(ms[1..]) + "}";
            && rest[0] == (if ms[1..] == [] then '}' else ',')
            && |RenderMoreMembers(ms)| == |RenderMember(ms[0])| + |rest|
            && RenderMoreMembers(ms) + "}" == "," + (RenderMember(ms[0]) + rest)
  {
    hide RenderMember;
    var first, more := RenderMember(ms[0]), RenderMoreMembers(ms[1..]);
    assert RenderMoreMembers(ms) == "," + first + more;
    MoreMembersStart(ms[1..]);
    hide RenderMoreMembers;
    assert "," + first + more + "}" == "," + (first + (more + "}"));
  }

  lemma ElementsText(es: seq<Element>)
    requires es != []
    ensures var rest := RenderMoreElements(es[1..]) + "]";
            && rest[0] == (if es[1..] == [] then ']' else ',')
            && |RenderElements(es)| == |RenderElement(es[0])| + |rest| - 1
  {
    hide RenderElement;
  }

  lemma MoreElementsStart(ms: seq<Element>)
    ensures (RenderMoreElements(ms) + "]")[0] == (if ms == [] then ']' else ',')
  {
    hide RenderElement;
  }

  lemma MoreElementsText(ms: seq<Element>)
    requires ms != []
    ensures var rest := RenderMoreElements(ms[1..]) + "]";
            && rest[0] == (if ms[1..] == [] then ']' else ',')
            && |RenderMoreElements(ms)| == |RenderElement(ms[0])| + |rest|
            && RenderMoreElements(ms) + "]" == "," + (RenderElement(ms[0]) + rest)
  {
    hide RenderElement;
    var first, more := RenderElement(ms[0]), RenderMoreElements(ms[1..]);
    assert RenderMoreElements(ms) == "," + first + more;
    MoreElementsStart(ms[1..]);
    hide RenderMoreElements;
    assert "," + first + more + "]" == "," + (first + (more + "]"));
  }

  lemma FirstMember(ms: seq<Member>, acc: map<string, Value>, conv: Converter)
    requires ms != [] && MembersWellFormed(ms)
    ensures DenoteMembers(ms, acc, conv)
         == DenoteMembers(ms[1..], acc[DenoteChars(ms[0].key, conv) := Denote(ms[0].value, conv)], conv)
  {
    hide DenoteChars, Denote;
  }

  lemma {:induction false} ParsesMembers(ms: seq<Member>, text: string, it: nat, name: string, acc: map<string,
                                         Value>, conv: Converter)
    requires ms != [] && MembersWellFormed(ms) && it <= |text|
    requires HasPrefix(text, it, RenderMember(ms[0]) + (RenderMoreMembers(ms[1..]) + "}"))
    ensures ParseLoop(text, it, ParseName, name, Obj(acc), conv)
         == At(it + |RenderMembers(ms)| + 1, Obj(DenoteMembers(ms, acc, conv)))
    decreases ms, 0
  {
    hide ParseLoop, HasPrefix;
    var rest := RenderMoreMembers(ms[1..]) + "}";
    var key := DenoteChars(ms[0].key, conv);
    var next := acc[key := Denote(ms[0].value, conv)];
    hide WellFormed, AllSpace, CharsWellFormed;
    MembersText(ms);
    FirstMember(ms, acc, conv);
    hide RenderMember, RenderMoreMembers, RenderMembers, DenoteMembers, DenoteChars, Denote;
    ParsesMember(ms[0], text, it, rest, name, acc, conv);
    ParsesMoreMembers(ms[1..], text, it + |RenderMember(ms[0])|, key, next, conv);
  }

  lemma {:induction false} ParsesMoreMembers(ms: seq<Member>, text: string, it: nat, name: string, acc: map<string,
                                             Value>, conv: Converter)
    requires MembersWellFormed(ms) && it <= |text| && HasPrefix(text, it, RenderMoreMembers(ms) + "}")
    ensures ParseLoop(text, it, ParseName, name, Obj(acc), conv)
         == At(it + |RenderMoreMembers(ms)| + 1, Obj(DenoteMembers(ms, acc, conv)))
    decreases ms, 0
  {
    hide ParseLoop, HasPrefix;
    if ms == [] {
      PrefixHead(text, it, RenderMoreMembers(ms) + "}");
      TurnClose(text, it, ParseName, name, Obj(acc), conv);
    } else {
      var rest := RenderMoreMembers(ms[1..]) + "}";
      var key := DenoteChars(ms[0].key, conv);
      var next := acc[key := Denote(ms[0].value, conv)];
      MoreMembersText(ms);
      FirstMember(ms, acc, conv);
      hide RenderMember, RenderMoreMembers, DenoteMembers, DenoteChars, Denote;
      ParsesComma(text, it, RenderMember(ms[0]) + rest, ParseName, name, Obj(acc), conv);
      ParsesMember(ms[0], text, it + 1, rest, name, acc, conv);
      ParsesMoreMembers(ms[1..], text, it + 1 + |RenderMember(ms[0])|, key, next, conv);
    }
  }

  // ---------------------------------------------------------------- documents

  lemma {:induction false} SkipsToBracket(text: string, it: nat, pad: string, open: char, conv: Converter)
    requires AllSpace(pad) && it <= |text| && HasPrefix(text, it, pad)
    requires open == '{' || open == '['
    ensures it + |pad| <= |text|
    ensures ParseDocument(text, it, open, conv) == ParseDocument(text, it + |pad|, open, conv)
    decreases |pad|
  {
    hide HasPrefix, ParseLoop;
    if pad != [] {
      PrefixHead(text, it, pad);
      SkipsToBracket(text, it + 1, pad[1..], open, conv);
    }
  }

  /** Every well-formed container with any white space before it and any text behind it. */
  lemma ParsesDocument(pad: string, s: Syntax, rest: string, conv: Converter)
    requires AllSpace(pad) && WellFormed(s) && (s.Array? || s.Object?)
    ensures ParseDocument(pad + Render(s) + rest, 0, OpenBracket(s), conv)
         == At(|pad| + |Render(s)|, Denote(s, conv))
  {
    var text := pad + Render(s) + rest;
    assert HasPrefix(text, 0, text);
    hide HasPrefix, ParseLoop, Render, Denote;
    PrefixSplit3(text, 0, pad, Render(s), rest);
    SkipsToBracket(text, 0, pad, OpenBracket(s), conv);
    ParsesContainer(s, text, |pad|, conv);
  }
}
