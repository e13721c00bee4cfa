/** Printing and parsing undo each other. */
module JsonRoundTrip {
  import opened JsonValue
  import opened JsonPrinter
  import opened JsonParser
  import opened JsonGrammar
  import opened JsonDenotation

  // ---------------------------------------------------------------- the printed syntax

  /** The letter `escape` writes behind the backslash, when it rewrites the character. */
  function EscapeLetter(c: char): char
    requires EscapeChar(c) != [c]
  {
    EscapeChar(c)[1]
  }

  function CanonicalChars(s: string): seq<Char> {
    if s == [] then []
    else [if EscapeChar(s[0]) == [s[0]] then Raw(s[0]) else Escaped(EscapeLetter(s[0]))] + CanonicalChars(s[1..])
  }

  /** The syntax tree, without white space, of the text that `Save` prints. */
  function Canonical(v: Value): Syntax
    decreases v, 1, 0
  {
    match v
    case Null => NullLit
    case Int(n) => if n < 0 then Number(true, Digits(-n)) else Number(false, Digits(n))
    case Bool(b) => if b then TrueLit else FalseLit
    case Str(s) => Text(CanonicalChars(s))
    case Obj(m) => Object("", CanonicalMembers(v, SortedKeys(m.Keys)))
    case Arr(a) => Array("", CanonicalElements(a))
  }

  function CanonicalElements(items: seq<Value>): (r: seq<Element>)
    ensures |r| == |items|
    decreases items, 0, 0
  {
    if items == [] then [] else [Element("", Canonical(items[0]), "")] + CanonicalElements(items[1..])
  }

  function CanonicalMembers(v: Value, keys: seq<string>): (r: seq<Member>)
    requires v.Obj? && forall k | k in keys :: k in v.fields
    ensures |r| == |keys|
    decreases v, 0, |keys|
  {
    if keys == [] then []
    else
      [Member("", CanonicalChars(keys[0]), "", "", Canonical(v.fields[keys[0]]), "")]
      + CanonicalMembers(v, keys[1..])
  }

  // ---------------------------------------------------------------- its text is what is printed

  lemma {:induction false} CharsAreEscape(s: string)
    ensures RenderChars(CanonicalChars(s)) == Escape(s)
  {
    if s != [] {
      CharsAreEscape(s[1..]);
    }
  }

  lemma {:induction false} SaveRenders(v: Value)
    ensures Save(v) == Render(Canonical(v))
    decreases v, 1, 0
  {
    match v
    case Str(s) => CharsAreEscape(s);
    case Arr(a) =>
      if a != [] {
        SaveRenders(a[0]);
        MoreItemsRender(a[1..]);
        assert CanonicalElements(a)[1..] == CanonicalElements(a[1..]);
        assert RenderElement(CanonicalElements(a)[0]) == Save(a[0]);
      }
    case Obj(m) =>
      var keys := SortedKeys(m.Keys);
      if keys != [] {
        FieldRenders(v, keys[0]);
        MoreFieldsRender(v, keys[1..]);
        assert CanonicalMembers(v, keys)[1..] == CanonicalMembers(v, keys[1..]);
      }
    case _ =>
  }

  lemma {:induction false} MoreItemsRender(items: seq<Value>)
    ensures SaveMoreItems(items) == RenderMoreElements(CanonicalElements(items))
    decreases items, 0, 0
  {
    if items != [] {
      SaveRenders(items[0]);
      MoreItemsRender(items[1..]);
      assert CanonicalElements(items)[1..] == CanonicalElements(items[1..]);
      assert RenderElement(CanonicalElements(items)[0]) == Save(items[0]);
    }
  }

  function CanonicalMember(v: Value, key: string): Member
    requires v.Obj? && key in v.fields
  {
    Member("", CanonicalChars(key), "", "", Canonical(v.fields[key]), "")
  }

  lemma {:induction false} FieldRenders(v: Value, key: string)
    requires v.Obj? && key in v.fields
    ensures SaveField(v, key) == RenderMember(CanonicalMember(v, key))
    decreases v, 0, 0
  {
    CharsAreEscape(key);
    SaveRenders(v.fields[key]);
  }

  lemma {:induction false} MoreFieldsRender(v: Value, keys: seq<string>)
    requires v.Obj? && forall k | k in keys :: k in v.fields
    ensures SaveMoreFields(v, keys) == RenderMoreMembers(CanonicalMembers(v, keys))
    decreases v, 0, |keys| + 1
  {
    if keys != [] {
      FieldRenders(v, keys[0]);
      MoreFieldsRender(v, keys[1..]);
      assert CanonicalMembers(v, keys)[1..] == CanonicalMembers(v, keys[1..]);
    }
  }

  // ---------------------------------------------------------------- its meaning is the document

  lemma {:induction false} DigitsAreDecimal(n: nat)
    ensures AllDigits(Digits(n)) && Decimal(Digits(n)) == n
  {
    var last := ('0' as int + n % 10) as char;
    if n >= 10 {
      DigitsAreDecimal(n / 10);
      DecimalAppend(Digits(n / 10), last);
    } else {
      DecimalAppend("", last);
      assert Digits(n) == "" + [last];
    }
  }

  lemma {:induction false} CharsDenote(s: string, conv: Converter)
    ensures CharsWellFormed(CanonicalChars(s)) && DenoteChars(CanonicalChars(s), conv) == s
  {
    if s != [] {
      CharsDenote(s[1..], conv);
      assert CanonicalChars(s)[1..] == CanonicalChars(s[1..]);
      assert s == [s[0]] + s[1..];
    }
  }

  lemma {:induction false} CanonicalDenotes(v: Value, conv: Converter)
    requires InFragment(v)
    ensures WellFormed(Canonical(v)) && Denote(Canonical(v), conv) == v
    decreases v, 2, 0
  {
    match v
    case Int(n) => IntDenotes(n, conv);
    case Str(s) => CharsDenote(s, conv);
    case Arr(_) =>
      hide WellFormed, Denote, Canonical;
      ArrDenotes(v, conv);
    case Obj(_) =>
      hide WellFormed, Denote, Canonical;
      ObjDenotes(v, conv);
    case _ =>
  }

  lemma IntDenotes(n: int, conv: Converter)
    requires InFragment(Int(n))
    ensures WellFormed(Canonical(Int(n))) && Denote(Canonical(Int(n)), conv) == Int(n)
  {
    DigitsAreDecimal(if n < 0 then -n else n);
  }

  lemma {:induction false} ArrDenotes(v: Value, conv: Converter)
    requires v.Arr? && InFragment(v)
    ensures WellFormed(Canonical(v)) && Denote(Canonical(v), conv) == v
    decreases v, 1, 0
  {
    ElementsDenote(v.items, conv);
    hide DenoteElements, ElementsWellFormed, CanonicalElements, InFragment;
  }

  lemma {:induction false} ObjDenotes(v: Value, conv: Converter)
    requires v.Obj? && InFragment(v)
    ensures WellFormed(Canonical(v)) && Denote(Canonical(v), conv) == v
    decreases v, 1, 0
  {
    var keys := SortedKeys(v.fields.Keys);
    MembersDenote(v, keys, map[], conv);
    AllFields(v);
    hide DenoteMembers, MembersWellFormed, CanonicalMembers, Fields, SortedKeys, InFragment;
    var ms := CanonicalMembers(v, keys);
    assert Canonical(v) == Object("", ms);
    assert WellFormed(Object("", ms));
    assert Denote(Object("", ms), conv) == Obj(DenoteMembers(ms, map[], conv));
  }

  lemma {:induction false} ElementsDenote(items: seq<Value>, conv: Converter)
    requires forall i | 0 <= i < |items| :: InFragment(items[i])
    ensures ElementsWellFormed(CanonicalElements(items))
    ensures DenoteElements(CanonicalElements(items), conv) == items
    decreases items, 0, 0
  {
    if items != [] {
      CanonicalDenotes(items[0], conv);
      ElementsDenote(items[1..], conv);
      assert CanonicalElements(items)[1..] == CanonicalElements(items[1..]);
    }
  }

  /** The fields under some of the keys. */
  function Fields(v: Value, keys: seq<string>): map<string, Value>
    requires v.Obj? && forall k | k in keys :: k in v.fields
  {
    map k | k in keys :: v.fields[k]
  }

  lemma AllFields(v: Value)
    requires v.Obj?
    ensures map[] + Fields(v, SortedKeys(v.fields.Keys)) == v.fields
  {
    assert Fields(v, SortedKeys(v.fields.Keys)).Keys == v.fields.Keys;
  }

  lemma FieldsStep(v: Value, keys: seq<string>, acc: map<string, Value>)
    requires v.Obj? && keys != [] && forall k | k in keys :: k in v.fields
    ensures acc[keys[0] := v.fields[keys[0]]] + Fields(v, keys[1..]) == acc + Fields(v, keys)
  {
  }

  lemma {:induction false} MembersDenote(v: Value, keys: seq<string>, acc: map<string, Value>, conv: Converter)
    requires v.Obj? && InFragment(v) && forall k | k in keys :: k in v.fields
    ensures MembersWellFormed(CanonicalMembers(v, keys))
    ensures DenoteMembers(CanonicalMembers(v, keys), acc, conv) == acc + Fields(v, keys)
    decreases v, 0, |keys|
  {
    if keys == [] {
      assert acc + Fields(v, keys) == acc;
    } else {
      var key, rest := keys[0], keys[1..];
      var next := acc[key := v.fields[key]];
      CharsDenote(key, conv);
      CanonicalDenotes(v.fields[key], conv);
      MembersDenote(v, rest, next, conv);
      FieldsStep(v, keys, acc);
      hide Canonical, CanonicalChars, Fields, InFragment, WellFormed, Denote, DenoteChars, CharsWellFormed;
      var ms := CanonicalMembers(v, keys);
      assert ms[1..] == CanonicalMembers(v, rest);
      assert MembersWellFormed(ms);
      assert DenoteMembers(ms, acc, conv) == DenoteMembers(ms[1..], next, conv);
    }
  }

  // ---------------------------------------------------------------- the round trip

  function Bracket(v: Value): char
    requires IsContainer(v)
  {
    if v.Obj? then '{' else '['
  }

  /** `parse(save(v)) == v`, with the iterator at the end of the text. */
  lemma RoundTrip(v: Value, conv: Converter)
    requires IsContainer(v) && InFragment(v)
    ensures ParseDocument(Save(v), 0, Bracket(v), conv) == At(|Save(v)|, v)
  {
    hide Save, Render, Denote, ParseDocument, WellFormed, InFragment;
    SaveRenders(v);
    CanonicalDenotes(v, conv);
    ParsesDocument("", Canonical(v), "", conv);
    assert "" + Save(v) + "" == Save(v);
  }

  /** No two documents print alike. */
  lemma SaveIsInjective(v: Value, w: Value)
    requires IsContainer(v) && IsContainer(w) && InFragment(v) && InFragment(w)
    requires Save(v) == Save(w)
    ensures v == w
  {
    var conv := (units: seq<int>) => "";
    RoundTrip(v, conv);
    RoundTrip(w, conv);
    assert Save(v)[0] == Bracket(v) && Save(w)[0] == Bracket(w);
  }
}
