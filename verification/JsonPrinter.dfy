/** The printer of stream-api: `escape` and the stream operators behind `save`. */
module JsonPrinter {
  import opened JsonValue

  const BACKSPACE := '\U{0008}'
  const FORM_FEED := '\U{000C}'

  /** The two-character replacement of a character that `escape` rewrites, or the character itself. */
  function EscapeChar(c: char): string {
    if c == '\"' then "\\\""
    else if c == '\\' then "\\\\"
    else if c == BACKSPACE then "\\b"
    else if c == FORM_FEED then "\\f"
    else if c == '\n' then "\\n"
    else if c == '\r' then "\\r"
    else if c == '\t' then "\\t"
    else [c]
  }

  function Escape(s: string): string {
    if s == [] then [] else EscapeChar(s[0]) + Escape(s[1..])
  }

  lemma {:induction false} EscapeConcat(a: string, b: string)
    ensures Escape(a + b) == Escape(a) + Escape(b)
  {
    hide EscapeChar;
    if a == [] {
      assert a + b == b;
    } else {
      EscapeConcat(a[1..], b);
      assert (a + b)[0] == a[0] && (a + b)[1..] == a[1..] + b;
    }
  }

  /** `escape`: the string is rewritten in place and the index steps over each replacement. */
  method EscapeInPlace(s: string) returns (str: string)
    ensures str == Escape(s)
  {
    str := s;
    var i := 0;
    ghost var done := 0;
    while i < |str|
      invariant 0 <= done <= |s| && i <= |str|
      invariant str[..i] == Escape(s[..done]) && str[i..] == s[done..]
      decreases |s| - done
    {
      var c := str[i];
      assert c == s[done];
      EscapeConcat(s[..done], [c]);
      assert s[..done + 1] == s[..done] + [c];
      assert Escape([c]) == EscapeChar(c) by {
        assert [c][1..] == "";
      }
      assert s[done..][1..] == s[done + 1..];
      if EscapeChar(c) != [c] {
        str := str[..i] + EscapeChar(c) + str[i + 1..];
        i := i + 1;
      }
      i := i + 1;
      done := done + 1;
    }
    assert s[..done] == s;
    assert str[..i] == str;
  }

  function Digits(n: nat): (r: string)
    ensures r != []
  {
    (if n < 10 then [] else Digits(n / 10)) + [('0' as int + n % 10) as char]
  }

  function PrintInt(n: int): string {
    if n < 0 then "-" + Digits(-n) else Digits(n)
  }

  /** What `stream << value` appends. */
  function Save(v: Value): string
    decreases v, 1, 0
  {
    match v
    case Null => "null"
    case Int(n) => PrintInt(n)
    case Bool(b) => if b then "true" else "false"
    case Str(s) => "\"" + Escape(s) + "\""
    case Obj(m) => "{" + SaveFields(v, SortedKeys(m.Keys)) + "}"
    case Arr(a) => "[" + SaveItems(a) + "]"
  }

  function SaveItems(items: seq<Value>): string
    decreases items, 0, 0
  {
    if items == [] then "" else Save(items[0]) + SaveMoreItems(items[1..])
  }

  function SaveMoreItems(items: seq<Value>): string
    decreases items, 0, 0
  {
    if items == [] then "" else "," + Save(items[0]) + SaveMoreItems(items[1..])
  }

  function SaveField(v: Value, key: string): string
    requires v.Obj? && key in v.fields
    decreases v, 0, 0
  {
    "\"" + Escape(key) + "\":" + Save(v.fields[key])
  }

  function SaveFields(v: Value, keys: seq<string>): string
    requires v.Obj? && forall k | k in keys :: k in v.fields
    decreases v, 0, |keys| + 1
  {
    if keys == [] then "" else SaveField(v, keys[0]) + SaveMoreFields(v, keys[1..])
  }

  function SaveMoreFields(v: Value, keys: seq<string>): string
    requires v.Obj? && forall k | k in keys :: k in v.fields
    decreases v, 0, |keys| + 1
  {
    if keys == [] then "" else "," + SaveField(v, keys[0]) + SaveMoreFields(v, keys[1..])
  }

  /** The stream operator of `value`. */
  method Print(v: Value, stream: string) returns (out: string)
    ensures out == stream + Save(v)
    decreases v, 3
  {
    match v
    case Null => out := stream + "null";
    case Int(n) => out := stream + PrintInt(n);
    case Bool(b) => out := stream + if b then "true" else "false";
    case Str(s) =>
      var e := EscapeInPlace(s);
      out := stream + "\"" + e + "\"";
    case Arr(a) => out := PrintArray(v, stream);
    case Obj(m) => out := PrintMap(v, stream);
  }

  lemma FirstItem(out: string, items: seq<Value>)
    requires items != []
    ensures out + SaveItems(items) == out + Save(items[0]) + SaveMoreItems(items[1..])
  {
  }

  lemma NextItem(out: string, items: seq<Value>)
    requires items != []
    ensures out + SaveMoreItems(items) == out + "," + Save(items[0]) + SaveMoreItems(items[1..])
  {
  }

  lemma FirstField(out: string, v: Value, keys: seq<string>)
    requires keys != [] && v.Obj? && forall k | k in keys :: k in v.fields
    ensures out + SaveFields(v, keys) == out + SaveField(v, keys[0]) + SaveMoreFields(v, keys[1..])
  {
  }

  lemma NextField(out: string, v: Value, keys: seq<string>)
    requires keys != [] && v.Obj? && forall k | k in keys :: k in v.fields
    ensures out + SaveMoreFields(v, keys) == out + "," + SaveField(v, keys[0]) + SaveMoreFields(v, keys[1..])
  {
  }

  /** The stream operator of `array_t`; the loop is that of `streamjoin`. */
  method PrintArray(v: Value, stream: string) returns (out: string)
    requires v.Arr?
    ensures out == stream + Save(v)
    decreases v, 1
  {
    var a := v.items;
    out := stream + "[";
    ghost var total := out + SaveItems(a);
    assert total + "]" == stream + Save(v);
    if a != [] {
      FirstItem(out, a);
      out := Print(a[0], out);
      var begin := 1;
      while begin != |a|
        invariant 1 <= begin <= |a|
        invariant out + SaveMoreItems(a[begin..]) == total
        decreases |a| - begin
      {
        NextItem(out, a[begin..]);
        assert a[begin..][1..] == a[begin + 1..];
        out := Print(a[begin], out + ",");
        begin := begin + 1;
      }
    }
    assert out == total;
    out := out + "]";
  }

  /** The stream operator of `map_t`: the same loop over the fields in key order. */
  method PrintMap(v: Value, stream: string) returns (out: string)
    requires v.Obj?
    ensures out == stream + Save(v)
    decreases v, 2
  {
    out := PrintFields(v, SortedKeys(v.fields.Keys), stream + "{");
    out := out + "}";
  }

  method PrintFields(v: Value, keys: seq<string>, stream: string) returns (out: string)
    requires v.Obj? && forall k | k in keys :: k in v.fields
    ensures out == stream + SaveFields(v, keys)
    decreases v, 1
  {
    out := stream;
    ghost var total := out + SaveFields(v, keys);
    if keys != [] {
      FirstField(out, v, keys);
      out := PrintField(v, keys[0], out);
      var begin := 1;
      while begin != |keys|
        invariant 1 <= begin <= |keys|
        invariant out + SaveMoreFields(v, keys[begin..]) == total
        decreases |keys| - begin
      {
        NextField(out, v, keys[begin..]);
        assert keys[begin..][1..] == keys[begin + 1..];
        out := PrintField(v, keys[begin], out + ",");
        begin := begin + 1;
      }
    }
  }

  method PrintField(v: Value, key: string, stream: string) returns (out: string)
    requires v.Obj? && key in v.fields
    ensures out == stream + SaveField(v, key)
    decreases v, 0
  {
    var e := EscapeInPlace(key);
    out := Print(v.fields[key], stream + "\"" + e + "\":");
  }
}
