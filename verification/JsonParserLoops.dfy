/** The parser in the form of the source: loops that advance the iterator and fill the container in
    place, recursing on nested containers. Each computes the function of the same name in `JsonParser`. */
module JsonParserLoops {
  import opened JsonValue
  import opened JsonParser

  lemma PrependPrepend(a: string, b: string, r: Read<string>)
    ensures Prepend(a, Prepend(b, r)) == Prepend(a + b, r)
  {
    if r.At? {
      assert a + (b + r.value) == a + b + r.value;
    }
  }

  lemma PrependNothing(r: Read<string>)
    ensures Prepend("", r) == r
    ensures r.At? && r.value == "" ==> forall s :: Prepend(s, r) == At(r.it, s)
  {
    if r.At? {
      assert "" + r.value == r.value;
      if r.value == "" {
        forall s ensures Prepend(s, r) == At(r.it, s) {
          assert s + "" == s;
        }
      }
    }
  }

  function PrependUnits(units: seq<int>, r: Read<seq<int>>): Read<seq<int>> {
    match r
    case Undefined => Undefined
    case At(it, more) => At(it, units + more)
  }

  /** The loop of `utf16_to_8`. */
  method GatherUnitsLoop(text: string, start: nat) returns (r: Read<seq<int>>)
    requires start <= |text|
    ensures r == GatherUnits(text, start)
  {
    var it, u16 := start, [];
    ghost var whole := GatherUnits(text, start);
    assert whole.At? ==> [] + whole.value == whole.value;
    while AtUnit(text, it)
      invariant start <= it <= |text|
      invariant PrependUnits(u16, GatherUnits(text, it)) == GatherUnits(text, start)
      decreases |text| - it
    {
      if !HasHexQuad(text, it + 2) {
        return Undefined;
      }
      ghost var before := u16;
      u16 := u16 + [HexQuad(text, it + 2)];
      ghost var rest := GatherUnits(text, it + 6);
      assert rest.At? ==> before + ([HexQuad(text, it + 2)] + rest.value) == u16 + rest.value;
      it := it + 6;
    }
    assert u16 + [] == u16;
    r := At(it, u16);
  }

  /** The loop over a key or a string value, entered behind the opening quote. */
  method ReadStringLoop(text: string, start: nat, conv: Converter) returns (r: Read<string>)
    requires start <= |text|
    ensures r == ReadString(text, start, conv)
  {
    var it, value := start, "";
    PrependNothing(ReadString(text, start, conv));
    while Peek(text, it) != '\"'
      invariant start <= it <= |text|
      invariant Prepend(value, ReadString(text, it, conv)) == ReadString(text, start, conv)
      decreases |text| - it
    {
      if it == |text| {
        return Undefined;
      }
      ghost var before := value;
      if text[it] == '\\' {
        if Peek(text, it + 1) != 'u' {
          it := it + 1;
          if it == |text| {
            return Undefined;
          }
          value := value + [Unescaped(text[it])];
          PrependPrepend(before, [Unescaped(text[it])], ReadString(text, it + 1, conv));
        } else {
          var run := GatherUnitsLoop(text, it);
          if run.Undefined? {
            return Undefined;
          }
          value := value + conv(run.value);
          PrependPrepend(before, conv(run.value), ReadString(text, run.it, conv));
          it := run.it - 1;
        }
      } else {
        value := value + [text[it]];
        PrependPrepend(before, [text[it]], ReadString(text, it + 1, conv));
      }
      it := it + 1;
    }
    PrependNothing(ReadString(text, it, conv));
    r := At(it, value);
  }

  method ReadNumberLoop(text: string, start: nat) returns (r: Read<Value>)
    requires start < |text| && IsNumberStart(text[start])
    ensures r == ReadNumber(text, start)
  {
    var isInt := start;
    while Peek(text, isInt) == '-' || IsDigit(Peek(text, isInt))
      invariant start <= isInt <= |text| && SkipInt(text, isInt) == SkipInt(text, start)
      decreases |text| - isInt
    {
      isInt := isInt + 1;
    }
    var stop := Peek(text, isInt);
    if stop == '.' || stop == 'e' || stop == 'E' || !IsInt32(Atoi(text, start)) {
      return Undefined;
    }
    var it := start;
    while Peek(text, it) == '-' || Peek(text, it) == '.' || IsDigit(Peek(text, it))
      invariant start <= it <= |text| && SkipNumber(text, it) == SkipNumber(text, start)
      decreases |text| - it
    {
      it := it + 1;
    }
    r := At(it, Int(Atoi(text, start)));
  }

  method ReadLiteralLoop(text: string, start: nat) returns (r: Read<Value>)
    requires start <= |text|
    ensures r == ReadLiteral(text, start)
  {
    var it := start;
    while !IsDelimiter(Peek(text, it))
      invariant start <= it <= |text| && SkipLiteral(text, it) == SkipLiteral(text, start)
      decreases |text| - it
    {
      if it == |text| {
        return Undefined;
      }
      it := it + 1;
    }
    r := At(it, LiteralAt(text, start));
  }

  /** `get_map` and `get_array`: the container that was just stored. */
  function Last(container: Value, name: string): Value
    requires IsContainer(container)
    requires if container.Obj? then name in container.fields else container.items != []
  {
    if container.Obj? then container.fields[name] else container.items[|container.items| - 1]
  }

  /** Filling the container behind that reference. */
  function SetLast(container: Value, name: string, v: Value): Value
    requires IsContainer(container)
    requires if container.Obj? then name in container.fields else container.items != []
  {
    if container.Obj? then Obj(container.fields[name := v])
    else Arr(container.items[|container.items| - 1 := v])
  }

  /** Storing an empty container and filling it in place stores the filled container. */
  lemma FilledInPlace(container: Value, name: string, empty: Value, filled: Value)
    requires IsContainer(container)
    ensures Last(PushBack(container, name, empty), name) == empty
    ensures SetLast(PushBack(container, name, empty), name, filled) == PushBack(container, name, filled)
  {
    if container.Obj? {
      assert container.fields[name := empty][name := filled] == container.fields[name := filled];
    } else {
      var items := container.items + [empty];
      assert items[|items| - 1 := filled] == container.items + [filled];
    }
  }

  /** `parse(container, it)` */
  method Parse(text: string, start: nat, into: Value, conv: Converter) returns (r: Read<Value>)
    requires start <= |text| && IsContainer(into)
    ensures r == ParseLoop(text, start, NextState(into), "", into, conv)
    decreases |text| - start
  {
    hide ReadString, ReadNumber, ReadLiteral;
    var it, container, name, state := start, into, "", NextState(into);
    while Peek(text, it) != '\0'
      invariant start <= it <= |text| && IsContainer(container)
      invariant ParseLoop(text, it, state, name, container, conv)
             == ParseLoop(text, start, NextState(into), "", into, conv)
      decreases |text| - it
    {
      var c := text[it];
      if c == '{' || c == '[' {
        it := it + 1;
        ghost var outer, before := container, state;
        container := PushBack(container, name, EmptyContainer(c));
        var nested := Parse(text, it, Last(container, name), conv);
        if nested.Undefined? {
          return Undefined;
        }
        FilledInPlace(outer, name, EmptyContainer(c), nested.value);
        container := SetLast(container, name, nested.value);
        state := NextState(container);
        assert ParseLoop(text, it - 1, before, name, outer, conv)
          == ParseLoop(text, nested.it, state, name, container, conv);
        it := nested.it;
      } else if c == '}' || c == ']' {
        return At(it + 1, container);
      } else if c == '\"' {
        var s := ReadStringLoop(text, it + 1, conv);
        if s.Undefined? {
          return Undefined;
        }
        if state == ParseValue {
          container := PushBack(container, name, Str(s.value));
          state := NextState(container);
        } else {
          name := s.value;
          state := ParseValue;
        }
        it := s.it + 1;
      } else if IsNumberStart(c) {
        var n := ReadNumberLoop(text, it);
        if n.Undefined? {
          return Undefined;
        }
        container := PushBack(container, name, n.value);
        state := NextState(container);
        it := n.it;
      } else if IsLiteralStart(c) {
        var l := ReadLiteralLoop(text, it);
        if l.Undefined? {
          return Undefined;
        }
        container := PushBack(container, name, l.value);
        state := NextState(container);
        it := l.it;
      } else {
        it := it + 1;
      }
    }
    r := At(it, container);
  }

  /** `parse` of a whole text. */
  method ParseText(text: string, open: char, conv: Converter) returns (r: Read<Value>)
    ensures r == ParseDocument(text, 0, open, conv)
  {
    var it := 0;
    while Peek(text, it) != '\0'
      invariant it <= |text| && ParseDocument(text, it, open, conv) == ParseDocument(text, 0, open, conv)
      decreases |text| - it
    {
      if text[it] == open {
        r := Parse(text, it + 1, EmptyContainer(open), conv);
        return;
      }
      it := it + 1;
    }
    r := At(it, EmptyContainer(open));
  }
}
