/** The JSON document model of stream-api: the variant held by a `value`, and the key order in
    which a `std::map` is walked. A `char` stands for one byte of a `std::string`. */
module JsonValue {

  /** The alternatives of the variant; reals are not part of this model. */
  datatype Value =
    | Null
    | Int(n: int)
    | Bool(b: bool)
    | Str(s: string)
    | Obj(fields: map<string, Value>)
    | Arr(items: seq<Value>)

  const INT_MIN := -0x8000_0000
  const INT_MAX := 0x7FFF_FFFF

  predicate IsInt32(n: int) {
    INT_MIN <= n <= INT_MAX
  }

  predicate IsContainer(v: Value) {
    v.Obj? || v.Arr?
  }

  /** Every integer of the document fits the 32 bits that `atoi` reads back. */
  predicate InFragment(v: Value) {
    match v
    case Int(n) => IsInt32(n)
    case Obj(m) => forall k | k in m :: InFragment(m[k])
    case Arr(a) => forall i | 0 <= i < |a| :: InFragment(a[i])
    case _ => true
  }

  /** The order of `std::less<std::string>`. */
  predicate KeyLeq(a: string, b: string) {
    a == [] || (b != [] && (a[0] < b[0] || (a[0] == b[0] && KeyLeq(a[1..], b[1..]))))
  }

  /** `b` comes after `a`: it goes on where `a` ends, or has the greater byte where they first differ. */
  predicate ComesAfter(b: string, a: string) {
    || (|a| < |b| && b[..|a|] == a)
    || exists i | 0 <= i < |a| && i < |b| :: a[..i] == b[..i] && a[i] < b[i]
  }

  /** The order by bytes is the usual lexicographic one. */
  lemma {:induction false} KeyLeqIff(a: string, b: string)
    ensures KeyLeq(a, b) <==> a == b || ComesAfter(b, a)
  {
    if a != [] && b != [] {
      KeyLeqIff(a[1..], b[1..]);
      assert a == [a[0]] + a[1..] && b == [b[0]] + b[1..];
      if a[0] == b[0] {
        SameHead(a, b);
      } else if a[0] < b[0] {
        assert a[..0] == b[..0];
      } else {
        forall i | 0 < i < |a| && i < |b| ensures a[..i] != b[..i] {
          assert a[..i][0] == a[0] && b[..i][0] == b[0];
        }
        assert |a| <= |b| ==> b[..|a|][0] == b[0];
      }
    }
  }

  lemma SameHead(a: string, b: string)
    requires a != [] && b != [] && a[0] == b[0]
    ensures ComesAfter(b[1..], a[1..]) <==> ComesAfter(b, a)
  {
    var c, d := a[1..], b[1..];
    forall i | 0 <= i < |c| && i < |d| ensures c[..i] == d[..i] <==> a[..i + 1] == b[..i + 1] {
      assert a[..i + 1] == [a[0]] + c[..i] && b[..i + 1] == [b[0]] + d[..i];
    }
    if |a| < |b| {
      assert b[..|a|] == [b[0]] + d[..|c|] && a == [a[0]] + c;
    }
    if i :| 0 <= i < |c| && i < |d| && c[..i] == d[..i] && c[i] < d[i] {
      assert a[..i + 1] == b[..i + 1] && a[i + 1] < b[i + 1];
    }
    if i :| 0 <= i < |a| && i < |b| && a[..i] == b[..i] && a[i] < b[i] {
      assert c[..i - 1] == d[..i - 1] && c[i - 1] < d[i - 1];
    }
  }

  lemma {:induction false} KeyLeqTotal(a: string, b: string)
    ensures KeyLeq(a, b) || KeyLeq(b, a)
  {
    if a != [] && b != [] && a[0] == b[0] {
      KeyLeqTotal(a[1..], b[1..]);
    }
  }

  lemma {:induction false} KeyLeqAntisymmetric(a: string, b: string)
    requires KeyLeq(a, b) && KeyLeq(b, a)
    ensures a == b
  {
    if a != [] && b != [] {
      KeyLeqAntisymmetric(a[1..], b[1..]);
      assert a == [a[0]] + a[1..] && b == [b[0]] + b[1..];
    }
  }

  lemma {:induction false} KeyLeqTransitive(a: string, b: string, c: string)
    requires KeyLeq(a, b) && KeyLeq(b, c)
    ensures KeyLeq(a, c)
  {
    if a != [] && a[0] == b[0] == c[0] {
      KeyLeqTransitive(a[1..], b[1..], c[1..]);
    }
  }

  predicate IsLeastKey(k: string, keys: set<string>) {
    k in keys && forall x | x in keys :: KeyLeq(k, x)
  }

  lemma {:induction false} LeastKeyExists(keys: set<string>)
    requires keys != {}
    ensures exists k :: IsLeastKey(k, keys)
    decreases keys
  {
    var any :| any in keys;
    var rest := keys - {any};
    KeyLeqTotal(any, any);
    if rest == {} {
      assert keys == {any};
      assert IsLeastKey(any, keys);
    } else {
      LeastKeyExists(rest);
      var least :| IsLeastKey(least, rest);
      KeyLeqTotal(any, least);
      var k := if KeyLeq(any, least) then any else least;
      forall x | x in keys ensures KeyLeq(k, x) {
        if x != any {
          assert KeyLeq(least, x);
          KeyLeqTransitive(k, least, x);
        }
      }
      assert IsLeastKey(k, keys);
    }
  }

  /** The keys of a `std::map` in iteration order. */
  function SortedKeys(keys: set<string>): (r: seq<string>)
    ensures forall k :: k in r <==> k in keys
    ensures forall i, j :: 0 <= i < j < |r| ==> r[i] != r[j] && ComesAfter(r[j], r[i])
    decreases keys
  {
    if keys == {} then []
    else
      LeastKeyExists(keys);
      LeastKeyIsUnique(keys);
      var k :| IsLeastKey(k, keys);
      var rest := SortedKeys(keys - {k});
      LeastComesFirst(k, keys);
      [k] + rest
  }

  lemma LeastComesFirst(k: string, keys: set<string>)
    requires IsLeastKey(k, keys)
    ensures forall x | x in keys && x != k :: ComesAfter(x, k)
  {
    forall x | x in keys && x != k ensures ComesAfter(x, k) {
      KeyLeqIff(k, x);
    }
  }

  lemma LeastKeyIsUnique(keys: set<string>)
    ensures forall k, l | IsLeastKey(k, keys) && IsLeastKey(l, keys) :: k == l
  {
    forall k, l | IsLeastKey(k, keys) && IsLeastKey(l, keys)
      ensures k == l
    {
      KeyLeqAntisymmetric(k, l);
    }
  }
}
