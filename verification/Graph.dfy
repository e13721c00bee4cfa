/** The graph of an environment: vertices kept sorted in a vector, each with a sorted vector of the
    vertices it is linked to. A vertex is looked up by position. */
module Graph {
  import opened Options

  datatype Node = Node(id: nat, links: seq<nat>) {
    /** `node::add`. */
    function Add(b: nat): (n: Node)
      requires Increasing(links)
      ensures n.id == id && (b in links ==> n == this)
    {
      if b in links then this else Node(id, InsertAt(links, UpperBound(links, b), b))
    }

    lemma AddIsUnion(b: nat)
      requires Increasing(links)
      ensures Increasing(Add(b).links) && forall y :: y in Add(b).links <==> y in links || y == b
    {
      if b !in links {
        InsertedIsIncreasing(links, b);
        forall y ensures y in Add(b).links <==> y in links || y == b {
          InsertKeepsMembers(links, UpperBound(links, b), b, y);
        }
      }
    }
  }

  predicate Increasing(s: seq<nat>) {
    forall i, j | 0 <= i < j < |s| :: s[i] < s[j]
  }

  lemma IncreasingIsInjective(s: seq<nat>, i: nat, j: nat)
    requires Increasing(s) && i < |s| && j < |s| && s[i] == s[j]
    ensures i == j
  {
  }

  /** `std::upper_bound`: the place of the first element above `id`. */
  function UpperBound(s: seq<nat>, id: nat): (r: nat)
    requires Increasing(s)
    ensures r <= |s|
    ensures forall k | 0 <= k < r :: s[k] <= id
    ensures forall k | r <= k < |s| :: s[k] > id
  {
    if s == [] || s[|s| - 1] <= id then |s| else UpperBound(s[..|s| - 1], id)
  }

  /** `std::lower_bound`: the place of the first element not below `id`. */
  function LowerBound(s: seq<nat>, id: nat): (r: nat)
    requires Increasing(s)
    ensures r <= |s|
    ensures forall k | 0 <= k < r :: s[k] < id
    ensures forall k | r <= k < |s| :: s[k] >= id
  {
    if s == [] || s[|s| - 1] < id then |s| else LowerBound(s[..|s| - 1], id)
  }

  function InsertAt<T>(s: seq<T>, at: nat, x: T): (t: seq<T>)
    requires at <= |s|
    ensures |t| == |s| + 1 && t[at] == x
    ensures forall k | 0 <= k < at :: t[k] == s[k]
    ensures forall k | at <= k < |s| :: t[k + 1] == s[k]
    ensures forall k | at < k < |t| :: t[k] == s[k - 1]
  {
    s[..at] + [x] + s[at..]
  }

  lemma InsertKeepsMembers<T>(s: seq<T>, at: nat, x: T, y: T)
    requires at <= |s|
    ensures y in InsertAt(s, at, x) <==> y in s || y == x
  {
    var t := InsertAt(s, at, x);
    hide InsertAt;
    if y in s {
      var k :| 0 <= k < |s| && s[k] == y;
      assert y == t[if k < at then k else k + 1];
    }
    assert x == t[at];
  }

  lemma InsertedIsIncreasing(s: seq<nat>, id: nat)
    requires Increasing(s) && id !in s
    ensures Increasing(InsertAt(s, UpperBound(s, id), id))
  {
    var at := UpperBound(s, id);
    var t := InsertAt(s, at, id);
    hide InsertAt, UpperBound;
    assert forall k | 0 <= k < |s| :: s[k] in s;
    forall i, j | 0 <= i < j < |t| ensures t[i] < t[j] {
      if i < at <= j {
        assert s[i] <= id && s[i] != id;
      }
    }
  }

  function Ids(nodes: seq<Node>): (ids: seq<nat>)
    ensures |ids| == |nodes| && forall k | 0 <= k < |nodes| :: ids[k] == nodes[k].id
  {
    seq(|nodes|, k requires 0 <= k < |nodes| => nodes[k].id)
  }

  /** Sorted by id without repetition, and so are the links of each vertex. */
  predicate Sorted(nodes: seq<Node>) {
    Increasing(Ids(nodes)) && forall k | 0 <= k < |nodes| :: Increasing(nodes[k].links)
  }

  predicate Linked(nodes: seq<Node>, a: nat, b: nat) {
    exists k | 0 <= k < |nodes| :: nodes[k].id == a && b in nodes[k].links
  }

  /** Vertex `i` sits at position `i`. */
  predicate Aligned(nodes: seq<Node>) {
    forall k | 0 <= k < |nodes| :: nodes[k].id == k
  }

  /** What `lookup` needs: each vertex is found at the position of its own id. */
  predicate LookupRight(nodes: seq<Node>) {
    forall id | id in Ids(nodes) :: id < |nodes| && nodes[id].id == id
  }

  /** The ids are the first numbers. */
  predicate InitialIds(nodes: seq<Node>) {
    forall id: nat | id < |nodes| :: id in Ids(nodes)
  }

  /** Positional lookup finds every vertex if and only if the ids are the first numbers. */
  lemma LookupRightIff(nodes: seq<Node>)
    requires Sorted(nodes)
    ensures LookupRight(nodes) <==> InitialIds(nodes)
    ensures LookupRight(nodes) <==> Aligned(nodes)
  {
    var ids := Ids(nodes);
    if InitialIds(nodes) {
      InitialIsAligned(nodes, |nodes|);
    }
    if LookupRight(nodes) {
      forall k | 0 <= k < |nodes| ensures nodes[k].id == k {
        var x := ids[k];
        assert x in ids && ids[x] == x;
        IncreasingIsInjective(ids, k, x);
      }
    }
    if Aligned(nodes) {
      forall id: nat | id < |nodes| ensures id in ids {
        assert ids[id] == id;
      }
    }
  }

  lemma {:induction false} InitialIsAligned(nodes: seq<Node>, n: nat)
    requires Sorted(nodes) && n <= |nodes| && forall id: nat | id < |nodes| :: id in Ids(nodes)
    ensures forall k | 0 <= k < n :: nodes[k].id == k
  {
    var ids := Ids(nodes);
    if n > 0 {
      InitialIsAligned(nodes, n - 1);
      assert n - 1 in ids;
      var j :| 0 <= j < |ids| && ids[j] == n - 1;
      assert j >= n - 1 && ids[n - 1] <= ids[j];
      assert n > 1 ==> ids[n - 2] < ids[n - 1];
    }
  }

  lemma HasMember(s: seq<nat>)
    requires s != []
    ensures exists x :: x in s
  {
    assert s[0] in s;
  }

  /** Two listings of the same numbers in increasing order are the same. */
  lemma {:induction false} IncreasingIsUnique(s: seq<nat>, t: seq<nat>)
    requires Increasing(s) && Increasing(t) && forall x :: x in s <==> x in t
    ensures s == t
  {
    if s == [] {
      if t != [] {
        HasMember(t);
      }
    } else {
      var m, n := |s| - 1, |t| - 1;
      assert s[m] in t;
      assert t[n] in s;
      assert s[m] == t[n];
      forall x ensures x in s[..m] <==> x in t[..n] {
        assert x in s[..m] ==> x in s && x != s[m];
        assert x in t[..n] ==> x in t && x != t[n];
        assert x in s ==> x in s[..m] || x == s[m] by { assert s == s[..m] + [s[m]]; }
        assert x in t ==> x in t[..n] || x == t[n] by { assert t == t[..n] + [t[n]]; }
      }
      IncreasingIsUnique(s[..m], t[..n]);
      assert s == s[..m] + [s[m]] && t == t[..n] + [t[n]];
    }
  }

  /** The ids `a` and `b` added to the first `n` numbers give first numbers again. */
  predicate StaysInitial(n: nat, a: nat, b: nat) {
    (a <= n && b <= n) || (a == n && b == n + 1) || (a == n + 1 && b == n)
  }

  /** Linking two ids keeps positional lookup right if and only if they leave no gap; ids that were
      issued leave none. */
  lemma LinkKeepsAlignedIff(was: seq<Node>, now: seq<Node>, a: nat, b: nat)
    requires Sorted(was) && Aligned(was) && Sorted(now)
    requires forall x :: x in Ids(now) <==> x in Ids(was) || x == a || x == b
    requires |now| == |was| + (if a in Ids(was) then 0 else 1) + (if b in Ids(was) || b == a then 0 else 1)
    ensures Aligned(now) <==> StaysInitial(|was|, a, b)
    ensures a < |was| && b < |was| ==> |now| == |was|
  {
    var n := |was|;
    LookupRightIff(was);
    LookupRightIff(now);
    forall id: nat ensures id in Ids(was) <==> id < n {
      assert id in Ids(was) ==> LookupRight(was);
    }
    assert n < |now| && InitialIds(now) ==> n in Ids(now);
    assert n + 1 < |now| && InitialIds(now) ==> n + 1 in Ids(now);
  }

  /** `stored_vertex`, with the vector `ddd`. */
  class StoredVertex {
    var ddd: seq<Node>

    ghost predicate Valid()
      reads this
    {
      Sorted(ddd)
    }

    constructor ()
      ensures Valid() && ddd == []
    {
      ddd := [];
    }

    /** `add_vertex`. */
    method AddVertex(id: nat)
      requires Valid()
      modifies this
      ensures Valid()
      ensures forall x :: x in Ids(ddd) <==> x in Ids(old(ddd)) || x == id
      ensures forall x, y :: Linked(ddd, x, y) <==> Linked(old(ddd), x, y)
      ensures id in Ids(old(ddd)) ==> ddd == old(ddd)
      ensures id !in Ids(old(ddd)) ==> |ddd| == |old(ddd)| + 1
    {
      if id !in Ids(ddd) {
        VertexInserted(ddd, id, []);
        ddd := InsertAt(ddd, UpperBound(Ids(ddd), id), Node(id, []));
      }
    }

    /** `lookup`; the position is out of range for `vector::at` when there is no such vertex. */
    method Lookup(id: nat) returns (n: Option<Node>)
      ensures n == if id < |ddd| then Some(ddd[id]) else None
    {
      n := if id < |ddd| then Some(ddd[id]) else None;
    }

    /** `add_edge`: the link and both ends are there afterwards, and nothing else is new. */
    method AddEdge(a: nat, b: nat)
      requires Valid()
      modifies this
      ensures Valid()
      ensures forall x :: x in Ids(ddd) <==> x in Ids(old(ddd)) || x == a || x == b
      ensures forall x, y :: Linked(ddd, x, y) <==> Linked(old(ddd), x, y) || (x == a && y == b)
      ensures |ddd| == |old(ddd)| + (if a in Ids(old(ddd)) then 0 else 1)
                                  + (if b in Ids(old(ddd)) || b == a then 0 else 1)
    {
      if a !in Ids(ddd) {
        var n := Node(a, []);
        n.AddIsUnion(b);
        VertexInserted(ddd, a, n.Add(b).links);
        ddd := InsertAt(ddd, UpperBound(Ids(ddd), a), n.Add(b));
      } else {
        var at := LowerBound(Ids(ddd), a);
        if at != |ddd| {
          LinkAdded(ddd, at, a, b);
          ddd := ddd[at := ddd[at].Add(b)];
        }
      }
      AddVertex(b);
    }

    /** `finding_adjacency`: a copy of the links of the vertex at the place of `id`. */
    method FindingAdjacency(id: nat) returns (found: Option<seq<nat>>)
      requires Valid()
      ensures found.Some? <==> id < |ddd|
      ensures found.Some? ==> found.value == ddd[id].links && Increasing(found.value)
      ensures found.Some? && Aligned(ddd) ==> forall y :: y in found.value <==> Linked(ddd, id, y)
    {
      var n := Lookup(id);
      if n.None? {
        return None;
      }
      var tmp: seq<nat> := [];
      for i := 0 to |n.value.links|
        invariant tmp == n.value.links[..i]
      {
        tmp := tmp + [n.value.links[i]];
      }
      found := Some(tmp);
      if Aligned(ddd) {
        forall y ensures y in tmp <==> Linked(ddd, id, y) {
        }
      }
    }
  }

  lemma VertexInserted(was: seq<Node>, id: nat, links: seq<nat>)
    requires Sorted(was) && id !in Ids(was) && Increasing(links)
    ensures var now := InsertAt(was, UpperBound(Ids(was), id), Node(id, links));
            && Sorted(now)
            && (forall x :: x in Ids(now) <==> x in Ids(was) || x == id)
            && (forall x, y :: Linked(now, x, y) <==> Linked(was, x, y) || (x == id && y in links))
  {
    hide InsertAt, UpperBound, Ids, Linked;
    var at := UpperBound(Ids(was), id);
    IdsInserted(was, at, Node(id, links));
    InsertedIsIncreasing(Ids(was), id);
    forall x ensures x in Ids(InsertAt(was, at, Node(id, links))) <==> x in Ids(was) || x == id {
      InsertKeepsMembers(Ids(was), at, id, x);
    }
    forall x, y ensures Linked(InsertAt(was, at, Node(id, links)), x, y)
                   <==> Linked(was, x, y) || (x == id && y in links) {
      LinkInserted(was, at, Node(id, links), x, y);
    }
  }

  lemma IdsInserted(was: seq<Node>, at: nat, n: Node)
    requires at <= |was|
    ensures Ids(InsertAt(was, at, n)) == InsertAt(Ids(was), at, n.id)
  {
  }

  /** The vertex found by the binary search is the one with the id. */
  lemma LowerBoundFinds(s: seq<nat>, id: nat)
    requires Increasing(s) && id in s
    ensures LowerBound(s, id) < |s| && s[LowerBound(s, id)] == id
  {
    hide LowerBound;
    var at := LowerBound(s, id);
    var k :| 0 <= k < |s| && s[k] == id;
  }

  lemma LinkAdded(was: seq<Node>, at: nat, a: nat, b: nat)
    requires Sorted(was) && a in Ids(was) && at == LowerBound(Ids(was), a)
    ensures at < |was| && was[at].id == a
    ensures var now := was[at := was[at].Add(b)];
            && Sorted(now) && Ids(now) == Ids(was)
            && (forall x, y :: Linked(now, x, y) <==> Linked(was, x, y) || (x == a && y == b))
  {
    LowerBoundFinds(Ids(was), a);
    was[at].AddIsUnion(b);
    var now := was[at := was[at].Add(b)];
    assert Ids(now) == Ids(was);
    hide LowerBound, Ids, Node.Add;
    forall x, y ensures Linked(now, x, y) <==> Linked(was, x, y) || (x == a && y == b) {
      if Linked(was, x, y) {
        var k :| 0 <= k < |was| && was[k].id == x && y in was[k].links;
        assert now[k].id == x && y in now[k].links;
      }
      if x == a && y == b {
        assert now[at].id == x && y in now[at].links;
      }
    }
  }

  lemma LinkInserted(was: seq<Node>, at: nat, n: Node, x: nat, y: nat)
    requires at <= |was|
    ensures Linked(InsertAt(was, at, n), x, y) <==> Linked(was, x, y) || (x == n.id && y in n.links)
  {
    var now := InsertAt(was, at, n);
    hide InsertAt;
    if Linked(was, x, y) {
      var k :| 0 <= k < |was| && was[k].id == x && y in was[k].links;
      assert now[if k < at then k else k + 1] == was[k];
    }
    assert now[at] == n;
  }
}
