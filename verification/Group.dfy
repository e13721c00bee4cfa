/** The storage of an environment's actors, and the groups that live in it. */
module Groups {
  import opened Mailboxes
  import opened Options
  import opened Graph
  import opened Division

  /** An actor is known by its address. */
  type Address = nat

  /** `storage_space`, which all groups of an environment share. */
  class StorageSpace {
    var counter: nat
    var body: map<nat, Address>
    const registry: StoredVertex

    ghost predicate Valid()
      reads this, registry
    {
      registry.Valid() && forall id: nat :: id in body <==> id < counter
    }

    /** Only ids that were issued were linked. */
    ghost predicate Issued()
      reads this, registry
    {
      && Aligned(registry.ddd) && |registry.ddd| == counter
      && forall a: nat, b: nat :: Linked(registry.ddd, a, b) ==> b < counter
    }

    /** The ids linked from `id`. */
    ghost function Layer(id: nat): seq<nat>
      requires id < |registry.ddd|
      reads this, registry
    {
      registry.ddd[id].links
    }

    /** Since a time when there were these addresses and vertices, ids stayed issued, addresses stayed,
        and so did all layers, but for that of `changed`. */
    ghost predicate Grew(was: map<nat, Address>, vertices: seq<Node>, changed: nat)
      reads this, registry
    {
      && |vertices| <= |registry.ddd|
      && (forall id: nat | id in was :: id in body && body[id] == was[id])
      && (forall e | 0 <= e < |vertices| && e != changed :: registry.ddd[e].links == vertices[e].links)
    }

    constructor ()
      ensures Valid() && Issued() && counter == 0 && fresh(registry)
    {
      counter, body := 0, map[];
      registry := new StoredVertex();
    }

    /** `storage_space::add`: the next id, and nothing known about older ids changes. */
    method Add(t: Address) returns (index: nat)
      requires Valid()
      modifies this, registry
      ensures Valid()
      ensures index == old(counter) && counter == index + 1 && body == old(body)[index := t]
      ensures old(Issued()) ==>
                && Issued() && Layer(index) == [] && (forall e | 0 <= e < index :: Layer(e) == old(Layer(e)))
                && Grew(old(body), old(registry.ddd), index)
    {
      index := counter;
      counter := counter + 1;
      body := body[index := t];
      ghost var was := registry.ddd;
      registry.AddVertex(index);
      if old(Issued()) {
        VertexAppended(was, registry.ddd, index);
      }
    }

    /** `create_link`, with any two numbers. */
    method CreateLink(a: nat, b: nat)
      requires Valid()
      modifies registry
      ensures Valid()
      ensures old(Aligned(registry.ddd)) ==> (Aligned(registry.ddd) <==> StaysInitial(|old(registry.ddd)|, a, b))
      ensures old(Issued()) && a < counter && b < counter ==>
                && Issued()
                && (forall y :: y in Layer(a) <==> y in old(Layer(a)) || y == b)
                && (forall e | 0 <= e < counter && e != a :: Layer(e) == old(Layer(e)))
                && Grew(old(body), old(registry.ddd), a)
    {
      ghost var was := registry.ddd;
      registry.AddEdge(a, b);
      if old(Aligned(registry.ddd)) {
        LinkKeepsAlignedIff(was, registry.ddd, a, b);
      }
      if old(Issued()) && a < counter && b < counter {
        LinksSeen(was, registry.ddd, a, b);
      }
    }

    /** `storage_space::get`; `unordered_map::at` fails on an id that was not issued. */
    method Get(id: nat) returns (t: Option<Address>)
      ensures t == if id in body then Some(body[id]) else None
    {
      t := if id in body then Some(body[id]) else None;
    }

    /** `current_layer`: the addresses of the linked actors in the order of their ids. */
    method CurrentLayer(id: nat) returns (r: Option<seq<Address>>)
      requires Valid()
      ensures Issued() && id < counter ==>
                r == Some(Addresses(body, Layer(id))) && forall y :: y in Layer(id) <==> Linked(registry.ddd, id, y)
      ensures id >= |registry.ddd| ==> r.None?
    {
      var all := registry.FindingAdjacency(id);
      if all.None? {
        return None;
      }
      ghost var ok := Issued() && id < counter;
      var tmp: seq<Address> := [];
      for i := 0 to |all.value|
        invariant ok ==> tmp == Addresses(body, all.value[..i])
      {
        assert all.value[i] in all.value;
        assert ok ==> Linked(registry.ddd, id, all.value[i]);
        var t := Get(all.value[i]);
        if t.None? {
          return None;
        }
        assert all.value[..i + 1] == all.value[..i] + [all.value[i]];
        tmp := tmp + [t.value];
      }
      assert all.value[..|all.value|] == all.value;
      r := Some(tmp);
    }
  }

  /** The addresses of some ids, which were issued. */
  function Addresses(body: map<nat, Address>, ids: seq<nat>): (r: seq<Address>)
    ensures |r| == |ids|
  {
    if ids == [] then []
    else
      var n := |ids| - 1;
      Addresses(body, ids[..n]) + [if ids[n] in body then body[ids[n]] else 0]
  }

  lemma LinkedAt(nodes: seq<Node>, x: nat, y: nat)
    requires Aligned(nodes) && x < |nodes|
    ensures Linked(nodes, x, y) <==> y in nodes[x].links
  {
    if y in nodes[x].links {
      assert nodes[x].id == x;
    }
  }

  lemma LayerBelow(nodes: seq<Node>, id: nat)
    requires Sorted(nodes) && Aligned(nodes) && id < |nodes|
    requires forall a: nat, b: nat :: Linked(nodes, a, b) ==> b < |nodes|
    ensures Increasing(nodes[id].links) && forall k | 0 <= k < |nodes[id].links| :: nodes[id].links[k] < |nodes|
  {
    forall k | 0 <= k < |nodes[id].links| ensures nodes[id].links[k] < |nodes| {
      LinkedAt(nodes, id, nodes[id].links[k]);
    }
  }

  lemma SameLinks(was: seq<Node>, now: seq<Node>, e: nat)
    requires Sorted(was) && Aligned(was) && Sorted(now) && Aligned(now) && e < |was| <= |now|
    requires forall y :: Linked(now, e, y) <==> Linked(was, e, y)
    ensures now[e].links == was[e].links
  {
    forall y ensures y in now[e].links <==> y in was[e].links {
      LinkedAt(was, e, y);
      LinkedAt(now, e, y);
    }
    IncreasingIsUnique(now[e].links, was[e].links);
  }

  lemma VertexAppended(was: seq<Node>, now: seq<Node>, index: nat)
    requires Sorted(was) && Aligned(was) && |was| == index && Sorted(now)
    requires forall x :: x in Ids(now) <==> x in Ids(was) || x == index
    requires |now| == |was| + (if index in Ids(was) then 0 else 1)
    requires forall x, y :: Linked(now, x, y) <==> Linked(was, x, y)
    ensures Aligned(now) && |now| == index + 1 && now[index].links == []
    ensures forall e | 0 <= e < index :: now[e].links == was[e].links
  {
    LinkKeepsAlignedIff(was, now, index, index);
    forall e | 0 <= e < index ensures now[e].links == was[e].links {
      SameLinks(was, now, e);
    }
    forall y ensures y !in now[index].links {
      LinkedAt(now, index, y);
      assert !Linked(was, index, y);
    }
    IncreasingIsUnique(now[index].links, []);
  }

  lemma LinksSeen(was: seq<Node>, now: seq<Node>, a: nat, b: nat)
    requires Sorted(was) && Aligned(was) && Sorted(now) && Aligned(now) && |now| == |was|
    requires forall x, y :: Linked(now, x, y) <==> Linked(was, x, y) || (x == a && y == b)
    requires a < |was|
    ensures forall y :: y in now[a].links <==> y in was[a].links || y == b
    ensures forall e | 0 <= e < |was| && e != a :: now[e].links == was[e].links
  {
    forall y ensures y in now[a].links <==> y in was[a].links || y == b {
      LinkedAt(was, a, y);
      LinkedAt(now, a, y);
    }
    forall e | 0 <= e < |was| && e != a ensures now[e].links == was[e].links {
      SameLinks(was, now, e);
    }
  }

  lemma AddressesGrow(body: map<nat, Address>, ids: seq<nat>, id: nat)
    ensures Addresses(body, ids + [id]) == Addresses(body, ids) + [if id in body then body[id] else 0]
  {
    assert (ids + [id])[..|ids|] == ids;
  }

  lemma {:induction false} SameAddresses(was: map<nat, Address>, now: map<nat, Address>, ids: seq<nat>)
    requires forall k | 0 <= k < |ids| :: ids[k] in was && ids[k] in now && was[ids[k]] == now[ids[k]]
    ensures Addresses(now, ids) == Addresses(was, ids)
  {
    if ids != [] {
      SameAddresses(was, now, ids[..|ids| - 1]);
    }
  }

  /** A new id is above all older ones, so it goes to the end of the layer. */
  lemma LayerGrows(was: seq<nat>, now: seq<nat>, index: nat)
    requires Increasing(was) && Increasing(now) && forall k | 0 <= k < |was| :: was[k] < index
    requires forall y :: y in now <==> y in was || y == index
    ensures now == was + [index]
  {
    IncreasingIsUnique(now, was + [index]);
  }

  // ---------------------------------------------------------------- who must be told about whom

  /** A `sync_contacts` message: who gets it, and the contact it brings. */
  type Contact = (Address, Address)

  /** The same thing for each of `members`. */
  function ToAll<T>(members: seq<Address>, c: T): (r: seq<(Address, T)>)
    ensures |r| == |members| && forall k | 0 <= k < |r| :: r[k] == (members[k], c)
  {
    seq(|members|, k requires 0 <= k < |members| => (members[k], c))
  }

  /** Each of `shared` as a contact for `t`. */
  function AllTo(t: Address, shared: seq<Address>): (r: seq<Contact>)
    ensures |r| == |shared| && forall k | 0 <= k < |r| :: r[k] == (t, shared[k])
  {
    seq(|shared|, k requires 0 <= k < |shared| => (t, shared[k]))
  }

  /** Every pair of a member and a shared actor once, and every shared actor once for the entry point. */
  function Complete(entry: Address, members: seq<Address>, shared: seq<Address>): multiset<Contact> {
    if shared == [] then multiset{}
    else
      var n := |shared| - 1;
      Complete(entry, members, shared[..n]) + multiset{(entry, shared[n])} + multiset(ToAll(members, shared[n]))
  }

  lemma {:induction false} CompleteWithMember(entry: Address, members: seq<Address>, shared: seq<Address>, t: Address)
    ensures Complete(entry, members + [t], shared) == Complete(entry, members, shared) + multiset(AllTo(t, shared))
  {
    hide ToAll, AllTo;
    if shared == [] {
      NothingToTell(t);
    } else {
      var n := |shared| - 1;
      CompleteWithMember(entry, members, shared[..n], t);
      ToAllGrows(members, t, shared[n]);
      AllToGrows(t, shared[..n], shared[n]);
      assert shared == shared[..n] + [shared[n]];
      Shuffles(Complete(entry, members, shared[..n]), multiset(AllTo(t, shared[..n])), multiset{(entry, shared[n])},
               multiset(ToAll(members, shared[n])), multiset{(t, shared[n])});
    }
  }

  lemma NothingToTell(t: Address)
    ensures AllTo(t, []) == []
  {
  }

  lemma Shuffles<T>(a: multiset<T>, b: multiset<T>, c: multiset<T>, d: multiset<T>, e: multiset<T>)
    ensures (a + b) + c + (d + e) == (a + c + d) + (b + e)
  {
  }

  lemma ToAllGrows(members: seq<Address>, t: Address, c: Address)
    ensures multiset(ToAll(members + [t], c)) == multiset(ToAll(members, c)) + multiset{(t, c)}
  {
    assert ToAll(members + [t], c) == ToAll(members, c) + [(t, c)];
  }

  lemma AllToGrows(t: Address, shared: seq<Address>, s: Address)
    ensures multiset(AllTo(t, shared + [s])) == multiset(AllTo(t, shared)) + multiset{(t, s)}
  {
    assert AllTo(t, shared + [s]) == AllTo(t, shared) + [(t, s)];
  }

  lemma CompleteWithShared(entry: Address, members: seq<Address>, shared: seq<Address>, s: Address)
    ensures Complete(entry, members, shared + [s])
         == Complete(entry, members, shared) + multiset([(entry, s)] + ToAll(members, s))
  {
    assert (shared + [s])[..|shared|] == shared;
  }

  /** Who is told about the contact that was shared last. */
  lemma LastTold(entry: Address, members: seq<Address>, shared: seq<Address>, m: Address, s: Address)
    requires shared != []
    ensures var n := |shared| - 1;
            Complete(entry, members, shared)[(m, s)] == Complete(entry, members, shared[..n])[(m, s)] +
              if shared[n] == s then multiset(members)[m] + (if m == entry then 1 else 0) else 0
  {
    ToAllCounts(members, shared[|shared| - 1], m, s);
    hide ToAll;
  }

  /** How often `m` is told about `s`: once for each time it is a member or the entry point and each
      time `s` was shared. With distinct actors that is exactly once. */
  lemma {:induction false} CompleteCounts(entry: Address, members: seq<Address>, shared: seq<Address>,
                                          m: Address, s: Address)
    ensures Complete(entry, members, shared)[(m, s)]
         == (multiset(members)[m] + (if m == entry then 1 else 0)) * multiset(shared)[s]
  {
    if shared != [] {
      var n := |shared| - 1;
      var copies := multiset(members)[m] + (if m == entry then 1 else 0);
      LastTold(entry, members, shared, m, s);
      hide Complete, ToAll;
      CompleteCounts(entry, members, shared[..n], m, s);
      LastCounts(shared, s);
      OneMoreTime(copies, multiset(shared[..n])[s], shared[n] == s);
    }
  }

  lemma OneMoreTime(copies: nat, times: nat, again: bool)
    ensures copies * (times + if again then 1 else 0) == copies * times + if again then copies else 0
  {
  }

  lemma LastCounts(shared: seq<Address>, s: Address)
    requires shared != []
    ensures multiset(shared)[s]
         == multiset(shared[..|shared| - 1])[s] + (if shared[|shared| - 1] == s then 1 else 0)
  {
    assert shared == shared[..|shared| - 1] + [shared[|shared| - 1]];
  }

  lemma {:induction false} ToAllCounts(members: seq<Address>, c: Address, m: Address, s: Address)
    ensures multiset(ToAll(members, c))[(m, s)] == if c == s then multiset(members)[m] else 0
  {
    if members != [] {
      var n := |members| - 1;
      ToAllCounts(members[..n], c, m, s);
      assert members == members[..n] + [members[n]];
      assert ToAll(members, c) == ToAll(members[..n], c) + [(members[n], c)];
    }
  }

  // ---------------------------------------------------------------- the round-robin cursor

  /** The cursor after a send among `n` members. */
  function Next(cursor: nat, n: nat): (r: nat)
    requires cursor < n
    ensures r < n
  {
    if cursor + 1 >= n then 0 else cursor + 1
  }

  /** The places that `k` sends reach among `n` members, from the cursor on. */
  function Cycle(cursor: nat, n: nat, k: nat): (r: seq<nat>)
    requires cursor < n
    ensures |r| == k && forall i | 0 <= i < k :: r[i] < n
    decreases k
  {
    if k == 0 then [] else [cursor] + Cycle(Next(cursor, n), n, k - 1)
  }

  /** How many sends place `j` has to wait for. */
  function Distance(cursor: nat, n: nat, j: nat): (d: nat)
    requires cursor < n && j < n
    ensures d < n
  {
    if j >= cursor then j - cursor else j + n - cursor
  }

  /** How many of `k` sends reach a place at distance `d`: every `n`-th one after the first `d`. */
  function Share(k: nat, n: nat, d: nat): nat
    requires d < n
  {
    (k + n - 1 - d) / n
  }

  lemma ShareMoves(k: nat, n: nat, d: nat)
    requires k > 0 && d < n
    ensures Share(k, n, d) == if d == 0 then Share(k - 1, n, n - 1) + 1 else Share(k - 1, n, d - 1)
  {
    if d == 0 {
      OneMore(k - 1, n);
    }
  }

  lemma {:induction false} CycleCounts(cursor: nat, n: nat, k: nat, j: nat)
    requires cursor < n && j < n
    ensures multiset(Cycle(cursor, n, k))[j] == Share(k, n, Distance(cursor, n, j))
    decreases k
  {
    hide Share, Distance, Next;
    if k == 0 {
      ShareOfNone(n, Distance(cursor, n, j));
    } else {
      var rest := Cycle(Next(cursor, n), n, k - 1);
      assert Cycle(cursor, n, k) == [cursor] + rest;
      hide Cycle;
      CycleCounts(Next(cursor, n), n, k - 1, j);
      HeadCounts(cursor, rest, j);
      DistanceMoves(cursor, n, j);
      ShareMoves(k, n, Distance(cursor, n, j));
    }
  }

  lemma ShareOfNone(n: nat, d: nat)
    requires d < n
    ensures Share(0, n, d) == 0
  {
    DivUnique(n - 1 - d, n, 0);
  }

  /** After a send the distance is one less, except for the place just reached. */
  lemma DistanceMoves(cursor: nat, n: nat, j: nat)
    requires cursor < n && j < n
    ensures Distance(Next(cursor, n), n, j) == if j == cursor then n - 1 else Distance(cursor, n, j) - 1
    ensures Distance(cursor, n, j) == 0 <==> j == cursor
  {
  }

  lemma HeadCounts(x: nat, rest: seq<nat>, j: nat)
    ensures multiset([x] + rest)[j] == (if x == j then 1 else 0) + multiset(rest)[j]
  {
  }

  /** In any window of `k` sends each of `n` members gets its share of k/n, rounded down or up. */
  lemma CycleIsFair(cursor: nat, n: nat, k: nat, j: nat)
    requires cursor < n && j < n
    ensures k / n <= multiset(Cycle(cursor, n, k))[j] <= (k + n - 1) / n
  {
    CycleCounts(cursor, n, k, j);
    var d := Distance(cursor, n, j);
    DivMonotone(k, k + n - 1 - d, n);
    DivMonotone(k + n - 1 - d, k + n - 1, n);
  }

  // ---------------------------------------------------------------- groups

  /** `abstract_group`. Its ghost fields record the messages it sends. */
  class Group {
    const space: StorageSpace
    const entryPoint: nat
    var cursor: nat
    var sharedPoint: seq<nat>
    ghost var contacts: seq<Contact>
    ghost var joins: seq<Contact>
    ghost var turns: seq<nat>
    ghost var deliveries: seq<(Address, Msg)>

    ghost predicate InSpace()
      reads this, space, space.registry
    {
      && space.Valid() && space.Issued() && entryPoint < space.counter
      && forall k | 0 <= k < |sharedPoint| :: sharedPoint[k] < space.counter
    }

    ghost function Members(): seq<Address>
      requires InSpace()
      reads this, space, space.registry
    {
      Addresses(space.body, space.Layer(entryPoint))
    }

    ghost function Shared(): seq<Address>
      reads this, space
    {
      Addresses(space.body, sharedPoint)
    }

    ghost function Entry(): Address
      requires InSpace()
      reads this, space, space.registry
    {
      space.body[entryPoint]
    }

    /** With these addresses and vertices the cursor is a place in the layer, and everybody was told
        exactly what is due. */
    ghost predicate ValidIn(body: map<nat, Address>, vertices: seq<Node>)
      reads this
    {
      && entryPoint < |vertices| && entryPoint in body
      && (forall k | 0 <= k < |sharedPoint| :: sharedPoint[k] < |vertices|)
      && var members := Addresses(body, vertices[entryPoint].links);
         && (if members == [] then cursor == 0 else cursor < |members|)
         && multiset(contacts) == Complete(body[entryPoint], members, Addresses(body, sharedPoint))
    }

    ghost predicate Valid()
      reads this, space, space.registry
    {
      InSpace() && ValidIn(space.body, space.registry.ddd)
    }

    constructor (ss: StorageSpace, t: Address)
      requires ss.Valid() && ss.Issued()
      modifies ss, ss.registry
      ensures space == ss && Valid() && entryPoint == old(ss.counter)
      ensures ss.Grew(old(ss.body), old(ss.registry.ddd), entryPoint)
      ensures Entry() == t && Members() == [] && Shared() == []
    {
      space, cursor, sharedPoint := ss, 0, [];
      contacts, joins, turns, deliveries := [], [], [], [];
      var index := ss.Add(t);
      entryPoint := index;
    }

    /** A contact for one actor, which goes into the record of `add` and `add_shared`. */
    method Tell(t: Address, contact: Address)
      modifies `contacts
      ensures contacts == old(contacts) + [(t, contact)]
    {
      contacts := contacts + [(t, contact)];
    }

    /** The loop of `add` over the shared actors. */
    method TellAllShared(t: Address)
      requires InSpace()
      modifies `contacts
      ensures contacts == old(contacts) + AllTo(t, Shared())
    {
      for i := 0 to |sharedPoint|
        invariant contacts == old(contacts) + AllTo(t, Addresses(space.body, sharedPoint[..i]))
      {
        var contact := space.Get(sharedPoint[i]);
        AddressesGrow(space.body, sharedPoint[..i], sharedPoint[i]);
        assert sharedPoint[..i + 1] == sharedPoint[..i] + [sharedPoint[i]];
        Tell(t, contact.value);
      }
      assert sharedPoint[..|sharedPoint|] == sharedPoint;
    }

    /** The end of `add`: an id for the newcomer and a link to it. */
    method Enrol(t: Address)
      requires InSpace()
      modifies space, space.registry
      ensures InSpace() && space.Grew(old(space.body), old(space.registry.ddd), entryPoint)
      ensures Members() == old(Members()) + [t] && Shared() == old(Shared()) && Entry() == old(Entry())
    {
      hide Addresses, Linked, Sorted, Aligned, StaysInitial;
      ghost var body, layer := space.body, space.Layer(entryPoint);
      LayerBelow(space.registry.ddd, entryPoint);
      var index := space.Add(t);
      space.CreateLink(entryPoint, index);
      LayerBelow(space.registry.ddd, entryPoint);
      LayerGrows(layer, space.Layer(entryPoint), index);
      AddressesGrow(space.body, layer, index);
      SameAddresses(body, space.body, layer);
      SameAddresses(body, space.body, sharedPoint);
    }

    /** `add`: the newcomer gets every shared contact known so far, and joins the end of the layer. */
    method Add(t: Address)
      requires Valid()
      modifies `contacts, space, space.registry
      ensures space.Grew(old(space.body), old(space.registry.ddd), entryPoint)
      ensures Valid() && Members() == old(Members()) + [t] && Shared() == old(Shared()) && Entry() == old(Entry())
    {
      hide Addresses, Complete, AllTo;
      ghost var shared, members, entry := Shared(), Members(), Entry();
      TellAllShared(t);
      Enrol(t);
      CompleteWithMember(entry, members, shared, t);
    }

    /** A contact for every member, as the loops of `add_shared` and `join` send it. */
    method ContactsForMembers(c: Address) returns (told: seq<Contact>)
      requires InSpace()
      ensures told == ToAll(Members(), c)
    {
      hide Addresses;
      told := [];
      var layer := space.CurrentLayer(entryPoint);
      for i := 0 to |layer.value|
        invariant told == ToAll(layer.value[..i], c)
      {
        assert layer.value[..i + 1] == layer.value[..i] + [layer.value[i]];
        told := told + [(layer.value[i], c)];
      }
      assert layer.value[..|layer.value|] == layer.value;
    }

    /** `add_shared`: the entry point and every member present so far get the new contact. */
    method AddShared(t: Address)
      requires Valid()
      modifies `contacts, `sharedPoint, space, space.registry
      ensures space.Grew(old(space.body), old(space.registry.ddd), old(space.counter))
      ensures Valid() && Members() == old(Members()) && Shared() == old(Shared()) + [t] && Entry() == old(Entry())
    {
      hide Addresses, Complete, ToAll;
      ghost var body, shared, members, entry := space.body, Shared(), Members(), Entry();
      LayerBelow(space.registry.ddd, entryPoint);
      var id := space.Add(t);
      SameAddresses(body, space.body, space.Layer(entryPoint));
      SameAddresses(body, space.body, sharedPoint);
      AddressesGrow(space.body, sharedPoint, id);
      sharedPoint := sharedPoint + [id];
      Tell(space.body[entryPoint], t);
      var told := ContactsForMembers(t);
      contacts := contacts + told;
      CompleteWithShared(entry, members, shared, t);
    }

    /** `join`: the other group's entry point becomes known to this entry point and to the members of
        now; later members do not hear of it. */
    method Join(g: Group)
      requires Valid() && g.InSpace()
      modifies `joins
      ensures Valid() && joins == old(joins) + [(Entry(), g.Entry())] + ToAll(Members(), g.Entry())
    {
      hide Addresses, Complete, ToAll;
      var contact := g.space.Get(g.entryPoint);
      joins := joins + [(space.body[entryPoint], contact.value)];
      var told := ContactsForMembers(contact.value);
      joins := joins + told;
    }

    /** `send`: one member gets the message and the cursor moves on. */
    method Send(msg: Msg) returns (sent: bool)
      requires Valid()
      modifies `cursor, `turns, `deliveries
      ensures Valid() && (sent <==> Members() != [])
      ensures !sent ==> turns == old(turns) && deliveries == old(deliveries) && cursor == old(cursor)
      ensures sent ==> old(cursor) < |Members()| && turns == old(turns) + [old(cursor)]
      ensures sent ==> cursor == Next(old(cursor), |Members()|)
      ensures sent ==> deliveries == old(deliveries) + [(Members()[old(cursor)], msg)]
    {
      hide Addresses, Complete;
      var layer := space.CurrentLayer(entryPoint);
      var tmp := layer.value;
      if tmp != [] {
        turns := turns + [cursor];
        deliveries := deliveries + [(tmp[cursor], msg)];
        cursor := cursor + 1;
        if cursor >= |tmp| {
          cursor := 0;
        }
        return true;
      }
      return false;
    }

    /** `broadcast`: every member gets the message once. */
    method Broadcast(msg: Msg) returns (sent: bool)
      requires Valid()
      modifies `deliveries
      ensures Valid() && (sent <==> Members() != [])
      ensures deliveries == old(deliveries) + ToAll(Members(), msg)
    {
      hide Addresses, Complete;
      var layer := space.CurrentLayer(entryPoint);
      var tmp := layer.value;
      assert ToAll(tmp[..0], msg) == [];
      for i := 0 to |tmp|
        invariant Valid() && Members() == tmp
        invariant deliveries == old(deliveries) + ToAll(tmp[..i], msg)
      {
        assert ToAll(tmp[..i + 1], msg) == ToAll(tmp[..i], msg) + [(tmp[i], msg)];
        deliveries := deliveries + [(tmp[i], msg)];
      }
      assert tmp[..|tmp|] == tmp;
      return tmp != [];
    }

    /** Successive sends with no newcomer in between: every member gets its share of them. */
    method SendEach(msgs: seq<Msg>)
      requires Valid() && Members() != []
      modifies `cursor, `turns, `deliveries
      ensures Valid() && turns == old(turns) + Cycle(old(cursor), |Members()|, |msgs|)
      ensures forall j: nat | j < |Members()| ::
                |msgs| / |Members()| <= multiset(turns[|old(turns)|..])[j]
                                     <= (|msgs| + |Members()| - 1) / |Members()|
    {
      hide Addresses, Complete, Cycle, Next;
      var i := 0;
      ghost var n := |Members()|;
      while i < |msgs|
        invariant i <= |msgs| && Valid() && |Members()| == n
        invariant turns + Cycle(cursor, n, |msgs| - i) == old(turns) + Cycle(old(cursor), n, |msgs|)
      {
        CycleSteps(turns, cursor, n, |msgs| - i);
        var sent := Send(msgs[i]);
        i := i + 1;
      }
      CycleEnds(turns, cursor, n);
      WindowIsFair(old(turns), turns, old(cursor), n, |msgs|);
    }

    /** A group that did not act stays as it is while the space grows around it. */
    lemma OthersDoNotDisturb(was: map<nat, Address>, vertices: seq<Node>, changed: nat)
      requires ValidIn(was, vertices) && changed != entryPoint
      requires AllIssued(was, vertices)
      requires space.Valid() && space.Issued() && space.Grew(was, vertices, changed)
      ensures Valid()
      ensures Members() == Addresses(was, vertices[entryPoint].links) && Shared() == Addresses(was, sharedPoint)
    {
      hide Complete, Linked;
      LayerBelow(vertices, entryPoint);
      SameAddresses(was, space.body, vertices[entryPoint].links);
      SameAddresses(was, space.body, sharedPoint);
    }
  }

  /** Vertices and addresses of ids that were issued. */
  ghost predicate AllIssued(body: map<nat, Address>, vertices: seq<Node>) {
    && Sorted(vertices) && Aligned(vertices)
    && (forall id: nat :: id in body <==> id < |vertices|)
    && forall a: nat, b: nat :: Linked(vertices, a, b) ==> b < |vertices|
  }

  /** The groups of one environment, which share its storage space. */
  class Cooperation {
    const space: StorageSpace
    var groups: seq<Group>

    /** Every group has its contacts complete and its cursor valid, at the same time. */
    ghost predicate Valid()
      reads this, space, space.registry, groups
    {
      && space.Valid() && space.Issued()
      && (forall i | 0 <= i < |groups| :: groups[i].space == space && groups[i].Valid())
      && (forall i, j | 0 <= i < j < |groups| ::
            groups[i] != groups[j] && groups[i].entryPoint != groups[j].entryPoint)
    }

    ghost function Members(i: nat): seq<Address>
      requires Valid() && i < |groups|
      reads this, space, space.registry, groups
    {
      groups[i].Members()
    }

    ghost function Shared(i: nat): seq<Address>
      requires Valid() && i < |groups|
      reads this, space, space.registry, groups
    {
      groups[i].Shared()
    }

    constructor ()
      ensures Valid() && groups == [] && fresh(space) && fresh(space.registry)
    {
      space := new StorageSpace();
      groups := [];
    }

    /** Groups other than the one that acted are valid and have what they had. */
    lemma OthersKept(was: map<nat, Address>, vertices: seq<Node>, changed: nat, some: set<Group>)
      requires AllIssued(was, vertices)
      requires space.Valid() && space.Issued() && space.Grew(was, vertices, changed)
      requires forall g | g in some :: g.space == space && g.ValidIn(was, vertices) && g.entryPoint != changed
      ensures forall g | g in some ::
                && g.entryPoint < |vertices| && g.Valid()
                && g.Members() == Addresses(was, vertices[g.entryPoint].links)
                && g.Shared() == Addresses(was, g.sharedPoint)
    {
      forall g | g in some
        ensures g.Valid() && g.Members() == Addresses(was, vertices[g.entryPoint].links)
        ensures g.Shared() == Addresses(was, g.sharedPoint)
      {
        g.OthersDoNotDisturb(was, vertices, changed);
      }
    }

    /** `created_group`. */
    method CreateGroup(t: Address)
      requires Valid()
      modifies this, space, space.registry
      ensures Valid() && |groups| == |old(groups)| + 1 && groups[..|old(groups)|] == old(groups)
      ensures Members(|old(groups)|) == [] && Shared(|old(groups)|) == []
      ensures forall j | 0 <= j < |old(groups)| :: Members(j) == old(Members(j)) && Shared(j) == old(Shared(j))
    {
      hide Addresses, Complete, Linked, Sorted, Aligned;
      ghost var was, vertices := space.body, space.registry.ddd;
      var g := new Group(space, t);
      OthersKept(was, vertices, g.entryPoint, set x | x in groups);
      groups := groups + [g];
    }

    /** `add` on one of the groups. */
    method Add(i: nat, t: Address)
      requires Valid() && i < |groups|
      modifies space, space.registry, groups[i]
      ensures Valid() && groups == old(groups)
      ensures Members(i) == old(Members(i)) + [t] && Shared(i) == old(Shared(i))
      ensures forall j | 0 <= j < |groups| && j != i :: Members(j) == old(Members(j)) && Shared(j) == old(Shared(j))
    {
      hide Addresses, Complete, Linked, Sorted, Aligned;
      ghost var was, vertices := space.body, space.registry.ddd;
      var g := groups[i];
      g.Add(t);
      OthersKept(was, vertices, g.entryPoint, (set x | x in groups) - {g});
    }

    /** `add_shared` on one of the groups. */
    method AddShared(i: nat, t: Address)
      requires Valid() && i < |groups|
      modifies space, space.registry, groups[i]
      ensures Valid() && groups == old(groups)
      ensures Members(i) == old(Members(i)) && Shared(i) == old(Shared(i)) + [t]
      ensures forall j | 0 <= j < |groups| && j != i :: Members(j) == old(Members(j)) && Shared(j) == old(Shared(j))
    {
      hide Addresses, Complete, Linked, Sorted, Aligned;
      ghost var was, vertices := space.body, space.registry.ddd;
      var g := groups[i];
      g.AddShared(t);
      OthersKept(was, vertices, |vertices|, (set x | x in groups) - {g});
    }

    /** `join` of one group to another of the environment. */
    method Join(i: nat, j: nat)
      requires Valid() && i < |groups| && j < |groups|
      modifies groups[i]
      ensures Valid() && groups == old(groups)
      ensures groups[i].joins == old(groups[i].joins) + [(groups[i].Entry(), groups[j].Entry())]
                                 + ToAll(Members(i), groups[j].Entry())
      ensures forall k | 0 <= k < |groups| :: Members(k) == old(Members(k)) && Shared(k) == old(Shared(k))
    {
      hide Addresses, Complete, Linked, Sorted, Aligned;
      groups[i].Join(groups[j]);
    }

    /** `send` to one of the groups; the cursors of the others stay. */
    method Send(i: nat, msg: Msg) returns (sent: bool)
      requires Valid() && i < |groups|
      modifies groups[i]
      ensures Valid() && groups == old(groups) && (sent <==> Members(i) != [])
      ensures sent ==> old(groups[i].cursor) < |Members(i)|
      ensures sent ==> groups[i].deliveries == old(groups[i].deliveries) + [(Members(i)[old(groups[i].cursor)], msg)]
      ensures forall k | 0 <= k < |groups| :: Members(k) == old(Members(k)) && Shared(k) == old(Shared(k))
      ensures forall k | 0 <= k < |groups| && k != i :: unchanged(groups[k])
    {
      hide Addresses, Complete, Linked, Sorted, Aligned;
      sent := groups[i].Send(msg);
    }
  }

  lemma CycleEnds(turns: seq<nat>, cursor: nat, n: nat)
    requires cursor < n
    ensures turns + Cycle(cursor, n, 0) == turns
  {
  }

  lemma WindowIsFair(before: seq<nat>, after: seq<nat>, cursor: nat, n: nat, k: nat)
    requires cursor < n && after == before + Cycle(cursor, n, k)
    ensures forall j: nat | j < n :: k / n <= multiset(after[|before|..])[j] <= (k + n - 1) / n
  {
    assert after[|before|..] == Cycle(cursor, n, k);
    forall j: nat | j < n ensures k / n <= multiset(after[|before|..])[j] <= (k + n - 1) / n {
      CycleIsFair(cursor, n, k, j);
    }
  }

  lemma CycleSteps(turns: seq<nat>, cursor: nat, n: nat, k: nat)
    requires cursor < n && k > 0
    ensures turns + Cycle(cursor, n, k) == turns + [cursor] + Cycle(Next(cursor, n), n, k - 1)
  {
  }
}

/** Facts about division by a variable. */
module Division {
  lemma MulMonotone(x: int, y: int, n: nat)
    requires x <= y
    ensures x * n <= y * n
  {
    assert (y - x) * n >= 0;
    assert y * n == x * n + (y - x) * n;
  }
  lemma MulSucc(x: int, n: nat)
    ensures (x + 1) * n == x * n + n
  {
  }

  lemma DivUnique(a: nat, n: nat, q: nat)
    requires n > 0 && q * n <= a < q * n + n
    ensures a / n == q
  {
    var p := a / n;
    assert a == p * n + a % n;
    MulSucc(p, n);
    MulSucc(q, n);
    if p < q {
      MulMonotone(p + 1, q, n);
    } else if q < p {
      MulMonotone(q + 1, p, n);
    }
  }

  lemma OneMore(a: nat, n: nat)
    requires n > 0
    ensures (a + n) / n == a / n + 1
  {
    var q := a / n;
    assert a == q * n + a % n;
    MulSucc(q, n);
    DivUnique(a + n, n, q + 1);
  }

  lemma DivMonotone(a: nat, b: nat, n: nat)
    requires n > 0 && a <= b
    ensures a / n <= b / n
  {
    var p, q := a / n, b / n;
    assert a == p * n + a % n && b == q * n + b % n;
    MulSucc(q, n);
    if q < p {
      MulMonotone(q + 1, p, n);
    }
  }
}
