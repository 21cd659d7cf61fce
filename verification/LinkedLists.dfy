/**
 Circular doubly linked lists (list.h:64-143).  An entry that belongs to a list knows its successor and its
 predecessor; the two tables are what the `next` and `prev` fields of all `list_head`s hold.

 `HeadOf` says in which list an entry can be: every entry of the port/tree mesh is made for one list.
 */
module LinkedLists {

  /** The `list_head`s of the mesh: the heads of the bridge's ports and trees, of the nodes of a port and of the
      nodes of a tree; and the entries of these four lists. */
  datatype Id =
    | PortsHead | TreesHead | PortHead(port: nat) | TreeHead(tree: nat)
    | BrList(port: nat) | BridgeList(tree: nat) | PortList(port: nat, tree: nat) | TreeList(port: nat, tree: nat)

  function HeadOf(id: Id): Id {
    match id
    case BrList(_) => PortsHead
    case BridgeList(_) => TreesHead
    case PortList(p, _) => PortHead(p)
    case TreeList(_, t) => TreeHead(t)
    case _ => id
  }

  datatype Links = Links(next: map<Id, Id>, prev: map<Id, Id>)

  // ---- One ring -------------------------------------------------------------------------------------

  function Succ(ring: seq<Id>, i: nat): Id
    requires i < |ring|
  {
    if i + 1 == |ring| then ring[0] else ring[i + 1]
  }

  predicate Distinct(ring: seq<Id>) { forall i, j :: 0 <= i < j < |ring| ==> ring[i] != ring[j] }

  /** From `ring[i]` one gets to the next entry and back, and from the last to the head. */
  predicate LinkedAt(l: Links, ring: seq<Id>, i: nat)
    requires i < |ring|
  {
    && ring[i] in l.next && ring[i] in l.prev && l.next[ring[i]] == Succ(ring, i)
    && Succ(ring, i) in l.prev && l.prev[Succ(ring, i)] == ring[i]
  }

  predicate Ring(l: Links, ring: seq<Id>) {
    |ring| > 0 && Distinct(ring) && forall i :: 0 <= i < |ring| ==> LinkedAt(l, ring, i)
  }

  /** `__list_add`: put `x` between two neighbours. */
  function Add(l: Links, x: Id, before: Id, after: Id): Links {
    Links(l.next[x := after][before := x], l.prev[after := x][x := before])
  }

  /** `INIT_LIST_HEAD`. */
  function Init(l: Links, x: Id): Links { Links(l.next[x := x], l.prev[x := x]) }

  /** `list_del`, the entry itself being freed. */
  function Del(l: Links, x: Id): Links
    requires x in l.next && x in l.prev
  {
    var before, after := l.prev[x], l.next[x];
    Links(l.next[before := after] - {x}, l.prev[after := before] - {x})
  }

  function InsertAt(ring: seq<Id>, k: nat, x: Id): seq<Id>
    requires k < |ring|
  {
    ring[..k + 1] + [x] + ring[k + 1..]
  }

  function RemoveAt(ring: seq<Id>, k: nat): seq<Id>
    requires k < |ring|
  {
    ring[..k] + ring[k + 1..]
  }

  lemma AddKeepsRing(l: Links, ring: seq<Id>, k: nat, x: Id)
    requires Ring(l, ring) && k < |ring| && x !in ring
    ensures Ring(Add(l, x, ring[k], Succ(ring, k)), InsertAt(ring, k, x))
  {
    var r, l' := InsertAt(ring, k, x), Add(l, x, ring[k], Succ(ring, k));
    assert forall i :: 0 <= i < |r| ==> r[i] == if i <= k then ring[i] else if i == k + 1 then x else ring[i - 1];
    forall i | 0 <= i < |r| ensures LinkedAt(l', r, i) {
      if i < k { assert LinkedAt(l, ring, i); }
      else if i > k + 1 { assert LinkedAt(l, ring, i - 1); }
      else { assert LinkedAt(l, ring, k); }
    }
  }

  lemma DelKeepsRing(l: Links, ring: seq<Id>, k: nat)
    requires Ring(l, ring) && 0 < k < |ring|
    ensures ring[k] in l.next && ring[k] in l.prev && Ring(Del(l, ring[k]), RemoveAt(ring, k))
  {
    assert LinkedAt(l, ring, k) && LinkedAt(l, ring, k - 1);
    var r, l' := RemoveAt(ring, k), Del(l, ring[k]);
    assert forall i :: 0 <= i < |r| ==> r[i] == if i < k then ring[i] else ring[i + 1];
    forall i | 0 <= i < |r| ensures LinkedAt(l', r, i) {
      if i < k { assert LinkedAt(l, ring, i); } else { assert LinkedAt(l, ring, i + 1); }
    }
  }

  // ---- All rings ------------------------------------------------------------------------------------

  /** The links hold exactly these lists, each under its head. */
  ghost predicate Lists(l: Links, rings: map<Id, seq<Id>>) {
    && (forall h :: h in rings ==> HeadOf(h) == h && ListOf(rings[h], h) && Ring(l, rings[h]))
    && (forall id :: id in l.next <==> HeadOf(id) in rings && id in rings[HeadOf(id)])
    && l.prev.Keys == l.next.Keys
  }

  /** A head followed by entries made for it. */
  predicate ListOf(ring: seq<Id>, h: Id) { |ring| > 0 && ring[0] == h && forall x :: x in ring ==> HeadOf(x) == h }

  /** Changing links of another list does not disturb a ring. */
  lemma OtherRing(l: Links, l': Links, ring: seq<Id>, h: Id)
    requires Ring(l, ring) && forall x :: x in ring ==> HeadOf(x) == h
    requires forall x :: HeadOf(x) == h && x in l.next ==> x in l'.next && l'.next[x] == l.next[x]
    requires forall x :: HeadOf(x) == h && x in l.prev ==> x in l'.prev && l'.prev[x] == l.prev[x]
    ensures Ring(l', ring)
  {
    forall i | 0 <= i < |ring| ensures LinkedAt(l', ring, i) {
      assert LinkedAt(l, ring, i);
      assert ring[i] in ring && Succ(ring, i) in ring;
    }
  }

  lemma InsertedElements(ring: seq<Id>, k: nat, x: Id)
    requires k < |ring|
    ensures InsertAt(ring, k, x)[0] == ring[0] && forall y :: y in InsertAt(ring, k, x) <==> y in ring || y == x
  {
    assert ring == ring[..k + 1] + ring[k + 1..];
  }

  lemma RemovedElements(ring: seq<Id>, k: nat)
    requires 0 < k < |ring| && Distinct(ring)
    ensures RemoveAt(ring, k)[0] == ring[0] && forall y :: y in RemoveAt(ring, k) <==> y in ring && y != ring[k]
  {
    assert ring == ring[..k] + [ring[k]] + ring[k + 1..];
  }

  /** The neighbours of a place in a ring. */
  lemma Neighbours(l: Links, ring: seq<Id>, k: nat)
    requires Ring(l, ring) && k < |ring|
    ensures ring[k] in ring && Succ(ring, k) in ring && ring[k] in l.next && l.next[ring[k]] == Succ(ring, k)
    ensures Succ(ring, k) in l.prev && l.prev[Succ(ring, k)] == ring[k]
  {
    assert LinkedAt(l, ring, k);
  }

  /** `list_add` after the `k`-th element of a list. */
  lemma AddKeepsLists(l: Links, rings: map<Id, seq<Id>>, h: Id, k: nat, x: Id)
    requires Lists(l, rings) && h in rings && k < |rings[h]| && HeadOf(x) == h && x !in rings[h]
    ensures Lists(Add(l, x, rings[h][k], Succ(rings[h], k)), rings[h := InsertAt(rings[h], k, x)])
  {
    hide Ring, InsertAt;
    var ring := rings[h];
    var l' := Add(l, x, ring[k], Succ(ring, k));
    AddKeepsRing(l, ring, k, x);
    Neighbours(l, ring, k);
    InsertedElements(ring, k, x);
    forall g | g in rings && g != h ensures Ring(l', rings[g]) {
      OtherRing(l, l', rings[g], g);
    }
  }

  /** `list_del` of the `k`-th element of a list. */
  lemma DelKeepsLists(l: Links, rings: map<Id, seq<Id>>, h: Id, k: nat)
    requires Lists(l, rings) && h in rings && 0 < k < |rings[h]|
    ensures rings[h][k] in l.next && rings[h][k] in l.prev
    ensures Lists(Del(l, rings[h][k]), rings[h := RemoveAt(rings[h], k)])
  {
    assert Distinct(rings[h]);
    hide Ring, RemoveAt, Distinct, Succ, Del;
    var ring := rings[h];
    DelKeepsRing(l, ring, k);
    Neighbours(l, ring, k);
    Neighbours(l, ring, k - 1);
    RemovedElements(ring, k);
    DelKeepsOthers(l, rings, h, ring[k]);
    KeysAfterDel(l, ring[k]);
  }

  lemma KeysAfterDel(l: Links, x: Id)
    requires x in l.next && x in l.prev && l.prev[x] in l.next && l.next[x] in l.prev
    ensures Del(l, x).next.Keys == l.next.Keys - {x} && Del(l, x).prev.Keys == l.prev.Keys - {x}
  {
  }

  lemma DelKeepsOthers(l: Links, rings: map<Id, seq<Id>>, h: Id, x: Id)
    requires Lists(l, rings) && x in l.next && x in l.prev && HeadOf(x) == h && HeadOf(l.prev[x]) == h
    requires HeadOf(l.next[x]) == h
    ensures forall g :: g in rings && g != h ==> Ring(Del(l, x), rings[g])
  {
    hide Ring;
    forall g | g in rings && g != h ensures Ring(Del(l, x), rings[g]) {
      OtherRing(l, Del(l, x), rings[g], g);
    }
  }

  lemma NewRing(l: Links, h: Id)
    ensures Ring(Init(l, h), [h])
  {
    assert LinkedAt(Init(l, h), [h], 0);
  }

  /** A new, empty list. */
  lemma InitKeepsLists(l: Links, rings: map<Id, seq<Id>>, h: Id)
    requires Lists(l, rings) && h !in rings && HeadOf(h) == h
    ensures Lists(Init(l, h), rings[h := [h]])
  {
    hide Ring;
    var l' := Init(l, h);
    NewRing(l, h);
    forall g | g in rings ensures Ring(l', rings[g]) {
      OtherRing(l, l', rings[g], g);
    }
  }

  /** Freeing an empty list. */
  lemma FreeKeepsLists(l: Links, rings: map<Id, seq<Id>>, h: Id)
    requires Lists(l, rings) && h in rings && rings[h] == [h]
    ensures Lists(Links(l.next - {h}, l.prev - {h}), rings - {h})
  {
    var l' := Links(l.next - {h}, l.prev - {h});
    forall g | g in rings && g != h ensures Ring(l', rings[g]) {
      OtherRing(l, l', rings[g], g);
    }
  }

  /** Going on from an entry leads to the next one. */
  lemma NextInList(l: Links, rings: map<Id, seq<Id>>, h: Id, k: nat)
    requires Lists(l, rings) && h in rings && k < |rings[h]|
    ensures rings[h][k] in l.next && l.next[rings[h][k]] == Succ(rings[h], k)
    ensures rings[h][0] in l.prev && l.prev[rings[h][0]] == rings[h][|rings[h]| - 1]
    ensures rings[h][k] in l.prev && l.prev[Succ(rings[h], k)] == rings[h][k]
  {
    assert LinkedAt(l, rings[h], k) && LinkedAt(l, rings[h], |rings[h]| - 1);
  }
}
