/**
 The mesh of ports and trees (mstp.c:275-368, 1465-1600): every port has one node for every tree, reachable
 through the list of the port and through the list of the tree.
 */
module Mesh {
  import opened LinkedLists
  import Types

  function PortsRing(ports: seq<nat>): (r: seq<Id>)
    ensures |r| == |ports| + 1
  {
    [PortsHead] + seq(|ports|, i requires 0 <= i < |ports| => BrList(ports[i]))
  }

  function TreesRing(mstids: seq<nat>): (r: seq<Id>)
    ensures |r| == |mstids| + 1
  {
    [TreesHead] + seq(|mstids|, i requires 0 <= i < |mstids| => BridgeList(mstids[i]))
  }

  function PortRing(p: nat, mstids: seq<nat>): (r: seq<Id>)
    ensures |r| == |mstids| + 1
  {
    [PortHead(p)] + seq(|mstids|, i requires 0 <= i < |mstids| => PortList(p, mstids[i]))
  }

  function TreeRing(t: nat, ports: seq<nat>): (r: seq<Id>)
    ensures |r| == |ports| + 1
  {
    [TreeHead(t)] + seq(|ports|, i requires 0 <= i < |ports| => TreeList(ports[i], t))
  }

  /** The CIST first, then strictly ascending MSTIDs. */
  predicate Ascending(mstids: seq<nat>) {
    && |mstids| > 0 && mstids[0] == 0 && (forall i :: 0 <= i < |mstids| ==> mstids[i] <= Types.MAX_MSTID)
    && (forall i, j :: 0 <= i < j < |mstids| ==> mstids[i] < mstids[j])
  }

  predicate NoDuplicates(ports: seq<nat>) { forall i, j :: 0 <= i < j < |ports| ==> ports[i] != ports[j] }

  /** The list under a head, if there is one. */
  function At(rings: map<Id, seq<Id>>, h: Id): seq<Id> { if h in rings then rings[h] else [] }

  /** The heads of a mesh. */
  ghost predicate HeadsAre(rings: map<Id, seq<Id>>, ports: seq<nat>, mstids: seq<nat>) {
    forall h :: h in rings <==> IsHead(h, ports, mstids)
  }

  predicate IsHead(h: Id, ports: seq<nat>, mstids: seq<nat>) {
    match h
    case PortsHead => true
    case TreesHead => true
    case PortHead(p) => p in ports
    case TreeHead(t) => t in mstids
    case _ => false
  }

  /** The lists of the mesh: exactly one node for every port and tree, each port's list in the order of the trees,
      each tree's list in the order of the ports. */
  ghost predicate MeshOf(rings: map<Id, seq<Id>>, ports: seq<nat>, mstids: seq<nat>) {
    && HeadsAre(rings, ports, mstids)
    && At(rings, PortsHead) == PortsRing(ports) && At(rings, TreesHead) == TreesRing(mstids)
    && Rows(rings, ports, 0, mstids, mstids) && Columns(rings, mstids, 0, ports, ports)
  }

  /** The lists of the first `n` trees hold the ports `after`, those of the others `before`. */
  ghost predicate Columns(rings: map<Id, seq<Id>>, mstids: seq<nat>, n: nat, before: seq<nat>, after: seq<nat>) {
    forall i :: 0 <= i < |mstids| ==>
      At(rings, TreeHead(mstids[i])) == TreeRing(mstids[i], if i < n then after else before)
  }

  lemma ColumnAt(rings: map<Id, seq<Id>>, mstids: seq<nat>, n: nat, before: seq<nat>, after: seq<nat>)
    requires n < |mstids| && Columns(rings, mstids, n, before, after)
    ensures At(rings, TreeHead(mstids[n])) == TreeRing(mstids[n], before)
  {
  }

  lemma ColumnsStep(rings: map<Id, seq<Id>>, rings': map<Id, seq<Id>>, mstids: seq<nat>, n: nat, before: seq<nat>,
                    after: seq<nat>)
    requires NoDuplicates(mstids) && n < |mstids| && Columns(rings, mstids, n, before, after)
    requires At(rings', TreeHead(mstids[n])) == TreeRing(mstids[n], after)
    requires forall t :: t != mstids[n] ==> At(rings', TreeHead(t)) == At(rings, TreeHead(t))
    ensures Columns(rings', mstids, n + 1, before, after)
  {
    hide TreeRing;
  }

  /** The lists of the first `n` ports hold the trees `after`, those of the others `before`. */
  ghost predicate Rows(rings: map<Id, seq<Id>>, ports: seq<nat>, n: nat, before: seq<nat>, after: seq<nat>) {
    forall j :: 0 <= j < |ports| ==>
      At(rings, PortHead(ports[j])) == PortRing(ports[j], if j < n then after else before)
  }

  lemma RowAt(rings: map<Id, seq<Id>>, ports: seq<nat>, n: nat, before: seq<nat>, after: seq<nat>)
    requires n < |ports| && Rows(rings, ports, n, before, after)
    ensures At(rings, PortHead(ports[n])) == PortRing(ports[n], before)
  {
  }

  lemma RowsStep(rings: map<Id, seq<Id>>, rings': map<Id, seq<Id>>, ports: seq<nat>, n: nat, before: seq<nat>,
                 after: seq<nat>)
    requires NoDuplicates(ports) && n < |ports| && Rows(rings, ports, n, before, after)
    requires At(rings', PortHead(ports[n])) == PortRing(ports[n], after)
    requires forall p :: p != ports[n] ==> At(rings', PortHead(p)) == At(rings, PortHead(p))
    ensures Rows(rings', ports, n + 1, before, after)
  {
    hide PortRing;
  }

  lemma AscendingIsDistinct(mstids: seq<nat>)
    requires Ascending(mstids)
    ensures NoDuplicates(mstids)
  {
  }

  lemma PortRingGrows(p: nat, ts: seq<nat>, t: nat)
    ensures PortRing(p, ts + [t]) == PortRing(p, ts) + [PortList(p, t)]
    ensures t !in ts ==> PortList(p, t) !in PortRing(p, ts)
  {
  }

  lemma TreeRingGrows(t: nat, ps: seq<nat>, p: nat)
    ensures TreeRing(t, ps + [p]) == TreeRing(t, ps) + [TreeList(p, t)]
    ensures p !in ps ==> TreeList(p, t) !in TreeRing(t, ps)
  {
  }

  class PortTreeMesh {
    var links: Links
    ghost var rings: map<Id, seq<Id>>
    ghost var ports: seq<nat>
    ghost var mstids: seq<nat>

    ghost predicate Valid()
      reads this
    {
      Lists(links, rings) && MeshOf(rings, ports, mstids) && Ascending(mstids) && NoDuplicates(ports)
      && |mstids| <= Types.MAX_IMPLEMENTATION_MSTIS + 1
    }

    // ---- list.h -------------------------------------------------------------------------------------

    /** `INIT_LIST_HEAD`. */
    method InitHead(h: Id)
      requires Lists(links, rings) && h !in rings && HeadOf(h) == h
      modifies this`links, this`rings
      ensures Lists(links, rings) && rings == old(rings)[h := [h]]
    {
      InitKeepsLists(links, rings, h);
      links := Init(links, h);
      rings := rings[h := [h]];
    }

    /** `list_add`: `x` goes behind `pos`, which is the `k`-th of its list. */
    method ListAdd(x: Id, pos: Id, ghost h: Id, ghost k: nat)
      requires Lists(links, rings) && h in rings && k < |rings[h]| && pos == rings[h][k] && HeadOf(x) == h
      requires x !in rings[h]
      modifies this`links, this`rings
      ensures Lists(links, rings) && rings == old(rings)[h := InsertAt(old(rings)[h], k, x)]
    {
      NextInList(links, rings, h, k);
      AddKeepsLists(links, rings, h, k, x);
      links := Add(links, x, pos, links.next[pos]);
      rings := rings[h := InsertAt(rings[h], k, x)];
    }

    /** `list_add_tail`. */
    method ListAddTail(x: Id, h: Id)
      requires Lists(links, rings) && h in rings && HeadOf(x) == h && x !in rings[h]
      modifies this`links, this`rings
      ensures Lists(links, rings) && rings == old(rings)[h := old(rings)[h] + [x]]
    {
      ghost var k := |rings[h]| - 1;
      NextInList(links, rings, h, k);
      AddKeepsLists(links, rings, h, k, x);
      assert InsertAt(rings[h], k, x) == rings[h] + [x];
      links := Add(links, x, links.prev[h], h);
      rings := rings[h := rings[h] + [x]];
    }

    /** `list_del`, the entry being freed. */
    method ListDel(x: Id, ghost h: Id, ghost k: nat)
      requires Lists(links, rings) && h in rings && 0 < k < |rings[h]| && x == rings[h][k]
      modifies this`links, this`rings
      ensures Lists(links, rings) && rings == old(rings)[h := RemoveAt(old(rings)[h], k)]
    {
      DelKeepsLists(links, rings, h, k);
      links := Del(links, x);
      rings := rings[h := RemoveAt(rings[h], k)];
    }

    // ---- Ports --------------------------------------------------------------------------------------

    /** The mesh while the nodes of a new port are being made: those of the first `n` trees exist. */
    ghost predicate Growing(p: nat, n: nat)
      reads this
    {
      && n <= |mstids| && Lists(links, rings) && Ascending(mstids) && NoDuplicates(ports) && p !in ports
      && HeadsAre(rings, ports + [p], mstids)
      && At(rings, PortsHead) == PortsRing(ports) && At(rings, TreesHead) == TreesRing(mstids)
      && Rows(rings, ports, 0, mstids, mstids) && At(rings, PortHead(p)) == PortRing(p, mstids[..n])
      && Columns(rings, mstids, n, ports, ports + [p])
    }

    /** One tree more. */
    method AddNode(p: nat, t: nat, ghost n: nat)
      requires Growing(p, n) && n < |mstids| && mstids[n] == t
      modifies this`links, this`rings
      ensures Growing(p, n + 1) && Lists(links, rings) && At(rings, TreesHead) == TreesRing(mstids)
    {
      hide Lists, PortRing, TreeRing, PortsRing, TreesRing, Columns, Ascending;
      PortRingGrows(p, mstids[..n], t);
      TreeRingGrows(t, ports, p);
      assert mstids[..n + 1] == mstids[..n] + [t];
      ghost var before := rings;
      AscendingIsDistinct(mstids);
      ColumnAt(before, mstids, n, ports, ports + [p]);
      ListAddTail(PortList(p, t), PortHead(p));
      ListAddTail(TreeList(p, t), TreeHead(t));
      ColumnsStep(before, rings, mstids, n, ports, ports + [p]);
    }

    /** `MSTP_IN_port_create_and_add_tail`. */
    method CreatePort(p: nat)
      requires Valid() && p !in ports
      modifies this
      ensures Valid() && ports == old(ports) + [p] && mstids == old(mstids)
    {
      hide Lists, PortRing, TreeRing, PortsRing, TreesRing, Growing;
      StartPort(p);
      ghost var n := 0;
      var cur := NextTree(TreesHead, n);
      while cur != TreesHead
        invariant Growing(p, n) && Lists(links, rings) && At(rings, TreesHead) == TreesRing(mstids)
        invariant n <= |mstids| && cur == TreeAfter(mstids, n)
        invariant ports == old(ports) && mstids == old(mstids) && |mstids| <= Types.MAX_IMPLEMENTATION_MSTIS + 1
        decreases |mstids| - n
      {
        AddNode(p, cur.tree, n);
        n := n + 1;
        cur := NextTree(cur, n);
      }
      assert n == |mstids|;
      FinishPort(p);
    }

    /** The head of the new port's list. */
    method StartPort(p: nat)
      requires Valid() && p !in ports
      modifies this`links, this`rings
      ensures Growing(p, 0) && Lists(links, rings) && At(rings, TreesHead) == TreesRing(mstids)
    {
      hide Lists, TreeRing, PortsRing, TreesRing;
      InitHead(PortHead(p));
      assert PortRing(p, mstids[..0]) == [PortHead(p)];
    }

    /** The port joins the ports of the bridge. */
    method FinishPort(p: nat)
      requires Growing(p, |mstids|) && |mstids| <= Types.MAX_IMPLEMENTATION_MSTIS + 1
      modifies this
      ensures Valid() && ports == old(ports) + [p] && mstids == old(mstids)
    {
      hide Lists, PortRing, TreeRing, TreesRing;
      ghost var k := |ports|;
      assert PortsRing(ports + [p]) == PortsRing(ports) + [BrList(p)] && BrList(p) !in PortsRing(ports);
      assert mstids[..|mstids|] == mstids;
      ListAddTail(BrList(p), PortsHead);
      ports := ports + [p];
    }

    /** `next` of the `k`-th element of the list of trees. */
    method NextTree(cur: Id, ghost k: nat) returns (next: Id)
      requires Lists(links, rings) && At(rings, TreesHead) == TreesRing(mstids)
      requires k <= |mstids| && cur == if k == 0 then TreesHead else BridgeList(mstids[k - 1])
      ensures next == TreeAfter(mstids, k)
    {
      hide Lists;
      NextInList(links, rings, TreesHead, k);
      next := links.next[cur];
    }

    /** `MSTP_IN_bridge_create`: no ports, and the CIST. */
    constructor ()
      ensures Valid() && ports == [] && mstids == [0]
    {
      links, rings, ports, mstids := Links(map[], map[]), map[], [], [];
      new;
      hide Lists, MeshOf;
      MakeCist();
    }

    /** The lists of a bridge, with the CIST as their only tree. */
    method MakeCist()
      modifies this
      ensures Valid() && ports == [] && mstids == [0]
    {
      hide Lists, MeshOf, InsertAt;
      NoLists();
      links, rings, ports, mstids := Links(map[], map[]), map[], [], [0];
      InitHead(PortsHead);
      InitHead(TreesHead);
      InitHead(TreeHead(0));
      ListAddTail(BridgeList(0), TreesHead);
      FirstMesh(rings);
    }

    // ---- MSTIs --------------------------------------------------------------------------------------

    /** The mesh while the nodes of a new tree are being made: those of the first `n` ports exist. */
    ghost predicate Sprouting(t: nat, trees: seq<nat>, n: nat)
      reads this
    {
      && n <= |ports| && Lists(links, rings) && Ascending(mstids) && NoDuplicates(ports) && t !in mstids
      && HeadsAre(rings, ports, mstids + [t])
      && At(rings, PortsHead) == PortsRing(ports) && At(rings, TreesHead) == TreesRing(mstids)
      && Rows(rings, ports, n, mstids, trees) && Columns(rings, mstids, 0, ports, ports)
      && At(rings, TreeHead(t)) == TreeRing(t, ports[..n])
    }

    /** One port more: its new node goes behind that of the tree at position `a`. */
    method SproutNode(p: nat, ta: nat, t: nat, ghost a: nat, ghost n: nat)
      requires a < |mstids| && ta == mstids[a] && Sprouting(t, InsertNumber(mstids, a, t), n) && n < |ports|
      requires ports[n] == p
      modifies this`links, this`rings
      ensures Sprouting(t, InsertNumber(mstids, a, t), n + 1)
    {
      hide Lists, PortRing, TreeRing, PortsRing, TreesRing, Columns, Rows;
      ghost var before, trees := rings, InsertNumber(mstids, a, t);
      RowAt(before, ports, n, mstids, trees);
      PortRingInserts(p, mstids, a, t);
      TreeRingGrows(t, ports[..n], p);
      assert ports[..n + 1] == ports[..n] + [p];
      assert p !in ports[..n];
      ListAdd(PortList(p, t), PortList(p, ta), PortHead(p), a + 1);
      ListAddTail(TreeList(p, t), TreeHead(t));
      RowsStep(before, rings, ports, n, mstids, trees);
      assert Columns(rings, mstids, 0, ports, ports) by { ColumnsKept(before, rings, mstids, ports, t); }
    }

    /** `MSTP_IN_create_msti`. */
    method CreateMsti(t: nat) returns (ok: bool)
      requires Valid()
      modifies this
      ensures Valid() && ports == old(ports)
      ensures ok == (1 <= t <= Types.MAX_MSTID && (t in old(mstids) || |old(mstids)| <= Types.MAX_IMPLEMENTATION_MSTIS))
      ensures forall u :: u in mstids <==> u in old(mstids) || (ok && u == t)
    {
      hide Lists, PortRing, TreeRing, PortsRing, TreesRing, Sprouting, Rows, Columns;
      if t < 1 || t > Types.MAX_MSTID { return false; }
      var after, count := 0, 0;
      var cur := NextTree(TreesHead, 0);
      ghost var a, n := 0, 0;
      while cur != TreesHead
        invariant Valid() && ports == old(ports) && mstids == old(mstids) && n <= |mstids|
        invariant cur == TreeAfter(mstids, n) && count == n
        invariant forall i :: 0 <= i < n ==> mstids[i] != t
        invariant n > 0 ==> a < n && after == mstids[a] < t && forall i :: a < i < n ==> mstids[i] > t
        decreases |mstids| - n
      {
        if cur.tree == t { return true; }
        if cur.tree < t { after, a := cur.tree, n; }
        n, count := n + 1, count + 1;
        cur := NextTree(cur, n);
      }
      if Types.MAX_IMPLEMENTATION_MSTIS < count { return false; }
      Sprout(t, after, a);
      return true;
    }

    /** The part of `MSTP_IN_create_msti` that makes the nodes. */
    method Sprout(t: nat, after: nat, ghost a: nat)
      requires Valid() && 1 <= t <= Types.MAX_MSTID && t !in mstids && a < |mstids| <= Types.MAX_IMPLEMENTATION_MSTIS
      requires after == mstids[a] < t
      requires forall i :: a < i < |mstids| ==> mstids[i] > t
      modifies this
      ensures Valid() && ports == old(ports) && mstids == InsertNumber(old(mstids), a, t)
    {
      hide Lists, PortRing, TreeRing, PortsRing, TreesRing, Sprouting, Rows, Columns;
      ghost var trees := InsertNumber(mstids, a, t);
      StartTree(t, trees);
      ghost var n := 0;
      var cur := NextPort(TreeHead(after), after, a, n);
      while cur != TreeHead(after)
        invariant Sprouting(t, trees, n) && Lists(links, rings) && Columns(rings, mstids, 0, ports, ports)
        invariant n <= |ports| && cur == PortAfter(ports, after, n)
        invariant ports == old(ports) && mstids == old(mstids)
        decreases |ports| - n
      {
        SproutNode(cur.port, after, t, a, n);
        n := n + 1;
        SproutingLists(t, trees, n);
        cur := NextPort(cur, after, a, n);
      }
      FinishTree(t, after, a);
    }

    /** The head of the new tree's list. */
    method StartTree(t: nat, ghost trees: seq<nat>)
      requires Valid() && t !in mstids
      modifies this`links, this`rings
      ensures Sprouting(t, trees, 0) && Lists(links, rings) && Columns(rings, mstids, 0, ports, ports)
    {
      hide Lists, PortRing, PortsRing, TreesRing, Rows, Columns;
      ghost var before := rings;
      InitHead(TreeHead(t));
      assert TreeRing(t, ports[..0]) == [TreeHead(t)];
      assert Rows(rings, ports, 0, mstids, mstids) by { RowsKept(before, rings, ports, mstids); }
      RowsRestart(rings, ports, mstids, trees);
      ColumnsKept(before, rings, mstids, ports, t);
    }

    /** The tree joins the trees of the bridge. */
    method FinishTree(t: nat, after: nat, ghost a: nat)
      requires a < |mstids| <= Types.MAX_IMPLEMENTATION_MSTIS && after == mstids[a] < t <= Types.MAX_MSTID
      requires forall i :: a < i < |mstids| ==> mstids[i] > t
      requires Sprouting(t, InsertNumber(mstids, a, t), |ports|)
      modifies this
      ensures Valid() && ports == old(ports) && mstids == InsertNumber(old(mstids), a, t)
    {
      hide Lists, PortRing, TreeRing, PortsRing, TreesRing, Rows, Columns;
      ghost var before, trees := rings, InsertNumber(mstids, a, t);
      TreesRingInserts(mstids, a, t);
      InsertKeepsAscending(mstids, a, t);
      assert ports[..|ports|] == ports;
      RowsRestart(rings, ports, mstids, trees);
      ColumnsInsert(rings, mstids, ports, a, t);
      ListAdd(BridgeList(t), BridgeList(after), TreesHead, a + 1);
      RowsKept(before, rings, ports, trees);
      AllColumnsKept(before, rings, trees, ports);
      mstids := trees;
    }

    lemma SproutingLists(t: nat, trees: seq<nat>, n: nat)
      requires Sprouting(t, trees, n)
      ensures Lists(links, rings) && Columns(rings, mstids, 0, ports, ports)
    {
      hide Lists, Columns;
    }

    /** `next` of the `k`-th element of the list of a tree. */
    method NextPort(cur: Id, t: nat, ghost a: nat, ghost k: nat) returns (next: Id)
      requires Lists(links, rings) && Columns(rings, mstids, 0, ports, ports) && a < |mstids| && t == mstids[a]
      requires k <= |ports| && cur == if k == 0 then TreeHead(t) else TreeList(ports[k - 1], t)
      ensures next == PortAfter(ports, t, k)
    {
      hide Lists;
      assert At(rings, TreeHead(t)) == TreeRing(t, ports);
      NextInList(links, rings, TreeHead(t), k);
      next := links.next[cur];
    }

    // ---- Deletion -----------------------------------------------------------------------------------

    /** The mesh while the nodes of a port are being freed: those of the first `n` trees are gone. */
    ghost predicate Shrinking(p: nat, j: nat, n: nat)
      reads this
    {
      && n <= |mstids| && Lists(links, rings) && Ascending(mstids) && NoDuplicates(ports) && j < |ports| &&
        ports[j] == p
      && |mstids| <= Types.MAX_IMPLEMENTATION_MSTIS + 1
      && HeadsAre(rings, ports, mstids)
      && At(rings, PortsHead) == PortsRing(ports) && At(rings, TreesHead) == TreesRing(mstids)
      && At(rings, PortHead(p)) == PortRing(p, mstids[n..]) && Rows(rings, Without(ports, j), 0, mstids, mstids)
      && Columns(rings, mstids, n, ports, Without(ports, j))
    }

    /** One node less. */
    method FreeNode(p: nat, t: nat, ghost j: nat, ghost n: nat)
      requires Shrinking(p, j, n) && n < |mstids| && mstids[n] == t
      modifies this`links, this`rings
      ensures Shrinking(p, j, n + 1)
    {
      hide Lists, PortRing, TreeRing, PortsRing, TreesRing, Columns, Rows, Without;
      ghost var before, others := rings, Without(ports, j);
      AscendingIsDistinct(mstids);
      ColumnAt(before, mstids, n, ports, others);
      PortRingShrinks(p, mstids[n..]);
      assert mstids[n..][0] == t && mstids[n..][1..] == mstids[n + 1..];
      TreeRingRemoves(t, ports, j);
      ListDel(PortList(p, t), PortHead(p), 1);
      ListDel(TreeList(p, t), TreeHead(t), j + 1);
      ColumnsStep(before, rings, mstids, n, ports, others);
      WithoutElements(ports, j);
      OtherRowsKept(before, rings, others, mstids, p);
    }

    /** `MSTP_IN_delete_port`, once the state machines have run. */
    method DeletePort(p: nat, ghost j: nat)
      requires Valid() && j < |ports| && ports[j] == p
      modifies this
      ensures Valid() && ports == Without(old(ports), j) && mstids == old(mstids)
    {
      hide Lists, PortRing, TreeRing, PortsRing, TreesRing, Shrinking, Rows, Columns, Without;
      StartDeletion(p, j);
      ghost var n := 0;
      var cur := FirstNode(p, j, n);
      while cur != PortHead(p)
        invariant Shrinking(p, j, n) && n <= |mstids| && cur == NodeAfter(mstids, p, n)
        invariant ports == old(ports) && mstids == old(mstids) && j < |ports|
        decreases |mstids| - n
      {
        FreeNode(p, cur.tree, j, n);
        n := n + 1;
        cur := FirstNode(p, j, n);
      }
      FinishDeletion(p, j);
    }

    lemma StartDeletion(p: nat, j: nat)
      requires Valid() && j < |ports| && ports[j] == p
      ensures Shrinking(p, j, 0)
    {
      hide Lists, PortRing, TreeRing, PortsRing, TreesRing;
      assert mstids[0..] == mstids;
      assert At(rings, PortHead(ports[j])) == PortRing(p, mstids);
      var others := Without(ports, j);
      forall i | 0 <= i < |others| ensures At(rings, PortHead(others[i])) == PortRing(others[i], mstids) {
        var k := if i < j then i else i + 1;
        assert others[i] == ports[k] && At(rings, PortHead(ports[k])) == PortRing(ports[k], mstids);
      }
    }

    /** The first node of the port that is still there. */
    method FirstNode(p: nat, ghost j: nat, ghost n: nat) returns (node: Id)
      requires Shrinking(p, j, n) && n <= |mstids|
      ensures node == NodeAfter(mstids, p, n)
    {
      hide Lists, Columns, Rows, PortsRing, TreesRing;
      NextInList(links, rings, PortHead(p), 0);
      node := links.next[PortHead(p)];
    }

    /** The port leaves the ports of the bridge. */
    method FinishDeletion(p: nat, ghost j: nat)
      requires Shrinking(p, j, |mstids|)
      modifies this
      ensures Valid() && ports == Without(old(ports), j) && mstids == old(mstids)
    {
      hide Lists, TreeRing, PortsRing, TreesRing, Rows, Columns, Without;
      ghost var before, others := rings, Without(ports, j);
      PortsRingRemoves(ports, j);
      WithoutElements(ports, j);
      assert PortRing(p, mstids[|mstids|..]) == [PortHead(p)];
      ListDel(BrList(p), PortsHead, j + 1);
      FreeKeepsLists(links, rings, PortHead(p));
      links := Links(links.next - {PortHead(p)}, links.prev - {PortHead(p)});
      rings := rings - {PortHead(p)};
      OtherRowsKept(before, rings, others, mstids, p);
      ColumnsRestart(before, mstids, ports, others);
      AllColumnsKept(before, rings, mstids, others);
      ports := others;
    }

    /** The mesh while the nodes of a tree are being freed: those of the first `n` ports are gone. */
    ghost predicate Wilting(t: nat, a: nat, n: nat)
      reads this
    {
      && n <= |ports| && Lists(links, rings) && Ascending(mstids) && NoDuplicates(ports) && 0 < a < |mstids| &&
        mstids[a] == t
      && |mstids| <= Types.MAX_IMPLEMENTATION_MSTIS + 1
      && HeadsAre(rings, ports, mstids)
      && At(rings, PortsHead) == PortsRing(ports) && At(rings, TreesHead) == TreesRing(Without(mstids, a))
      && At(rings, TreeHead(t)) == TreeRing(t, ports[n..]) && Columns(rings, Without(mstids, a), 0, ports, ports)
      && Rows(rings, ports, n, mstids, Without(mstids, a))
    }

    method WiltNode(p: nat, t: nat, ghost a: nat, ghost n: nat)
      requires Wilting(t, a, n) && n < |ports| && ports[n] == p
      modifies this`links, this`rings
      ensures Wilting(t, a, n + 1)
    {
      hide Lists, PortRing, TreeRing, PortsRing, TreesRing, Columns, Rows, Without;
      ghost var before, others := rings, Without(mstids, a);
      RowAt(before, ports, n, mstids, others);
      TreeRingShrinks(t, ports[n..]);
      assert ports[n..][0] == p && ports[n..][1..] == ports[n + 1..];
      PortRingRemoves(p, mstids, a);
      ListDel(PortList(p, t), PortHead(p), a + 1);
      ListDel(TreeList(p, t), TreeHead(t), 1);
      RowsStep(before, rings, ports, n, mstids, others);
      AscendingIsDistinct(mstids);
      WithoutElements(mstids, a);
      ColumnsKept(before, rings, others, ports, t);
    }

    /** `MSTP_IN_delete_msti`; `inUse` says whether a FID is allocated to the MSTI. */
    method DeleteMsti(t: nat, inUse: bool) returns (ok: bool)
      requires Valid()
      modifies this
      ensures Valid() && ports == old(ports) && ok == (1 <= t <= Types.MAX_MSTID && !inUse)
      ensures forall u :: u in mstids <==> u in old(mstids) && !(ok && u == t)
    {
      hide Lists, PortRing, TreeRing, PortsRing, TreesRing, Wilting, Rows, Columns;
      if t < 1 || t > Types.MAX_MSTID || inUse { return false; }
      var cur := NextTree(TreesHead, 0);
      ghost var n := 0;
      while cur != TreesHead
        invariant Valid() && ports == old(ports) && mstids == old(mstids) && n <= |mstids|
        invariant cur == TreeAfter(mstids, n)
        invariant forall i :: 0 <= i < n ==> mstids[i] != t
        decreases |mstids| - n
      {
        if cur.tree == t {
          Wilt(t, n);
          return true;
        }
        n := n + 1;
        cur := NextTree(cur, n);
      }
      return true;
    }

    /** The part of `MSTP_IN_delete_msti` that frees the nodes. */
    method Wilt(t: nat, ghost a: nat)
      requires Valid() && 0 < a < |mstids| && mstids[a] == t
      modifies this
      ensures Valid() && ports == old(ports) && mstids == Without(old(mstids), a)
      ensures forall u :: u in mstids <==> u in old(mstids) && u != t
    {
      hide Lists, PortRing, TreeRing, PortsRing, TreesRing, Wilting, Rows, Columns, Without;
      StartWilting(t, a);
      ghost var n := 0;
      var cur := FirstOfTree(t, a, n);
      while cur != TreeHead(t)
        invariant Wilting(t, a, n) && n <= |ports| && cur == PortAfter(ports, t, n)
        invariant ports == old(ports) && mstids == old(mstids) && a < |mstids|
        decreases |ports| - n
      {
        WiltNode(cur.port, t, a, n);
        n := n + 1;
        cur := FirstOfTree(t, a, n);
      }
      FinishWilting(t, a);
    }

    method StartWilting(t: nat, ghost a: nat)
      requires Valid() && 0 < a < |mstids| && mstids[a] == t
      modifies this`links, this`rings
      ensures Wilting(t, a, 0)
    {
      hide Lists, PortRing, TreeRing, PortsRing, TreesRing, Rows, Without;
      ghost var before, others := rings, Without(mstids, a);
      assert ports[0..] == ports;
      assert At(rings, TreeHead(mstids[a])) == TreeRing(t, ports);
      TreesRingRemoves(mstids, a);
      ListDel(BridgeList(t), TreesHead, a + 1);
      RowsKept(before, rings, ports, mstids);
      RowsRestart(rings, ports, mstids, others);
      ColumnsWithout(before, rings, mstids, ports, a);
    }

    method FirstOfTree(t: nat, ghost a: nat, ghost n: nat) returns (node: Id)
      requires Wilting(t, a, n) && n <= |ports|
      ensures node == PortAfter(ports, t, n)
    {
      hide Lists, Columns, Rows, PortsRing, TreesRing;
      NextInList(links, rings, TreeHead(t), 0);
      node := links.next[TreeHead(t)];
    }

    method FinishWilting(t: nat, ghost a: nat)
      requires Wilting(t, a, |ports|)
      modifies this
      ensures Valid() && ports == old(ports) && mstids == Without(old(mstids), a)
      ensures forall u :: u in mstids <==> u in old(mstids) && u != t
    {
      hide Lists, PortRing, PortsRing, TreesRing, Rows, Columns, Without;
      ghost var before, others := rings, Without(mstids, a);
      AscendingIsDistinct(mstids);
      WithoutElements(mstids, a);
      WithoutKeepsAscending(mstids, a);
      assert TreeRing(t, ports[|ports|..]) == [TreeHead(t)];
      FreeKeepsLists(links, rings, TreeHead(t));
      links := Links(links.next - {TreeHead(t)}, links.prev - {TreeHead(t)});
      rings := rings - {TreeHead(t)};
      RowsRestart(before, ports, mstids, others);
      RowsKept(before, rings, ports, others);
      ColumnsKept(before, rings, others, ports, t);
      mstids := others;
    }
  }

  /** What comes after the first `k` trees in the list of trees. */
  function TreeAfter(mstids: seq<nat>, k: nat): Id
    requires k <= |mstids|
  {
    if k == |mstids| then TreesHead else BridgeList(mstids[k])
  }

  /** What comes after the first `k` ports in the list of a tree. */
  function PortAfter(ports: seq<nat>, t: nat, k: nat): Id
    requires k <= |ports|
  {
    if k == |ports| then TreeHead(t) else TreeList(ports[k], t)
  }

  function InsertNumber(s: seq<nat>, a: nat, t: nat): seq<nat>
    requires a < |s|
  {
    s[..a + 1] + [t] + s[a + 1..]
  }

  lemma PortRingInserts(p: nat, ts: seq<nat>, a: nat, t: nat)
    requires a < |ts|
    ensures InsertAt(PortRing(p, ts), a + 1, PortList(p, t)) == PortRing(p, InsertNumber(ts, a, t))
    ensures PortRing(p, ts)[a + 1] == PortList(p, ts[a])
    ensures t !in ts ==> PortList(p, t) !in PortRing(p, ts)
  {
  }

  lemma TreesRingInserts(ts: seq<nat>, a: nat, t: nat)
    requires a < |ts|
    ensures InsertAt(TreesRing(ts), a + 1, BridgeList(t)) == TreesRing(InsertNumber(ts, a, t))
    ensures TreesRing(ts)[a + 1] == BridgeList(ts[a])
    ensures t !in ts ==> BridgeList(t) !in TreesRing(ts)
  {
  }

  lemma ColumnsKept(rings: map<Id, seq<Id>>, rings': map<Id, seq<Id>>, mstids: seq<nat>, ports: seq<nat>, t: nat)
    requires t !in mstids && Columns(rings, mstids, 0, ports, ports)
    requires forall u :: u != t ==> At(rings', TreeHead(u)) == At(rings, TreeHead(u))
    ensures Columns(rings', mstids, 0, ports, ports)
  {
    hide TreeRing;
  }

  lemma RowsRestart(rings: map<Id, seq<Id>>, ports: seq<nat>, before: seq<nat>, after: seq<nat>)
    ensures Rows(rings, ports, 0, before, before) ==> Rows(rings, ports, 0, before, after)
    ensures Rows(rings, ports, |ports|, before, after) ==> Rows(rings, ports, 0, after, after)
  {
  }

  lemma ColumnsInsert(rings: map<Id, seq<Id>>, mstids: seq<nat>, ports: seq<nat>, a: nat, t: nat)
    requires a < |mstids| && Columns(rings, mstids, 0, ports, ports) && At(rings, TreeHead(t)) == TreeRing(t, ports)
    ensures Columns(rings, InsertNumber(mstids, a, t), 0, ports, ports)
  {
    hide TreeRing;
    var ts := InsertNumber(mstids, a, t);
    forall i | 0 <= i < |ts| ensures At(rings, TreeHead(ts[i])) == TreeRing(ts[i], ports) {
      if i <= a { assert ts[i] == mstids[i]; } else if i > a + 1 { assert ts[i] == mstids[i - 1]; }
    }
  }

  lemma InsertKeepsAscending(mstids: seq<nat>, a: nat, t: nat)
    requires Ascending(mstids) && a < |mstids| && mstids[a] < t <= Types.MAX_MSTID
    requires forall i :: a < i < |mstids| ==> mstids[i] > t
    ensures Ascending(InsertNumber(mstids, a, t))
    ensures forall u :: u in InsertNumber(mstids, a, t) <==> u in mstids || u == t
  {
    assert mstids == mstids[..a + 1] + mstids[a + 1..];
  }

  lemma RowsKept(rings: map<Id, seq<Id>>, rings': map<Id, seq<Id>>, ports: seq<nat>, mstids: seq<nat>)
    requires Rows(rings, ports, 0, mstids, mstids) && forall p :: At(rings', PortHead(p)) == At(rings, PortHead(p))
    ensures Rows(rings', ports, 0, mstids, mstids)
  {
    hide PortRing;
  }

  lemma AllColumnsKept(rings: map<Id, seq<Id>>, rings': map<Id, seq<Id>>, mstids: seq<nat>, ports: seq<nat>)
    requires Columns(rings, mstids, 0, ports, ports) && forall t :: At(rings', TreeHead(t)) == At(rings, TreeHead(t))
    ensures Columns(rings', mstids, 0, ports, ports)
  {
    hide TreeRing;
  }

  lemma NoLists()
    ensures Lists(Links(map[], map[]), map[])
  {
  }

  lemma FirstMesh(rings: map<Id, seq<Id>>)
    requires rings ==
        map[][PortsHead := [PortsHead]][TreesHead := [TreesHead]][TreeHead(0) := [TreeHead(0)]]
             [TreesHead := [TreesHead] + [BridgeList(0)]]
    ensures MeshOf(rings, [], [0])
  {
    assert PortsRing([]) == [PortsHead] && TreesRing([0]) == [TreesHead, BridgeList(0)] &&
      TreeRing(0, []) == [TreeHead(0)];
  }

  /** The first node of a port after those of the first `k` trees. */
  function NodeAfter(mstids: seq<nat>, p: nat, k: nat): Id
    requires k <= |mstids|
  {
    if k == |mstids| then PortHead(p) else PortList(p, mstids[k])
  }

  function Without(s: seq<nat>, j: nat): seq<nat>
    requires j < |s|
  {
    s[..j] + s[j + 1..]
  }

  lemma WithoutElements(s: seq<nat>, j: nat)
    requires NoDuplicates(s) && j < |s|
    ensures |Without(s, j)| == |s| - 1 && NoDuplicates(Without(s, j))
    ensures forall x :: x in Without(s, j) <==> x in s && x != s[j]
  {
    assert s == s[..j] + [s[j]] + s[j + 1..];
  }

  lemma WithoutKeepsAscending(s: seq<nat>, a: nat)
    requires Ascending(s) && 0 < a < |s|
    ensures Ascending(Without(s, a))
  {
  }

  lemma PortRingShrinks(p: nat, ts: seq<nat>)
    requires |ts| > 0
    ensures PortRing(p, ts)[1] == PortList(p, ts[0]) && RemoveAt(PortRing(p, ts), 1) == PortRing(p, ts[1..])
  {
  }

  lemma TreeRingShrinks(t: nat, ps: seq<nat>)
    requires |ps| > 0
    ensures TreeRing(t, ps)[1] == TreeList(ps[0], t) && RemoveAt(TreeRing(t, ps), 1) == TreeRing(t, ps[1..])
  {
  }

  lemma TreeRingRemoves(t: nat, ps: seq<nat>, j: nat)
    requires j < |ps|
    ensures TreeRing(t, ps)[j + 1] == TreeList(ps[j], t)
    ensures RemoveAt(TreeRing(t, ps), j + 1) == TreeRing(t, Without(ps, j))
  {
  }

  lemma PortRingRemoves(p: nat, ts: seq<nat>, a: nat)
    requires a < |ts|
    ensures PortRing(p, ts)[a + 1] == PortList(p, ts[a])
    ensures RemoveAt(PortRing(p, ts), a + 1) == PortRing(p, Without(ts, a))
  {
  }

  lemma PortsRingRemoves(ps: seq<nat>, j: nat)
    requires j < |ps|
    ensures PortsRing(ps)[j + 1] == BrList(ps[j]) && RemoveAt(PortsRing(ps), j + 1) == PortsRing(Without(ps, j))
  {
  }

  lemma TreesRingRemoves(ts: seq<nat>, a: nat)
    requires a < |ts|
    ensures TreesRing(ts)[a + 1] == BridgeList(ts[a]) && RemoveAt(TreesRing(ts), a + 1) == TreesRing(Without(ts, a))
  {
  }

  lemma OtherRowsKept(rings: map<Id, seq<Id>>, rings': map<Id, seq<Id>>, others: seq<nat>, mstids: seq<nat>, p: nat)
    requires Rows(rings, others, 0, mstids, mstids) && p !in others
    requires forall q :: q != p ==> At(rings', PortHead(q)) == At(rings, PortHead(q))
    ensures Rows(rings', others, 0, mstids, mstids)
  {
    hide PortRing;
  }

  lemma ColumnsRestart(rings: map<Id, seq<Id>>, mstids: seq<nat>, before: seq<nat>, after: seq<nat>)
    requires Columns(rings, mstids, |mstids|, before, after)
    ensures Columns(rings, mstids, 0, after, after)
  {
    hide TreeRing;
  }

  lemma ColumnsWithout(rings: map<Id, seq<Id>>, rings': map<Id, seq<Id>>, mstids: seq<nat>, ports: seq<nat>, a: nat)
    requires a < |mstids| && Columns(rings, mstids, 0, ports, ports)
    requires forall t :: At(rings', TreeHead(t)) == At(rings, TreeHead(t))
    ensures Columns(rings', Without(mstids, a), 0, ports, ports)
  {
    hide TreeRing;
    var others := Without(mstids, a);
    forall i | 0 <= i < |others| ensures At(rings', TreeHead(others[i])) == TreeRing(others[i], ports) {
      assert others[i] == mstids[if i < a then i else i + 1];
    }
  }
}
