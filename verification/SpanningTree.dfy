/**
 What agreement of neighbouring bridges means for a whole network.

 A labelling is what remains of a network at rest when everything but root, cost and roles is forgotten.
 Module NetworkAtRest shows that the engine leaves such a labelling behind.
 */
module SpanningTree {
  import opened Types

  /** A port of a bridge, both by number. */
  datatype End = End(bridge: nat, port: nat)

  /** `peer` joins the two ends of every link that is up; `active` are the ends of links without an
      Alternate, Backup or Disabled end. */
  datatype Labelling = Labelling(ids: seq<int>, root: seq<int>, cost: seq<int>, rootPort: seq<Option<nat>>,
                                 peer: map<End, End>, weight: map<End, int>, active: set<End>)

  /** Is (root, cost) at least as good as (root', cost')? */
  predicate AtLeastAsGood(root: int, cost: int, root': int, cost': int) {
    root < root' || (root == root' && cost <= cost')
  }

  predicate Sized(l: Labelling) {
    |l.ids| == |l.root| == |l.cost| == |l.rootPort| && l.peer.Keys <= l.weight.Keys
    && (forall e :: e in l.peer ==> e.bridge < |l.ids|)
  }

  /** Links join different ports, symmetrically, and every port cost is positive. */
  predicate Linked(l: Labelling)
    requires Sized(l)
  {
    forall e :: e in l.peer ==> l.peer[e] != e && l.peer[e] in l.peer && l.peer[l.peer[e]] == e && l.weight[e] >= 1
  }

  predicate IsRootPort(l: Labelling, e: End)
    requires Sized(l) && e.bridge < |l.ids|
  {
    l.rootPort[e.bridge] == Some(e.port)
  }

  /** A bridge without a root port is its own root; one with a root port takes root and cost from the other end. */
  predicate Rooted(l: Labelling, v: nat)
    requires Sized(l) && Linked(l) && v < |l.ids|
  {
    match l.rootPort[v]
    case None => l.root[v] == l.ids[v] && l.cost[v] == 0
    case Some(p) =>
      var e := End(v, p);
      && e in l.active && e in l.peer && l.root[v] == l.root[l.peer[e].bridge]
      && l.cost[v] == l.cost[l.peer[e].bridge] + l.weight[e]
  }

  /** Neither the bridge itself nor a neighbour offers anything better. */
  predicate Stable(l: Labelling)
    requires Sized(l) && Linked(l)
  {
    && (forall v :: 0 <= v < |l.ids| ==> AtLeastAsGood(l.root[v], l.cost[v], l.ids[v], 0))
    && (forall e :: e in l.peer ==>
         AtLeastAsGood(l.root[e.bridge], l.cost[e.bridge], l.root[l.peer[e].bridge],
             l.cost[l.peer[e].bridge] + l.weight[e]))
  }

  /** An active link is the root port of one of its ends. */
  predicate ActiveLinks(l: Labelling)
    requires Sized(l) && Linked(l)
  {
    forall e :: e in l.active ==> e in l.peer && l.peer[e] in l.active && (IsRootPort(l, e) || IsRootPort(l, l.peer[e]))
  }

  predicate AtRest(l: Labelling) {
    && Sized(l) && Linked(l) && Stable(l) && ActiveLinks(l)
    && (forall v, w :: 0 <= v < |l.ids| && 0 <= w < |l.ids| && l.ids[v] == l.ids[w] ==> v == w)
    && (forall v :: 0 <= v < |l.ids| ==> Rooted(l, v) && l.cost[v] >= 0)
  }

  // ---- Walks ----------------------------------------------------------------------------------------

  /** Leaving `v` through the first end of the path, and so on, one arrives at `w`.  Only links of `links` are used. */
  predicate Walk(l: Labelling, links: set<End>, v: nat, path: seq<End>, w: nat)
    decreases path
  {
    if path == [] then v == w
    else
      var e := path[0];
      e in links && e in l.peer && e.bridge == v && Walk(l, links, l.peer[e].bridge, path[1..], w)
  }

  /** What the path costs: the costs of the ports through which it is left. */
  function PathCost(l: Labelling, path: seq<End>): int
    requires forall e :: e in path ==> e in l.weight
  {
    if path == [] then 0 else l.weight[path[0]] + PathCost(l, path[1..])
  }

  lemma {:induction false} WalkUsesLinks(l: Labelling, links: set<End>, v: nat, path: seq<End>, w: nat)
    requires Sized(l) && Walk(l, links, v, path, w)
    ensures forall e :: e in path ==> e in l.peer && e in links
    decreases path
  {
    if path != [] { WalkUsesLinks(l, links, l.peer[path[0]].bridge, path[1..], w); }
  }

  lemma {:induction false} JoinWalks(l: Labelling, links: set<End>, u: nat, path: seq<End>, v: nat, path': seq<End>,
                                     w: nat)
    requires Walk(l, links, u, path, v) && Walk(l, links, v, path', w)
    ensures Walk(l, links, u, path + path', w)
    decreases path
  {
    if path == [] {
      assert path + path' == path';
    } else {
      JoinWalks(l, links, l.peer[path[0]].bridge, path[1..], v, path', w);
      assert (path + path')[1..] == path[1..] + path';
    }
  }

  /** The same links, walked back. */
  function Back(l: Labelling, path: seq<End>): seq<End> {
    if path == [] then [] else Back(l, path[1..]) + (if path[0] in l.peer then [l.peer[path[0]]] else [])
  }

  lemma {:induction false} WalkBack(l: Labelling, links: set<End>, v: nat, path: seq<End>, w: nat)
    requires Sized(l) && Linked(l) && Walk(l, links, v, path, w)
    requires forall e :: e in links && e in l.peer ==> l.peer[e] in links
    ensures Walk(l, links, w, Back(l, path), v)
    decreases path
  {
    if path != [] {
      var f := l.peer[path[0]];
      WalkBack(l, links, f.bridge, path[1..], w);
      assert Walk(l, links, v, [], v);
      assert [f][1..] == [];
      assert Walk(l, links, f.bridge, [f], v);
      JoinWalks(l, links, w, Back(l, path[1..]), f.bridge, [f], v);
    }
  }

  // ---- Root agreement and least cost ----------------------------------------------------------------

  /** What being at rest says of one end. */
  lemma Neighbour(l: Labelling, e: End)
    requires AtRest(l) && e in l.peer
    ensures var w := l.peer[e].bridge;
      && e.bridge < |l.ids| && w < |l.ids| && e in l.weight
      && AtLeastAsGood(l.root[e.bridge], l.cost[e.bridge], l.root[w], l.cost[w] + l.weight[e])
  {
    assert l.peer[e] in l.peer;
  }

  lemma OwnOffer(l: Labelling, v: nat)
    requires AtRest(l) && v < |l.ids|
    ensures AtLeastAsGood(l.root[v], l.cost[v], l.ids[v], 0) && l.active <= l.peer.Keys
  {
  }

  /** Along any path, what the first bridge believes is at least as good as what the last one offers. */
  lemma {:induction false} NothingBetterAlong(l: Labelling, v: nat, path: seq<End>, w: nat)
    requires AtRest(l) && v < |l.ids| && Walk(l, l.peer.Keys, v, path, w)
    ensures w < |l.ids| && forall e :: e in path ==> e in l.weight
    ensures AtLeastAsGood(l.root[v], l.cost[v], l.root[w], l.cost[w] + PathCost(l, path))
    decreases path
  {
    hide Linked, Stable, ActiveLinks, Rooted;
    WalkUsesLinks(l, l.peer.Keys, v, path, w);
    if path != [] {
      Neighbour(l, path[0]);
      NothingBetterAlong(l, l.peer[path[0]].bridge, path[1..], w);
    }
  }

  /** The bridge at the end of the chain of root ports from `v`. */
  function RootOf(l: Labelling, v: nat): (r: nat)
    requires AtRest(l) && v < |l.ids|
    ensures r < |l.ids| && l.ids[r] == l.root[v]
    decreases l.cost[v]
  {
    if l.rootPort[v].None? then v
    else
      assert Rooted(l, v);
      var w := l.peer[End(v, l.rootPort[v].value)];
      assert w in l.peer;
      RootOf(l, w.bridge)
  }

  /** The path through the root ports. */
  function RootPathOf(l: Labelling, v: nat): (path: seq<End>)
    requires AtRest(l) && v < |l.ids|
    ensures Walk(l, l.active, v, path, RootOf(l, v))
    ensures forall e :: e in path ==> e in l.weight
    ensures PathCost(l, path) == l.cost[v]
    decreases l.cost[v]
  {
    if l.rootPort[v].None? then (assert Rooted(l, v); [])
    else
      assert Rooted(l, v);
      var e := End(v, l.rootPort[v].value);
      assert l.peer[e] in l.peer;
      var rest := RootPathOf(l, l.peer[e].bridge);
      assert ([e] + rest)[1..] == rest;
      [e] + rest
  }

  lemma {:induction false} WalkInMoreLinks(l: Labelling, links: set<End>, more: set<End>, v: nat, path: seq<End>,
                                           w: nat)
    requires Walk(l, links, v, path, w) && links <= more
    ensures Walk(l, more, v, path, w)
    decreases path
  {
    if path != [] { WalkInMoreLinks(l, links, more, l.peer[path[0]].bridge, path[1..], w); }
  }

  /** Root agreement: a bridge believes in the smallest identifier it is connected to, and all the bridges it is
      connected to believe in the same. */
  lemma RootAgreement(l: Labelling, v: nat, path: seq<End>, w: nat)
    requires AtRest(l) && v < |l.ids| && Walk(l, l.peer.Keys, v, path, w)
    ensures w < |l.ids| && l.root[v] == l.root[w]
    ensures l.root[v] <= l.ids[w]
    ensures l.ids[RootOf(l, v)] == l.root[v] && Walk(l, l.peer.Keys, v, RootPathOf(l, v), RootOf(l, v))
  {
    hide Stable, ActiveLinks, Rooted;
    NothingBetterAlong(l, v, path, w);
    assert forall e :: e in l.peer ==> l.peer[e] in l.peer;
    WalkBack(l, l.peer.Keys, v, path, w);
    NothingBetterAlong(l, w, Back(l, path), v);
    OwnOffer(l, w);
    WalkInMoreLinks(l, l.active, l.peer.Keys, v, RootPathOf(l, v), RootOf(l, v));
  }

  /** Least cost: the cost a bridge holds is that of some path to the root, and no path to the root costs less. */
  lemma LeastCost(l: Labelling, v: nat, path: seq<End>)
    requires AtRest(l) && v < |l.ids| && Walk(l, l.peer.Keys, v, path, RootOf(l, v))
    ensures forall e :: e in path ==> e in l.weight
    ensures PathCost(l, RootPathOf(l, v)) == l.cost[v] <= PathCost(l, path)
  {
    hide AtRest, Walk, RootOf, RootPathOf, PathCost, Back;
    var r := RootOf(l, v);
    NothingBetterAlong(l, v, path, r);
    OwnOffer(l, r);
  }

  // ---- The active links are a spanning tree ---------------------------------------------------------

  /** Two bridges that are connected at all are connected by active links. */
  lemma ActiveLinksSpan(l: Labelling, v: nat, path: seq<End>, w: nat)
    requires AtRest(l) && v < |l.ids| && Walk(l, l.peer.Keys, v, path, w)
    ensures w < |l.ids| && Walk(l, l.active, v, RootPathOf(l, v) + Back(l, RootPathOf(l, w)), w)
  {
    RootAgreement(l, v, path, w);
    assert RootOf(l, v) == RootOf(l, w);
    WalkBack(l, l.active, w, RootPathOf(l, w), RootOf(l, w));
    JoinWalks(l, l.active, v, RootPathOf(l, v), RootOf(l, v), Back(l, RootPathOf(l, w)), w);
  }

  /** The bridge from which the next link of a closed walk starts. */
  function NextBridge(c: seq<End>, i: nat): nat
    requires i < |c|
  {
    if i + 1 == |c| then c[0].bridge else c[i + 1].bridge
  }

  /** Leaving through the `i`-th end one arrives where the next link starts. */
  predicate LeadsOn(l: Labelling, links: set<End>, c: seq<End>, i: nat)
    requires i < |c|
  {
    c[i] in links && c[i] in l.peer && l.peer[c[i]].bridge == NextBridge(c, i)
  }

  /** Two positions of a closed walk use different links. */
  predicate DifferentLinks(l: Labelling, e: End, f: End) { e != f && f in l.peer && e != l.peer[f] }

  /** A closed walk that uses no link twice. */
  predicate Cycle(l: Labelling, links: set<End>, c: seq<End>) {
    && |c| > 0
    && (forall i :: 0 <= i < |c| ==> LeadsOn(l, links, c, i))
    && (forall i, j :: 0 <= i < |c| && 0 <= j < |c| && i != j ==> DifferentLinks(l, c[i], c[j]))
  }

  /** The position of a bridge of greatest cost. */
  lemma {:induction false} Farthest(l: Labelling, c: seq<End>) returns (m: nat)
    requires |c| > 0 && forall i :: 0 <= i < |c| ==> c[i].bridge < |l.cost|
    ensures m < |c| && forall i :: 0 <= i < |c| ==> l.cost[c[i].bridge] <= l.cost[c[m].bridge]
  {
    m := 0;
    if |c| > 1 {
      var k := Farthest(l, c[1..]);
      if l.cost[c[0].bridge] < l.cost[c[1..][k].bridge] { m := k + 1; }
      assert forall i :: 1 <= i < |c| ==> c[i] == c[1..][i - 1];
    }
  }

  /** The end of an active link that is farther from the root is a root port. */
  lemma FartherEndIsRootPort(l: Labelling, e: End)
    requires AtRest(l) && e in l.active && l.cost[l.peer[e].bridge] <= l.cost[e.bridge]
    ensures IsRootPort(l, e) && l.peer[e].bridge != e.bridge
  {
    var f := l.peer[e];
    assert f in l.peer && l.peer[f] == e;
    assert Rooted(l, e.bridge) && Rooted(l, f.bridge);
  }

  /** An end of an active link, and the other end. */
  lemma ActiveEnd(l: Labelling, e: End)
    requires AtRest(l) && e in l.active
    ensures e in l.peer && e.bridge < |l.cost| == |l.ids| && l.peer[e] in l.active && l.peer[e] in l.peer
    ensures l.peer[l.peer[e]] == e
    ensures l.peer[e].bridge < |l.cost|
  {
  }

  /** There is no cycle of active links. */
  lemma ActiveLinksAreAcyclic(l: Labelling, c: seq<End>)
    requires AtRest(l)
    ensures !Cycle(l, l.active, c)
  {
    hide AtRest, IsRootPort;
    if Cycle(l, l.active, c) {
      forall i | 0 <= i < |c| ensures c[i].bridge < |l.cost| {
        assert LeadsOn(l, l.active, c, i);
        ActiveEnd(l, c[i]);
      }
      var m := Farthest(l, c);
      var before := if m == 0 then |c| - 1 else m - 1;
      assert LeadsOn(l, l.active, c, m) && LeadsOn(l, l.active, c, before);
      var e, f := c[m], l.peer[c[before]];
      ActiveEnd(l, c[before]);
      ActiveEnd(l, e);
      FartherEndIsRootPort(l, e);
      FartherEndIsRootPort(l, f);
      OneRootPort(l, e, f);
    }
  }

  lemma OneRootPort(l: Labelling, e: End, f: End)
    requires Sized(l) && e.bridge == f.bridge < |l.ids| && IsRootPort(l, e) && IsRootPort(l, f)
    ensures e == f
  {
  }

  lemma CycleInMoreLinks(l: Labelling, links: set<End>, more: set<End>, c: seq<End>)
    requires Cycle(l, links, c) && links <= more
    ensures Cycle(l, more, c)
  {
    forall i | 0 <= i < |c| ensures LeadsOn(l, more, c, i) {
      assert LeadsOn(l, links, c, i);
    }
  }
}
