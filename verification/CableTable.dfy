/**
 Virtual cables and carriers of the browser build (wasm/wasm_api.c:270-415, 774-781 and 862-1002).
 A port is up when it is enabled and, with a cable plugged in, the far end is enabled too.
 */
module CableTable {

  const MAX_PORTS := 4096

  /** `live` is the port pointer being non-null; `up` is what the port was last told. */
  datatype Slot = Slot(live: bool, bridge: int, peer: int, adminUp: bool, mute: bool, up: bool)

  const FREE := Slot(false, 0, -1, false, false, false)

  /** A call of `MSTP_IN_set_port_enable`, with the carrier of the far end (true without a cable) at that moment. */
  datatype Call = Call(port: int, up: bool, farEndUp: bool)

  // ---- The table as a value -------------------------------------------------------------------------

  /** `port_handle_ok`. */
  predicate Ok(s: seq<Slot>, h: int) { 0 <= h < |s| && s[h].live }

  predicate Carrier(s: seq<Slot>, h: int)
    requires Ok(s, h)
  {
    s[h].adminUp && (Ok(s, s[h].peer) ==> s[s[h].peer].adminUp)
  }

  /** A cable has two ends that know each other; a port without a cable says so. */
  predicate CableOk(s: seq<Slot>, h: int)
    requires Ok(s, h)
  {
    if Ok(s, s[h].peer) then s[h].peer != h && s[s[h].peer].peer == h && (s[h].mute ==> !s[s[h].peer].mute)
    else s[h].peer == -1 && !s[h].mute
  }

  /** The peer relation is a symmetric partial matching without self-links, and at most one end of a cable is mute. */
  ghost predicate Matching(s: seq<Slot>) { forall h :: Ok(s, h) ==> CableOk(s, h) }

  /** Every port but those in `except` has been told its carrier. */
  ghost predicate InSync(s: seq<Slot>, except: set<int>) {
    forall h :: Ok(s, h) && h !in except ==> s[h].up == Carrier(s, h)
  }

  /** Free slots carry nothing over to the next port. */
  predicate FreeOk(s: seq<Slot>) { forall h :: 0 <= h < |s| && !s[h].live ==> !s[h].adminUp }

  /** No frame is under way to a live port that is down. */
  predicate QueueOk(s: seq<Slot>, q: seq<(int, int)>) {
    forall i :: 0 <= i < |q| && Ok(s, q[i].1) ==> s[q[i].1].up
  }

  /** The frames that are not for `dst`, in their order. */
  function Purged(q: seq<(int, int)>, dst: int): (r: seq<(int, int)>)
    ensures forall f :: f in r <==> f in q && f.1 != dst
  {
    if q == [] then []
    else
      var n := |q| - 1;
      assert q == q[..n] + [q[n]];
      Purged(q[..n], dst) + if q[n].1 != dst then [q[n]] else []
  }

  /** The frames that are for `dst`, in their order. */
  function FramesTo(q: seq<(int, int)>, dst: int): seq<(int, int)> {
    if q == [] then []
    else
      var n := |q| - 1;
      FramesTo(q[..n], dst) + if q[n].1 == dst then [q[n]] else []
  }

  /** Dropping the frames to one port leaves those to others. */
  lemma {:induction false} PurgeLeavesOthers(q: seq<(int, int)>, dst: int, other: int)
    requires other != dst
    ensures FramesTo(Purged(q, dst), other) == FramesTo(q, other)
    decreases |q|
  {
    if q != [] {
      var n := |q| - 1;
      PurgeLeavesOthers(q[..n], dst, other);
      var kept := Purged(q[..n], dst);
      if q[n].1 != dst { assert (kept + [q[n]])[..|kept|] == kept; } else { assert kept + [] == kept; }
    }
  }

  /** The slots with the cable of `h` pulled out of both ends. */
  function Unplugged(s: seq<Slot>, h: int): (r: seq<Slot>)
    requires Ok(s, h)
    ensures |r| == |s| && forall i :: 0 <= i < |s| ==> r[i] == s[i].(peer := r[i].peer, mute := r[i].mute)
  {
    var t := s[h := s[h].(peer := -1, mute := false)];
    if Ok(s, s[h].peer) then t[s[h].peer := t[s[h].peer].(peer := -1, mute := false)] else t
  }

  /** The slots with the cables of both ports pulled out. */
  function BothUnplugged(s: seq<Slot>, a: int, b: int): (r: seq<Slot>)
    requires Ok(s, a) && Ok(s, b)
    ensures |r| == |s| && forall h :: 0 <= h < |s| ==> r[h] == s[h].(peer := r[h].peer, mute := r[h].mute)
  {
    hide Unplugged;
    Unplugged(Unplugged(s, a), b)
  }

  function Plugged(s: seq<Slot>, a: int, b: int, muteB: bool): (r: seq<Slot>)
    requires Ok(s, a) && Ok(s, b)
    ensures |r| == |s|
  {
    s[a := s[a].(peer := b)][b := s[b].(peer := a, mute := s[b].mute || muteB)]
  }

  /** Only carriers differ. */
  predicate SameButUp(s: seq<Slot>, r: seq<Slot>) {
    |r| == |s| && forall h :: 0 <= h < |s| ==> r[h] == s[h].(up := r[h].up)
  }

  lemma PlugIgnoresUp(s: seq<Slot>, r: seq<Slot>, a: int, b: int, muteB: bool)
    requires Ok(s, a) && Ok(s, b) && SameButUp(s, r)
    ensures Ok(r, a) && Ok(r, b) && SameButUp(Plugged(s, a, b, muteB), Plugged(r, a, b, muteB))
  {
  }

  lemma UnplugKeepsMatching(s: seq<Slot>, h: int)
    requires Matching(s) && Ok(s, h)
    ensures Matching(Unplugged(s, h)) && Unplugged(s, h)[h].peer == -1 && !Unplugged(s, h)[h].mute
    ensures forall i :: 0 <= i < |s| ==>
      Unplugged(s, h)[i] == if i == h || i == s[h].peer then s[i].(peer := -1, mute := false) else s[i]
  {
    var r := Unplugged(s, h);
    assert CableOk(s, h);
    forall i | Ok(r, i) ensures CableOk(r, i) {
      assert Ok(s, i) && CableOk(s, i);
      if Ok(s, s[i].peer) { assert CableOk(s, s[i].peer); }
    }
  }

  lemma PlugKeepsMatching(s: seq<Slot>, a: int, b: int, muteB: bool)
    requires Matching(s) && Ok(s, a) && Ok(s, b) && a != b
    requires s[a].peer == -1 && s[b].peer == -1 && !s[a].mute && !s[b].mute
    ensures Matching(Plugged(s, a, b, muteB))
  {
    var r := Plugged(s, a, b, muteB);
    forall i | Ok(r, i) ensures CableOk(r, i) {
      assert Ok(s, i) && CableOk(s, i);
      if Ok(s, s[i].peer) { assert CableOk(s, s[i].peer); }
    }
  }

  /** Pulling a cable only concerns its two ends. */
  lemma UnplugKeepsSync(s: seq<Slot>, h: int, except: set<int>)
    requires Matching(s) && Ok(s, h) && InSync(s, except)
    ensures InSync(Unplugged(s, h), except + {h, s[h].peer})
  {
    UnplugKeepsMatching(s, h);
    var r := Unplugged(s, h);
    forall i | Ok(r, i) && i !in except + {h, s[h].peer} ensures r[i].up == Carrier(r, i) {
      assert Ok(s, i) && s[i].up == Carrier(s, i);
    }
  }

  lemma PlugKeepsSync(s: seq<Slot>, a: int, b: int, muteB: bool)
    requires Matching(s) && Ok(s, a) && Ok(s, b) && a != b && InSync(s, {a, b})
    ensures InSync(Plugged(s, a, b, muteB), {a, b})
  {
    var r := Plugged(s, a, b, muteB);
    forall i | Ok(r, i) && i !in {a, b} ensures r[i].up == Carrier(r, i) {
      assert Ok(s, i) && s[i].up == Carrier(s, i);
    }
  }

  // ---- The table in place ---------------------------------------------------------------------------

  class Cables {
    const slots: array<Slot>
    var queue: seq<(int, int)>  // source and destination of the frames under way
    var calls: seq<Call>

    ghost predicate Shape()
      reads this
    {
      slots.Length == MAX_PORTS
    }

    /** What every operation keeps. */
    ghost predicate Valid()
      reads this, slots
    {
      Shape() && Matching(slots[..]) && InSync(slots[..], {}) && FreeOk(slots[..])
    }

    constructor ()
      ensures Valid() && fresh(slots) && queue == [] && forall i :: 0 <= i < MAX_PORTS ==> slots[i] == FREE
    {
      slots := new Slot[MAX_PORTS](_ => FREE);
      queue, calls := [], [];
    }

    /** `port_carrier`. */
    method PortCarrier(h: int) returns (up: bool)
      requires Shape() && Ok(slots[..], h)
      ensures up == Carrier(slots[..], h)
    {
      var p := slots[h];
      if !p.adminUp { return false; }
      if !(0 <= p.peer < slots.Length && slots[p.peer].live) { return true; }
      return slots[p.peer].adminUp;
    }

    /** `frame_purge_dst`. */
    method PurgeTo(dst: int)
      modifies this`queue
      ensures queue == Purged(old(queue), dst)
    {
      var kept: seq<(int, int)>, i := [], 0;
      while i < |queue|
        invariant 0 <= i <= |queue| && queue == old(queue) && kept == Purged(queue[..i], dst)
      {
        assert queue[..i + 1][..i] == queue[..i];
        if queue[i].1 != dst { kept := kept + [queue[i]]; }
        i := i + 1;
      }
      assert queue[..i] == queue;
      queue := kept;
    }

    /** `frame_enqueue`, for a port that may transmit: its cable has a far end, which is up with it. */
    method Enqueue(src: int)
      requires Valid() && Ok(slots[..], src) && slots[src].up
      modifies this`queue
      ensures queue == if slots[src].mute || slots[src].peer == -1 then old(queue)
        else old(queue) + [(src, slots[src].peer)]
      ensures QueueOk(slots[..], old(queue)) ==> QueueOk(slots[..], queue)
    {
      UpTogether(slots[..], src, {});
      assert CableOk(slots[..], src);
      if slots[src].mute { return; }
      var peer := slots[src].peer;
      if !(0 <= peer < slots.Length && slots[peer].live) { return; }
      queue := queue + [(src, peer)];
    }

    /** One end in the first loop of `sync_carrier`. */
    method SetCarrier(h: int) returns (changed: bool)
      requires Shape()
      modifies slots, this`queue
      ensures !Ok(old(slots[..]), h) ==> !changed && slots[..] == old(slots[..])
      ensures Ok(old(slots[..]), h) ==>
        slots[..] == old(slots[..])[h := old(slots[h]).(up := Carrier(old(slots[..]), h))]
      ensures Ok(old(slots[..]), h) ==> changed == (old(slots[h]).up != Carrier(old(slots[..]), h))
      ensures queue == if changed && !slots[h].up then Purged(old(queue), h) else old(queue)
      ensures forall d :: d != h ==> FramesTo(queue, d) == FramesTo(old(queue), d)
      ensures QueueOk(old(slots[..]), old(queue)) ==> QueueOk(slots[..], queue)
    {
      if !(0 <= h < slots.Length && slots[h].live) { return false; }
      var up := PortCarrier(h);
      changed := up != slots[h].up;
      slots[h] := slots[h].(up := up);
      if changed && !up {
        PurgeTo(h);
        forall d | d != h ensures FramesTo(queue, d) == FramesTo(old(queue), d) {
          PurgeLeavesOthers(old(queue), h, d);
        }
      }
      assert forall i :: 0 <= i < |queue| ==> queue[i] in old(queue);
    }

    /** One end in the second loop: the port is told. */
    method Tell(h: int)
      requires Shape() && Ok(slots[..], h)
      modifies this`calls
      ensures calls == old(calls) + [Call(h, slots[h].up, FarEndUp(slots[..], h))]
    {
      calls := calls + [Call(h, slots[h].up, FarEndUp(slots[..], h))];
    }

    /** `sync_carrier`: both carriers are set before either port is told.  `stale` are the ports whose carrier may
        have changed. */
    method SyncCarrier(a: int, b: int, ghost stale: set<int>)
      requires Shape() && Matching(slots[..]) && InSync(slots[..], stale)
      requires forall h :: h in {a, b} && Ok(slots[..], h) && Ok(slots[..], slots[h].peer) ==>
        slots[h].peer in {a, b} || slots[h].peer !in stale
      modifies slots, this`queue, this`calls
      ensures SameButUp(old(slots[..]), slots[..]) && InSync(slots[..], stale - {a, b})
      ensures forall d :: d != a && d != b ==> FramesTo(queue, d) == FramesTo(old(queue), d)
      ensures QueueOk(old(slots[..]), old(queue)) ==> QueueOk(slots[..], queue)
      ensures |calls| >= |old(calls)| && calls[..|old(calls)|] == old(calls)
      ensures forall i :: |old(calls)| <= i < |calls| ==> calls[i].up ==> calls[i].farEndUp
    {
      hide Matching, CableOk, InSync, FarEndUp, QueueOk;
      var changedA, changedB := SetBoth(a, b, stale);
      ghost var s := slots[..];
      if changedA {
        UpTogether(s, a, stale - {a, b});
        Tell(a);
      }
      if changedB {
        UpTogether(s, b, stale - {a, b});
        Tell(b);
      }
    }

    /** The first loop of `sync_carrier`. */
    method SetBoth(a: int, b: int, ghost stale: set<int>) returns (changedA: bool, changedB: bool)
      requires Shape() && Matching(slots[..]) && InSync(slots[..], stale)
      modifies slots, this`queue
      ensures SameButUp(old(slots[..]), slots[..]) && Matching(slots[..]) && InSync(slots[..], stale - {a, b})
      ensures (changedA ==> Ok(slots[..], a)) && (changedB ==> Ok(slots[..], b))
      ensures forall d :: d != a && d != b ==> FramesTo(queue, d) == FramesTo(old(queue), d)
      ensures QueueOk(old(slots[..]), old(queue)) ==> QueueOk(slots[..], queue)
    {
      hide Matching, CableOk, InSync, QueueOk;
      changedA := SetCarrier(a);
      changedB := SetCarrier(b);
      Synced(old(slots[..]), slots[..], a, b, stale);
      UpDoesNotMatter(old(slots[..]), slots[..]);
    }

    /** `unplug`. */
    method Unplug(h: int) returns (peer: int)
      requires Shape() && Ok(slots[..], h)
      modifies slots
      ensures peer == old(slots[h]).peer && slots[..] == Unplugged(old(slots[..]), h)
    {
      peer := slots[h].peer;
      slots[h] := slots[h].(peer := -1, mute := false);
      if 0 <= peer < slots.Length && slots[peer].live {
        slots[peer] := slots[peer].(peer := -1, mute := false);
      }
    }

    // ---- Operations ---------------------------------------------------------------------------------

    /** `mstpw_port_set_enable`. */
    method PortSetEnable(h: int, up: bool) returns (ok: bool)
      requires Valid()
      modifies slots, this`queue, this`calls
      ensures Valid() && ok == Ok(old(slots[..]), h)
      ensures ok ==> SameButUp(old(slots[..])[h := old(slots[h]).(adminUp := up)], slots[..])
      ensures QueueOk(old(slots[..]), old(queue)) ==> QueueOk(slots[..], queue)
      ensures !ok ==> slots[..] == old(slots[..])
    {
      ghost var s := slots[..];
      if !(0 <= h < slots.Length && slots[h].live) { return false; }
      assert CableOk(s, h);
      EnableKeeps(s, h, up);
      slots[h] := slots[h].(adminUp := up);
      assert slots[..] == s[h := s[h].(adminUp := up)];
      ghost var stale := {h, s[h].peer};
      SyncCarrier(h, slots[h].peer, stale);
      UpDoesNotMatter(s[h := s[h].(adminUp := up)], slots[..]);
      assert stale - {h, s[h].peer} == {};
      return true;
    }

    /** `MSTP_OUT_shutdown_port`: BPDU guard takes the port down, and with it the far end's carrier. */
    method ShutdownPort(h: int)
      requires Valid() && Ok(slots[..], h)
      modifies slots, this`queue, this`calls
      ensures Valid() && SameButUp(old(slots[..])[h := old(slots[h]).(adminUp := false)], slots[..])
      ensures !slots[h].up && (Ok(slots[..], slots[h].peer) ==> !slots[slots[h].peer].up)
      ensures QueueOk(old(slots[..]), old(queue)) ==> QueueOk(slots[..], queue)
    {
      ghost var s := slots[..];
      var ok := PortSetEnable(h, false);
      ghost var r := slots[..];
      assert CableOk(r, h) && r[h].up == Carrier(r, h);
      if Ok(r, r[h].peer) {
        assert CableOk(r, r[h].peer) && r[r[h].peer].up == Carrier(r, r[h].peer);
      }
    }

    /** `mstpw_unlink`. */
    method Unlink(h: int) returns (ok: bool)
      requires Valid()
      modifies slots, this`queue, this`calls
      ensures Valid() && ok == Ok(old(slots[..]), h)
      ensures ok ==> SameButUp(Unplugged(old(slots[..]), h), slots[..])
      ensures QueueOk(old(slots[..]), old(queue)) ==> QueueOk(slots[..], queue)
      ensures !ok ==> slots[..] == old(slots[..])
    {
      ghost var s := slots[..];
      if !(0 <= h < slots.Length && slots[h].live) { return false; }
      UnplugKeepsMatching(s, h);
      UnplugKeepsSync(s, h, {});
      var peer := Unplug(h);
      ghost var t, stale := slots[..], {} + {h, s[h].peer};
      SyncCarrier(h, peer, stale);
      assert stale - {h, peer} == {};
      UpDoesNotMatter(t, slots[..]);
      return true;
    }

    /** The first line of `mstpw_link`: both ends lose the cables they had. */
    method PullBoth(a: int, b: int)
      requires Valid() && Ok(slots[..], a) && Ok(slots[..], b) && a != b
      modifies slots, this`queue, this`calls
      ensures Matching(slots[..]) && InSync(slots[..], {a, b}) && FreeOk(slots[..])
      ensures slots[a].peer == -1 && slots[b].peer == -1 && !slots[a].mute && !slots[b].mute
      ensures forall h :: 0 <= h < MAX_PORTS ==>
        slots[h].live == old(slots[h]).live && slots[h].adminUp == old(slots[h]).adminUp
      ensures forall h :: 0 <= h < MAX_PORTS && slots[h].live && h != a && h != b ==>
        slots[h].peer == if old(slots[h]).peer == a || old(slots[h]).peer == b then -1 else old(slots[h]).peer
      ensures SameButUp(BothUnplugged(old(slots[..]), a, b), slots[..])
      ensures QueueOk(old(slots[..]), old(queue)) ==> QueueOk(slots[..], queue)
    {
      hide Matching, CableOk, Carrier, Unplugged, InSync;
      ghost var s := slots[..];
      UnplugKeepsMatching(s, a);
      UnplugKeepsSync(s, a, {});
      var oldPeerA := Unplug(a);
      ghost var t := slots[..];
      UnplugKeepsMatching(t, b);
      UnplugKeepsSync(t, b, {} + {a, s[a].peer});
      var oldPeerB := Unplug(b);
      ghost var u, stale := slots[..], {} + {a, s[a].peer} + {b, t[b].peer};
      PeersAfterUnplug(s, t, u, a, b);
      SyncCarrier(oldPeerA, oldPeerB, stale);
      UpDoesNotMatter(u, slots[..]);
      StaleEnds(slots[..], stale - {oldPeerA, oldPeerB}, a, b);
    }

    /** `mstpw_link`, and with `oneway` `mstpw_link_oneway`: the cable is whole, but the transmitter of `b` is dead. */
    method Link(a: int, b: int, oneway: bool) returns (ok: bool)
      requires Valid()
      modifies slots, this`queue, this`calls
      ensures Valid() && ok == (Ok(old(slots[..]), a) && Ok(old(slots[..]), b) && a != b)
      ensures ok ==> forall h :: 0 <= h < MAX_PORTS ==>
        slots[h].live == old(slots[h]).live && slots[h].adminUp == old(slots[h]).adminUp
        && (Ok(slots[..], h) ==> slots[h].peer == if h == a then b else if h == b then a
                                                  else if old(slots[h]).peer == a || old(slots[h]).peer == b then -1
                                                    else old(slots[h]).peer)
      ensures ok ==> SameButUp(Plugged(BothUnplugged(old(slots[..]), a, b), a, b, oneway), slots[..])
      ensures ok ==> slots[b].mute == oneway && !slots[a].mute
      ensures QueueOk(old(slots[..]), old(queue)) ==> QueueOk(slots[..], queue)
      ensures !ok ==> slots[..] == old(slots[..])
    {
      hide Matching, CableOk, Carrier, Unplugged, InSync;
      if !(0 <= a < slots.Length && slots[a].live) || !(0 <= b < slots.Length && slots[b].live) || a == b {
        return false;
      }
      PullBoth(a, b);
      ghost var v := slots[..];
      PlugKeepsMatching(v, a, b, oneway);
      PlugKeepsSync(v, a, b, oneway);
      slots[a] := slots[a].(peer := b);
      slots[b] := slots[b].(peer := a, mute := slots[b].mute || oneway);
      ghost var w := slots[..];
      assert w == Plugged(v, a, b, oneway);
      assert QueueOk(v, queue) ==> QueueOk(w, queue);
      hide QueueOk;
      PlugIgnoresUp(BothUnplugged(old(slots[..]), a, b), v, a, b, oneway);
      SyncCarrier(a, b, {a, b});
      assert {a, b} - {a, b} == {};
      UpDoesNotMatter(w, slots[..]);
      return true;
    }

    /** `mstpw_port_create`: the first free slot.  Deleting a port leaves frames to it in the queue, so the port that
        gets the same handle may have frames of its predecessor under way to it; exactly then the queue is not clean. */
    method PortCreate(bridge: int) returns (h: int)
      requires Valid()
      modifies slots
      ensures Valid() && (h == -1 <==> forall i :: 0 <= i < MAX_PORTS ==> old(slots[i]).live)
      ensures forall i :: 0 <= i < h && i < MAX_PORTS ==> old(slots[i]).live
      ensures h != -1 ==> 0 <= h < MAX_PORTS && !old(slots[h]).live
                          && slots[..] == old(slots[..])[h := Slot(true, bridge, -1, false, false, false)]
      ensures h == -1 ==> slots[..] == old(slots[..])
      ensures h != -1 && QueueOk(old(slots[..]), queue) ==>
        (QueueOk(slots[..], queue) <==> forall i :: 0 <= i < |queue| ==> queue[i].1 != h)
    {
      h := 0;
      while h < slots.Length && slots[h].live
        invariant 0 <= h <= slots.Length && forall i :: 0 <= i < h ==> slots[i].live
      {
        h := h + 1;
      }
      if h == slots.Length { return -1; }
      CreateKeeps(slots[..], h, bridge);
      ghost var s := slots[..];
      slots[h] := Slot(true, bridge, -1, false, false, false);
      assert slots[..] == s[h := Slot(true, bridge, -1, false, false, false)];
    }

    /** `mstpw_port_delete`.  The frames that are under way to the port stay in the queue. */
    method PortDelete(h: int) returns (ok: bool)
      requires Valid()
      modifies slots, this`queue, this`calls
      ensures Valid() && ok == Ok(old(slots[..]), h)
      ensures ok ==>
        SameButUp(Unplugged(old(slots[..]), h)[h := Unplugged(old(slots[..]), h)[h].(live := false, adminUp := false)],
            slots[..])
      ensures FramesTo(queue, h) == FramesTo(old(queue), h)
      ensures QueueOk(old(slots[..]), old(queue)) ==> QueueOk(slots[..], queue)
      ensures !ok ==> slots[..] == old(slots[..])
    {
      ghost var s := slots[..];
      if !(0 <= h < slots.Length && slots[h].live) { return false; }
      UnplugKeepsMatching(s, h);
      UnplugKeepsSync(s, h, {});
      assert CableOk(s, h);
      var peer := Unplug(h);
      ghost var t, stale := slots[..], {} + {h, s[h].peer};
      FreeKeeps(t, h, stale);
      slots[h] := slots[h].(live := false, adminUp := false);
      ghost var u := slots[..];
      assert u == t[h := t[h].(live := false, adminUp := false)];
      SyncCarrier(peer, -1, stale - {h});
      NothingStale(slots[..], stale - {h} - {peer, -1});
      UpDoesNotMatter(u, slots[..]);
      return true;
    }

    /** `mstpw_bridge_delete`: all ports of the bridge. */
    method BridgeDelete(bridge: int)
      requires Valid()
      modifies slots, this`queue, this`calls
      ensures Valid()
      ensures forall h :: 0 <= h < MAX_PORTS ==> slots[h].bridge == old(slots[h]).bridge
      ensures forall h :: 0 <= h < MAX_PORTS ==> slots[h].live == (old(slots[h]).live && old(slots[h]).bridge != bridge)
      ensures QueueOk(old(slots[..]), old(queue)) ==> QueueOk(slots[..], queue)
    {
      var h := 0;
      while h < slots.Length
        invariant Valid() && 0 <= h <= slots.Length
        invariant QueueOk(old(slots[..]), old(queue)) ==> QueueOk(slots[..], queue)
        invariant forall i :: 0 <= i < slots.Length ==> slots[i].bridge == old(slots[i]).bridge
        invariant forall i :: 0 <= i < slots.Length ==>
          slots[i].live == (old(slots[i]).live && !(i < h && old(slots[i]).bridge == bridge))
      {
        if slots[h].live && slots[h].bridge == bridge {
          ghost var s := slots[..];
          var ok := PortDelete(h);
          PurgeTo(h);
          UnpluggedKeepsBridges(s, h);
          assert forall i :: 0 <= i < slots.Length ==>
            slots[i].bridge == s[i].bridge && slots[i].live == (s[i].live && i != h);
        }
        h := h + 1;
      }
    }
  }

  /** The carrier of the far end; true without a cable. */
  predicate FarEndUp(s: seq<Slot>, h: int)
    requires Ok(s, h)
  {
    Ok(s, s[h].peer) ==> s[s[h].peer].up
  }

  lemma Synced(s: seq<Slot>, r: seq<Slot>, a: int, b: int, stale: set<int>)
    requires InSync(s, stale) && SameButUp(s, r)
    requires Ok(s, a) ==> r[a].up == Carrier(s, a)
    requires Ok(s, b) ==> r[b].up == Carrier(s, b)
    requires forall h :: 0 <= h < |s| && h != a && h != b ==> r[h] == s[h]
    ensures InSync(r, stale - {a, b})
  {
    forall h | Ok(r, h) && h !in stale - {a, b} ensures r[h].up == Carrier(r, h) {
      assert Ok(s, h) && Carrier(r, h) == Carrier(s, h);
    }
  }

  lemma UpDoesNotMatter(s: seq<Slot>, r: seq<Slot>)
    requires SameButUp(s, r)
    ensures (Matching(s) ==> Matching(r)) && (FreeOk(s) ==> FreeOk(r))
  {
    if Matching(s) {
      forall h | Ok(r, h) ensures CableOk(r, h) {
        assert Ok(s, h) && CableOk(s, h);
      }
    }
  }

  /** With a cable in sync both ends are up or neither is. */
  lemma UpTogether(s: seq<Slot>, h: int, stale: set<int>)
    requires Ok(s, h) && InSync(s, stale) && Matching(s) && h !in stale && (Ok(s, s[h].peer) ==> s[h].peer !in stale)
    ensures s[h].up ==> FarEndUp(s, h)
  {
    assert CableOk(s, h);
    if Ok(s, s[h].peer) {
      assert s[s[h].peer].up == Carrier(s, s[h].peer);
    }
  }

  /** Enabling or disabling a port concerns it and the far end of its cable. */
  lemma EnableKeeps(s: seq<Slot>, h: int, up: bool)
    requires Matching(s) && InSync(s, {}) && FreeOk(s) && Ok(s, h)
    ensures var r := s[h := s[h].(adminUp := up)]; Matching(r) && InSync(r, {h, s[h].peer}) && FreeOk(r)
  {
    var r := s[h := s[h].(adminUp := up)];
    forall i | Ok(r, i) ensures CableOk(r, i) {
      assert Ok(s, i) && CableOk(s, i);
    }
    forall i | Ok(r, i) && i !in {h, s[h].peer} ensures r[i].up == Carrier(r, i) {
      assert Ok(s, i) && CableOk(s, i) && s[i].up == Carrier(s, i);
      if Ok(s, s[i].peer) { assert CableOk(s, s[i].peer); }
    }
  }

  /** Freeing a slot without a cable concerns nobody else. */
  lemma FreeKeeps(s: seq<Slot>, h: int, stale: set<int>)
    requires Matching(s) && InSync(s, stale) && FreeOk(s) && Ok(s, h) && s[h].peer == -1
    ensures var r := s[h := s[h].(live := false, adminUp := false)]; Matching(r) && InSync(r, stale - {h}) && FreeOk(r)
  {
    var r := s[h := s[h].(live := false, adminUp := false)];
    forall i | Ok(r, i) ensures CableOk(r, i) && s[i].peer != h {
      assert Ok(s, i) && CableOk(s, i);
      assert CableOk(s, h);
    }
    forall i | Ok(r, i) && i !in stale - {h} ensures r[i].up == Carrier(r, i) {
      assert Ok(s, i) && s[i].up == Carrier(s, i) && s[i].peer != h;
    }
  }

  /** A new port has no cable and is down. */
  lemma CreateKeeps(s: seq<Slot>, h: int, bridge: int)
    requires Matching(s) && InSync(s, {}) && FreeOk(s) && 0 <= h < |s| && !s[h].live
    ensures var r := s[h := Slot(true, bridge, -1, false, false, false)]; Matching(r) && InSync(r, {}) && FreeOk(r)
  {
    var r := s[h := Slot(true, bridge, -1, false, false, false)];
    forall i | Ok(r, i) ensures CableOk(r, i) && (i != h ==> s[i].peer != h) {
      if i != h { assert Ok(s, i) && CableOk(s, i); }
    }
    forall i | Ok(r, i) ensures r[i].up == Carrier(r, i) {
      if i != h { assert Ok(s, i) && s[i].up == Carrier(s, i) && s[i].peer != h; }
    }
  }

  /** Two cables pulled one after the other. */
  lemma PeersAfterUnplug(s: seq<Slot>, t: seq<Slot>, u: seq<Slot>, a: int, b: int)
    requires Matching(s) && Ok(s, a) && Ok(s, b) && a != b && t == Unplugged(s, a) && u == Unplugged(t, b)
    ensures u[a].peer == -1 && u[b].peer == -1 && !u[a].mute && !u[b].mute
    ensures forall h :: Ok(s, h) && h != a && h != b ==>
      u[h].peer == if s[h].peer == a || s[h].peer == b then -1 else s[h].peer
    ensures forall h :: 0 <= h < |s| ==> u[h].live == s[h].live && u[h].adminUp == s[h].adminUp
    ensures Ok(u, s[a].peer) && s[a].peer != b ==> u[s[a].peer].peer == -1
    ensures Ok(u, t[b].peer) ==> u[t[b].peer].peer == -1
  {
    UnplugKeepsMatching(s, a);
    UnplugKeepsMatching(t, b);
    assert CableOk(s, a) && CableOk(s, b) && CableOk(t, b);
    forall h | Ok(s, h) && h != a && h != b
      ensures u[h].peer == if s[h].peer == a || s[h].peer == b then -1 else s[h].peer
    {
      assert CableOk(s, h);
      if Ok(s, s[h].peer) { assert CableOk(s, s[h].peer); }
    }
  }

  /** Ports that are not live need not be told anything. */
  lemma NothingStale(s: seq<Slot>, stale: set<int>)
    requires InSync(s, stale) && stale == {}
    ensures InSync(s, {})
  {
  }

  lemma StaleEnds(s: seq<Slot>, stale: set<int>, a: int, b: int)
    requires InSync(s, stale) && stale <= {a, b}
    ensures InSync(s, {a, b})
  {
    forall h | Ok(s, h) && h !in {a, b} ensures s[h].up == Carrier(s, h) {
      assert h !in stale;
    }
  }

  lemma UnpluggedKeepsBridges(s: seq<Slot>, h: int)
    requires Ok(s, h)
    ensures forall i :: 0 <= i < |s| ==>
      Unplugged(s, h)[i].bridge == s[i].bridge && Unplugged(s, h)[i].live == s[i].live
  {
  }

  /** Two ports joined by a cable, both up. */
  method JoinedPorts(bridge: int) returns (c: Cables)
    ensures fresh(c) && fresh(c.slots) && c.Valid()
    ensures forall i :: 0 <= i < MAX_PORTS ==> c.slots[i].live == (i < 2)
    ensures c.slots[0].peer == 1 && !c.slots[0].mute && c.slots[0].up
  {
    hide Matching, CableOk, InSync, Carrier, QueueOk, BothUnplugged, Plugged;
    c := new Cables();
    assert !c.slots[0].live;
    ghost var s := c.slots[..];
    var a := c.PortCreate(bridge);
    assert a == 0 && c.slots[0].live && forall i :: 1 <= i < MAX_PORTS ==> c.slots[..][i] == s[i];
    assert !c.slots[1].live;
    s := c.slots[..];
    var b := c.PortCreate(bridge);
    assert b == 1 && forall i :: 0 <= i < MAX_PORTS && i != 1 ==> c.slots[..][i] == s[i];
    var ok := c.PortSetEnable(0, true);
    ok := c.PortSetEnable(1, true);
    ok := c.Link(0, 1, false);
    BothAreUp(c.slots[..]);
  }

  lemma BothAreUp(s: seq<Slot>)
    requires InSync(s, {}) && Ok(s, 0) && Ok(s, 1) && s[0].peer == 1 && s[0].adminUp && s[1].adminUp
    ensures s[0].up
  {
    assert s[0].up == Carrier(s, 0);
  }

  /** A port with a frame under way to it is deleted, and the next port gets its handle and the frame. */
  method FramesOutliveTheirPort(bridge: int) returns (c: Cables, h: int)
    ensures fresh(c) && fresh(c.slots) && c.Valid() && Ok(c.slots[..], h)
    ensures exists i :: 0 <= i < |c.queue| && c.queue[i].1 == h
    ensures !QueueOk(c.slots[..], c.queue)
  {
    hide Matching, CableOk, InSync, Carrier, Unplugged;
    c := JoinedPorts(bridge);
    c.Enqueue(0);
    ghost var q := c.queue;
    assert q[|q| - 1] == (0, 1);
    var ok := c.PortDelete(1);
    assert FramesTo(c.queue, 1) == FramesTo(q, 1) != [];
    FramesAreQueued(c.queue, 1);
    assert c.slots[..][0].live && !c.slots[..][1].live;
    h := c.PortCreate(bridge);
    assert h == 1;
    assert !c.slots[..][1].up;
  }

  lemma {:induction false} FramesAreQueued(q: seq<(int, int)>, dst: int)
    requires FramesTo(q, dst) != []
    ensures exists i :: 0 <= i < |q| && q[i].1 == dst
    decreases |q|
  {
    var n := |q| - 1;
    if q[n].1 != dst {
      FramesAreQueued(q[..n], dst);
      var i :| 0 <= i < n && q[..n][i].1 == dst;
      assert q[i].1 == dst;
    }
  }
}
