/**
 Comparison of spanning-tree priority vectors (mstp.c:1666-1753).
 */
module Priority {
  import opened Types

  /** What `memcmp` reports for two big-endian fields of the same width. */
  function Ncmp(x: int, y: int): int {
    if x < y then -1 else if x > y then 1 else 0
  }

  /** `betterorsamePriority`: is (vec1, pId1) at least as good as (vec2, pId2)? */
  predicate BetterOrSame(vec1: Vector, vec2: Vector, pId1: PortId, pId2: PortId, cist: bool) {
    if cist && Ncmp(vec1.rootId, vec2.rootId) != 0 then Ncmp(vec1.rootId, vec2.rootId) < 0
    else if cist && Ncmp(vec1.extCost, vec2.extCost) != 0 then Ncmp(vec1.extCost, vec2.extCost) < 0
    else if Ncmp(vec1.rRootId, vec2.rRootId) != 0 then Ncmp(vec1.rRootId, vec2.rRootId) < 0
    else if Ncmp(vec1.intCost, vec2.intCost) != 0 then Ncmp(vec1.intCost, vec2.intCost) < 0
    else if Ncmp(vec1.desBridge, vec2.desBridge) != 0 then Ncmp(vec1.desBridge, vec2.desBridge) < 0
    else if Ncmp(vec1.desPort, vec2.desPort) != 0 then Ncmp(vec1.desPort, vec2.desPort) < 0
    else pId1 <= pId2
  }

  /** `samePriorityAndTimers`. */
  predicate SamePriorityAndTimers(vec1: Vector, vec2: Vector, time1: Times, time2: Times, cist: bool) {
    && (cist ==> time1.forwardDelay == time2.forwardDelay && time1.maxAge == time2.maxAge
                 && time1.messageAge == time2.messageAge && time1.helloTime == time2.helloTime
                 && vec1.rootId == vec2.rootId && vec1.extCost == vec2.extCost)
    && time1.remainingHops == time2.remainingHops
    && vec1.rRootId == vec2.rRootId && vec1.intCost == vec2.intCost
    && vec1.desBridge == vec2.desBridge && vec1.desPort == vec2.desPort
  }

  // ---- Reference order ------------------------------------------------------------------------------

  /** The components that are compared, most significant first. */
  function Key(v: Vector, pId: PortId, cist: bool): seq<int> {
    (if cist then [v.rootId, v.extCost] else []) + [v.rRootId, v.intCost, v.desBridge, v.desPort, pId]
  }

  /** Lexicographic order of equally long sequences. */
  predicate LexLeq(a: seq<int>, b: seq<int>)
    requires |a| == |b|
  {
    a == [] || a[0] < b[0] || (a[0] == b[0] && LexLeq(a[1..], b[1..]))
  }

  lemma {:induction false} LexReflexive(a: seq<int>)
    ensures LexLeq(a, a)
  {
    if a != [] { LexReflexive(a[1..]); }
  }

  lemma {:induction false} LexTotal(a: seq<int>, b: seq<int>)
    requires |a| == |b|
    ensures LexLeq(a, b) || LexLeq(b, a)
  {
    if a != [] { LexTotal(a[1..], b[1..]); }
  }

  lemma {:induction false} LexTransitive(a: seq<int>, b: seq<int>, c: seq<int>)
    requires |a| == |b| == |c| && LexLeq(a, b) && LexLeq(b, c)
    ensures LexLeq(a, c)
  {
    if a != [] && a[0] == b[0] == c[0] { LexTransitive(a[1..], b[1..], c[1..]); }
  }

  lemma {:induction false} LexAntisymmetric(a: seq<int>, b: seq<int>)
    requires |a| == |b| && LexLeq(a, b) && LexLeq(b, a)
    ensures a == b
  {
    if a != [] {
      LexAntisymmetric(a[1..], b[1..]);
      assert a == [a[0]] + a[1..] && b == [b[0]] + b[1..];
    }
  }

  /** Lexicographic order of two sequences that agree on their first element. */
  lemma LexCons(x: int, a: seq<int>, y: int, b: seq<int>)
    requires |a| == |b|
    ensures LexLeq([x] + a, [y] + b) <==> x < y || (x == y && LexLeq(a, b))
  {
    assert ([x] + a)[1..] == a && ([y] + b)[1..] == b;
  }

  /** The nested comparison is the lexicographic order of the keys. */
  lemma ComparisonIsLexicographic(v1: Vector, v2: Vector, p1: PortId, p2: PortId, cist: bool)
    ensures BetterOrSame(v1, v2, p1, p2, cist) <==> LexLeq(Key(v1, p1, cist), Key(v2, p2, cist))
  {
    hide LexLeq;
    var k1, k2 := [p1], [p2];
    LexReflexive([]);
    LexCons(p1, [], p2, []);
    assert [p1] + [] == k1 && [p2] + [] == k2;
    LexCons(v1.desPort, k1, v2.desPort, k2);
    k1, k2 := [v1.desPort] + k1, [v2.desPort] + k2;
    LexCons(v1.desBridge, k1, v2.desBridge, k2);
    k1, k2 := [v1.desBridge] + k1, [v2.desBridge] + k2;
    LexCons(v1.intCost, k1, v2.intCost, k2);
    k1, k2 := [v1.intCost] + k1, [v2.intCost] + k2;
    LexCons(v1.rRootId, k1, v2.rRootId, k2);
    k1, k2 := [v1.rRootId] + k1, [v2.rRootId] + k2;
    if cist {
      LexCons(v1.extCost, k1, v2.extCost, k2);
      k1, k2 := [v1.extCost] + k1, [v2.extCost] + k2;
      LexCons(v1.rootId, k1, v2.rootId, k2);
      k1, k2 := [v1.rootId] + k1, [v2.rootId] + k2;
    }
    assert Key(v1, p1, cist) == k1 && Key(v2, p2, cist) == k2;
  }

  /** Comparison of vectors is a total preorder, and two vectors better than each other have one key. */
  lemma ComparisonIsTotalPreorder(v1: Vector, v2: Vector, v3: Vector, p1: PortId, p2: PortId, p3: PortId, cist: bool)
    ensures BetterOrSame(v1, v1, p1, p1, cist)
    ensures BetterOrSame(v1, v2, p1, p2, cist) || BetterOrSame(v2, v1, p2, p1, cist)
    ensures BetterOrSame(v1, v2, p1, p2, cist) && BetterOrSame(v2, v3, p2, p3, cist) ==>
      BetterOrSame(v1, v3, p1, p3, cist)
    ensures BetterOrSame(v1, v2, p1, p2, cist) && BetterOrSame(v2, v1, p2, p1, cist) ==>
      Key(v1, p1, cist) == Key(v2, p2, cist)
  {
    var k1, k2, k3 := Key(v1, p1, cist), Key(v2, p2, cist), Key(v3, p3, cist);
    ComparisonIsLexicographic(v1, v1, p1, p1, cist);
    ComparisonIsLexicographic(v1, v2, p1, p2, cist);
    ComparisonIsLexicographic(v2, v1, p2, p1, cist);
    ComparisonIsLexicographic(v2, v3, p2, p3, cist);
    ComparisonIsLexicographic(v1, v3, p1, p3, cist);
    LexReflexive(k1);
    LexTotal(k1, k2);
    if LexLeq(k1, k2) && LexLeq(k2, k3) { LexTransitive(k1, k2, k3); }
    if LexLeq(k1, k2) && LexLeq(k2, k1) { LexAntisymmetric(k1, k2); }
  }

  // ---- Byte order -----------------------------------------------------------------------------------

  /** The value of a big-endian byte string. */
  function BigEndian(bytes: seq<U8>): nat {
    if bytes == [] then 0 else BigEndian(bytes[..|bytes| - 1]) * 256 + bytes[|bytes| - 1]
  }

  /** `memcmp`: the sign of the first difference. */
  function Memcmp(a: seq<U8>, b: seq<U8>): int
    requires |a| == |b|
  {
    if a == [] then 0
    else if a[0] != b[0] then Ncmp(a[0], b[0])
    else Memcmp(a[1..], b[1..])
  }

  lemma {:induction false} MemcmpSnoc(a: seq<U8>, b: seq<U8>, x: U8, y: U8)
    requires |a| == |b|
    ensures Memcmp(a + [x], b + [y]) == if Memcmp(a, b) != 0 then Memcmp(a, b) else Ncmp(x, y)
  {
    if a == [] {
      assert a + [x] == [x] && b + [y] == [y];
      assert [x][1..] == [] && [y][1..] == [];
      assert Memcmp([x][1..], [y][1..]) == 0;
    } else {
      MemcmpSnoc(a[1..], b[1..], x, y);
      assert (a + [x])[1..] == a[1..] + [x] && (b + [y])[1..] == b[1..] + [y];
    }
  }

  /** On big-endian fields the byte order used by the engine is the numeric order. */
  lemma {:induction false} ByteOrderIsNumericOrder(a: seq<U8>, b: seq<U8>)
    requires |a| == |b|
    ensures Memcmp(a, b) == Ncmp(BigEndian(a), BigEndian(b))
  {
    if a != [] {
      var n := |a| - 1;
      ByteOrderIsNumericOrder(a[..n], b[..n]);
      MemcmpSnoc(a[..n], b[..n], a[n], b[n]);
      assert a == a[..n] + [a[n]] && b == b[..n] + [b[n]];
    }
  }
}
