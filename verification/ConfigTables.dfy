/**
 VID-to-FID and FID-to-MSTID tables, the list of MSTIs, and the cached MST configuration digest
 (mstp.c:68-86, 1293-1445 and 1465-1600).  MSTIDs are kept as numbers; the digest sees them big-endian.
 */
module ConfigTables {
  import opened Types
  import Md5

  const MAX_VID := 4094
  const MAX_FID := 4095

  /** The key of table 13-2 of IEEE 802.1Q-2005. */
  const KEY: seq<Md5.Byte> :=
    [0x13, 0xAC, 0x06, 0xA6, 0x2E, 0x47, 0xFD, 0x51, 0xF9, 0x5D, 0x2B, 0xA2, 0x43, 0xCD, 0x03, 0x46]

  /** Numbers as big-endian pairs of bytes. */
  function BigEndianBytes(m: seq<U16>): (r: seq<Md5.Byte>)
    ensures |r| == 2 * |m|
  {
    if m == [] then [] else [(m[0] / 256) as Md5.Byte, (m[0] % 256) as Md5.Byte] + BigEndianBytes(m[1..])
  }

  /** The MST configuration table: the MSTID of every VID, 0 for the two values that are no VIDs. */
  function Composed(vid2fid: seq<U16>, fid2mstid: seq<U16>): (r: seq<U16>)
    requires |vid2fid| == MAX_VID + 1 && |fid2mstid| == MAX_FID + 1
    requires forall vid :: 1 <= vid <= MAX_VID ==> vid2fid[vid] <= MAX_FID
    ensures |r| == MAX_VID + 2
  {
    seq(MAX_VID + 2, vid requires 0 <= vid < MAX_VID + 2 => if 1 <= vid <= MAX_VID then fid2mstid[vid2fid[vid]] else 0)
  }

  /** Section 13.7 of IEEE 802.1Q-2005. */
  function DigestOf(table: seq<U16>): seq<Md5.Byte> { Md5.Hmac(BigEndianBytes(table), KEY) }

  /** The trees of a bridge by MSTID: the CIST first, then strictly ascending, no more than fit. */
  predicate TreeList(mstids: seq<U16>) {
    && 1 <= |mstids| <= MAX_IMPLEMENTATION_MSTIS + 1 && mstids[0] == 0
    && (forall i, j :: 0 <= i < j < |mstids| ==> mstids[i] < mstids[j]) &&
      (forall i :: 0 <= i < |mstids| ==> mstids[i] <= MAX_MSTID)
  }

  class Tables {
    const vid2fid: array<U16>
    const fid2mstid: array<U16>
    var mstids: seq<U16>
    var digest: seq<Md5.Byte>
    var begins: nat  // how often the state machines began again

    ghost predicate InRange()
      reads this, vid2fid, fid2mstid
    {
      && vid2fid.Length == MAX_VID + 1 && fid2mstid.Length == MAX_FID + 1 && vid2fid != fid2mstid
      && (forall vid :: 1 <= vid <= MAX_VID ==> vid2fid[vid] <= MAX_FID)
    }

    ghost function Table(): seq<U16>
      reads this, vid2fid, fid2mstid
      requires InRange()
    {
      Composed(vid2fid[..], fid2mstid[..])
    }

    /** Every VID has a FID, every FID a tree, and the digest is that of the composed table. */
    ghost predicate Valid()
      reads this, vid2fid, fid2mstid
    {
      && InRange() && TreeList(mstids) && (forall fid :: 0 <= fid <= MAX_FID ==> fid2mstid[fid] in mstids)
      && digest == DigestOf(Table())
    }

    /** `MSTP_IN_bridge_create`. */
    constructor ()
      ensures Valid() && fresh(vid2fid) && fresh(fid2mstid) && mstids == [0]
      ensures forall fid :: 0 <= fid <= MAX_FID ==> fid2mstid[fid] == 0
    {
      vid2fid := new U16[MAX_VID + 1];
      fid2mstid := new U16[MAX_FID + 1];
      mstids, begins, digest := [], 0, [];
      new;
      hide TreeList, DigestOf, Composed;
      Clear();
    }

    /** All VIDs on FID 0, all FIDs on the CIST. */
    method Clear()
      requires vid2fid.Length == MAX_VID + 1 && fid2mstid.Length == MAX_FID + 1 && vid2fid != fid2mstid
      modifies this, vid2fid, fid2mstid
      ensures Valid() && mstids == [0] && forall fid :: 0 <= fid <= MAX_FID ==> fid2mstid[fid] == 0
    {
      hide TreeList, DigestOf;
      FirstTree();
      forall vid | 0 <= vid < vid2fid.Length { vid2fid[vid] := 0; }
      forall fid | 0 <= fid < fid2mstid.Length { fid2mstid[fid] := 0; }
      mstids := [0];
      Recalculate();
    }

    /** `RecalcConfigDigest`, and the state machines begin. */
    method Recalculate()
      requires InRange()
      modifies this`digest, this`begins
      ensures digest == DigestOf(Table()) && begins == old(begins) + 1
    {
      hide Md5.Hmac;
      var table := new U16[MAX_VID + 2](_ => 0);
      var vid := 1;
      while vid <= MAX_VID
        invariant 1 <= vid <= MAX_VID + 1 && begins == old(begins)
        invariant forall v :: 0 <= v < table.Length ==> table[v] == if v < vid then Table()[v] else 0
      {
        table[vid] := fid2mstid[vid2fid[vid]];
        vid := vid + 1;
      }
      assert table[..] == Table();
      digest := Md5.HmacMd5(BigEndianBytes(table[..]), KEY);
      begins := begins + 1;
    }

    /** `MSTP_IN_set_vid2fid`. */
    method SetVid2Fid(vid: U16, fid: U16) returns (ok: bool)
      requires Valid()
      modifies this`digest, this`begins, vid2fid
      ensures Valid() && ok == (1 <= vid <= MAX_VID && fid <= MAX_FID)
      ensures vid2fid[..] == if ok then old(vid2fid[..])[vid := fid] else old(vid2fid[..])
      ensures begins == old(begins) + if Table() != old(Table()) then 1 else 0
    {
      hide DigestOf;
      if vid < 1 || vid > MAX_VID || fid > MAX_FID { return false; }
      ghost var before := Table();
      var changed := fid2mstid[fid] != fid2mstid[vid2fid[vid]];
      vid2fid[vid] := fid;
      assert Table()[vid] == fid2mstid[fid];
      if changed {
        Recalculate();
      } else {
        assert Table() == before;
      }
      return true;
    }

    /** `MSTP_IN_set_all_vids2fids`; out-of-range values keep the present FID. */
    method SetAllVids2Fids(wanted: seq<U16>)
      requires Valid() && |wanted| == MAX_VID + 1
      modifies this`digest, this`begins, vid2fid
      ensures Valid()
      ensures forall vid :: 1 <= vid <= MAX_VID ==>
        vid2fid[vid] == if wanted[vid] <= MAX_FID then wanted[vid] else old(vid2fid[vid])
      ensures begins == old(begins) + if Table() != old(Table()) then 1 else 0
    {
      hide DigestOf;
      ghost var before := Table();
      var new_ := wanted;
      var changed := false;
      var vid := 1;
      while vid <= MAX_VID
        invariant 1 <= vid <= MAX_VID + 1 && |new_| == MAX_VID + 1 && InRange() && vid2fid[..] == old(vid2fid[..])
        invariant begins == old(begins) && digest == old(digest)
        invariant forall v :: 1 <= v < vid ==> new_[v] == if wanted[v] <= MAX_FID then wanted[v] else vid2fid[v]
        invariant forall v :: vid <= v <= MAX_VID ==> new_[v] == wanted[v]
        invariant changed <==> exists v :: 1 <= v < vid && fid2mstid[new_[v]] != fid2mstid[vid2fid[v]]
      {
        if new_[vid] > MAX_FID {
          new_ := new_[vid := vid2fid[vid]];
        } else if fid2mstid[new_[vid]] != fid2mstid[vid2fid[vid]] {
          changed := true;
        }
        vid := vid + 1;
      }
      ghost var v := 1;
      if changed { v :| 1 <= v <= MAX_VID && fid2mstid[new_[v]] != fid2mstid[vid2fid[v]]; }
      forall i | 0 <= i < vid2fid.Length { vid2fid[i] := new_[i]; }
      assert InRange();
      if changed {
        assert Table()[v] != before[v];
        Recalculate();
      } else {
        assert Table() == before;
      }
    }

    /** Does a tree with this MSTID exist? */
    method HasTree(mstid: U16) returns (found: bool)
      ensures found == (mstid in mstids)
    {
      var i := 0;
      while i < |mstids|
        invariant 0 <= i <= |mstids| && mstid !in mstids[..i]
      {
        if mstids[i] == mstid { return true; }
        i := i + 1;
      }
      return false;
    }

    /** `MSTP_IN_set_fid2mstid`. */
    method SetFid2Mstid(fid: U16, mstid: U16) returns (ok: bool)
      requires Valid()
      modifies this`digest, this`begins, fid2mstid
      ensures Valid() && ok == (fid <= MAX_FID && mstid in mstids)
      ensures fid2mstid[..] == if ok then old(fid2mstid[..])[fid := mstid] else old(fid2mstid[..])
      ensures begins == old(begins) + if Table() != old(Table()) then 1 else 0
    {
      hide DigestOf;
      if fid > MAX_FID { return false; }
      ok := HasTree(mstid);
      if !ok { return; }
      ghost var before := Table();
      if fid2mstid[fid] != mstid {
        fid2mstid[fid] := mstid;
        var vid := 1;
        while vid <= MAX_VID && vid2fid[vid] != fid
          invariant 1 <= vid <= MAX_VID + 1 && forall v :: 1 <= v < vid ==> vid2fid[v] != fid
        {
          vid := vid + 1;
        }
        if vid <= MAX_VID {
          assert Table()[vid] != before[vid];
          Recalculate();
        } else {
          assert Table() == before;
        }
      }
    }

    /** `MSTP_IN_set_all_fids2mstids`; out-of-range values keep the present MSTID. */
    method SetAllFids2Mstids(wanted: seq<U16>) returns (ok: bool)
      requires Valid() && |wanted| == MAX_FID + 1
      modifies this`digest, this`begins, fid2mstid
      ensures Valid()
      ensures ok == forall fid :: 0 <= fid <= MAX_FID && wanted[fid] <= MAX_MSTID ==> wanted[fid] in mstids
      ensures forall fid :: 0 <= fid <= MAX_FID ==>
        fid2mstid[fid] == if ok && wanted[fid] <= MAX_MSTID then wanted[fid] else old(fid2mstid[fid])
      ensures begins == old(begins) + if Table() != old(Table()) then 1 else 0
    {
      hide DigestOf;
      var new_ := wanted;
      var fid := 0;
      while fid <= MAX_FID
        invariant 0 <= fid <= MAX_FID + 1 && |new_| == MAX_FID + 1 && Valid()
        invariant fid2mstid[..] == old(fid2mstid[..]) && begins == old(begins)
        invariant forall f :: 0 <= f < fid ==>
          new_[f] == (if wanted[f] <= MAX_MSTID then wanted[f] else fid2mstid[f]) && new_[f] in mstids
        invariant forall f :: fid <= f <= MAX_FID ==> new_[f] == wanted[f]
      {
        if new_[fid] > MAX_MSTID { new_ := new_[fid := fid2mstid[fid]]; }
        var found := HasTree(new_[fid]);
        if !found { return false; }
        fid := fid + 1;
      }
      Adopt(new_);
      return true;
    }

    /** The second half of `MSTP_IN_set_all_fids2mstids`: the table is replaced, and the composed tables compared. */
    method Adopt(new_: seq<U16>)
      requires Valid() && |new_| == MAX_FID + 1 && forall fid :: 0 <= fid <= MAX_FID ==> new_[fid] in mstids
      modifies this`digest, this`begins, fid2mstid
      ensures Valid() && fid2mstid[..] == new_
      ensures begins == old(begins) + if Table() != old(Table()) then 1 else 0
    {
      hide DigestOf;
      ghost var before := Table();
      var previous := new U16[MAX_VID + 2](_ => 0);
      var vid := 1;
      while vid <= MAX_VID
        invariant 1 <= vid <= MAX_VID + 1 && Valid() && fid2mstid[..] == old(fid2mstid[..]) && begins == old(begins)
        invariant forall v :: 1 <= v < vid ==> previous[v] == before[v]
      {
        previous[vid] := fid2mstid[vid2fid[vid]];
        vid := vid + 1;
      }
      forall f | 0 <= f < fid2mstid.Length { fid2mstid[f] := new_[f]; }
      var changed := false;
      vid := 1;
      while vid <= MAX_VID && !changed
        invariant 1 <= vid <= MAX_VID + 1 && InRange()
        invariant changed ==> Table() != before
        invariant !changed ==> forall v :: 1 <= v < vid ==> Table()[v] == before[v]
      {
        if previous[vid] != fid2mstid[vid2fid[vid]] {
          changed := true;
          assert Table()[vid] != before[vid];
        }
        vid := vid + 1;
      }
      if changed {
        Recalculate();
      } else {
        assert Table() == before;
      }
    }

    /** `MSTP_IN_create_msti` on the list of trees. */
    method CreateMsti(mstid: U16) returns (ok: bool)
      requires Valid()
      modifies this`mstids
      ensures Valid()
      ensures ok == (1 <= mstid <= MAX_MSTID && (mstid in old(mstids) || |old(mstids)| <= MAX_IMPLEMENTATION_MSTIS))
      ensures forall m :: m in mstids <==> m in old(mstids) || (ok && m == mstid)
    {
      hide DigestOf;
      if mstid < 1 || mstid > MAX_MSTID { return false; }
      var k := 0;
      while k < |mstids| && mstids[k] < mstid
        invariant 0 <= k <= |mstids| && forall i :: 0 <= i < k ==> mstids[i] < mstid
      {
        k := k + 1;
      }
      if k < |mstids| && mstids[k] == mstid { return true; }
      if MAX_IMPLEMENTATION_MSTIS < |mstids| { return false; }
      assert mstids == mstids[..k] + mstids[k..];
      mstids := mstids[..k] + [mstid] + mstids[k..];
      return true;
    }

    /** `MSTP_IN_delete_msti` on the list of trees. */
    method DeleteMsti(mstid: U16) returns (ok: bool)
      requires Valid()
      modifies this`mstids
      ensures Valid()
      ensures ok == (1 <= mstid <= MAX_MSTID && forall fid :: 0 <= fid <= MAX_FID ==> fid2mstid[fid] != mstid)
      ensures forall m :: m in mstids <==> m in old(mstids) && !(ok && m == mstid)
    {
      hide DigestOf;
      if mstid < 1 || mstid > MAX_MSTID { return false; }
      var fid := 0;
      while fid <= MAX_FID
        invariant 0 <= fid <= MAX_FID + 1 && forall f :: 0 <= f < fid ==> fid2mstid[f] != mstid
      {
        if fid2mstid[fid] == mstid { return false; }
        fid := fid + 1;
      }
      var k := 0;
      while k < |mstids| && mstids[k] != mstid
        invariant 0 <= k <= |mstids| && forall i :: 0 <= i < k ==> mstids[i] != mstid
      {
        k := k + 1;
      }
      if k == |mstids| { return true; }
      assert mstids == mstids[..k] + [mstid] + mstids[k + 1..];
      mstids := mstids[..k] + mstids[k + 1..];
      return true;
    }
  }

  lemma FirstTree()
    ensures TreeList([0])
  {
  }
}
