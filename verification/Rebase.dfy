/**
 Safe rebase (qemu-img.c): moving an image to another backing file without changing
 what a guest reads from it.
 */
module Rebase {
  import opened Basics

  const SECTOR := 512
  const IO_BUF_SIZE := 2 * 1024 * 1024

  // ----- comparing buffers -----

  /** Whether the sector-sized piece at i differs. */
  predicate Differs(a: seq<Byte>, b: seq<Byte>, i: nat)
    requires |a| == |b| && i <= |a|
  {
    a[i..Least(i + SECTOR, |a|)] != b[i..Least(i + SECTOR, |a|)]
  }

  /** compare_buffers: the longest prefix, in whole sectors, that differs, or agrees,
      sector by sector as its first one does. */
  method CompareBuffers(a: seq<Byte>, b: seq<Byte>) returns (differ: bool, pnum: nat)
    requires |a| == |b| > 0
    ensures 0 < pnum <= |a| && (pnum % SECTOR == 0 || pnum == |a|)
    ensures differ == Differs(a, b, 0)
    ensures forall i :: 0 <= i < pnum && i % SECTOR == 0 ==> Differs(a, b, i) == differ
    ensures pnum < |a| ==> Differs(a, b, pnum) != differ
    ensures !differ ==> a[..pnum] == b[..pnum]
  {
    pnum := Least(|a|, SECTOR);
    differ := a[..pnum] != b[..pnum];
    assert a[..pnum] == a[0..pnum] && b[..pnum] == b[0..pnum];
    while pnum < |a|
      invariant 0 < pnum <= |a| && (pnum % SECTOR == 0 || pnum == |a|)
      invariant differ == Differs(a, b, 0)
      invariant forall i :: 0 <= i < pnum && i % SECTOR == 0 ==> Differs(a, b, i) == differ
      invariant !differ ==> a[..pnum] == b[..pnum]
    {
      var len := Least(|a| - pnum, SECTOR);
      if (a[pnum..pnum + len] != b[pnum..pnum + len]) != differ {
        break;
      }
      if !differ {
        assert a[..pnum + len] == a[..pnum] + a[pnum..pnum + len];
        assert b[..pnum + len] == b[..pnum] + b[pnum..pnum + len];
      }
      pnum := pnum + len;
    }
  }

  // ----- an image over a backing file -----

  /** A backing file read at any offset: zeros follow its end. */
  function Base(backing: seq<Byte>, o: nat): Byte { if o < |backing| then backing[o] else 0 }

  /** What the driver does on a write besides the bytes asked for: it may allocate
      more, filled from the backing file; a failed write may have reached any part. */
  datatype WriteChoice = WriteChoice(extra: set<nat>, fails: bool, reached: set<nat>)

  predicate Reached(c: WriteChoice, off: nat, n: nat, o: nat) { off <= o < off + n && (c.fails ==> o in c.reached) }

  /** What is read at offset o: the image's own byte, or the backing file's. */
  function Seen(backing: seq<Byte>, store: map<nat, Byte>, o: nat): Byte { if o in store then store[o] else Base(backing, o) }

  ghost function SeenAll(size: nat, backing: seq<Byte>, store: map<nat, Byte>): seq<Byte> {
    seq(size, o requires o >= 0 => Seen(backing, store, o))
  }

  class CowImage {
    const size: nat
    var backing: seq<Byte>
    var store: map<nat, Byte>
    ghost var seen: seq<seq<Byte>>

    ghost predicate Valid()
      reads this
    {
      forall o :: o in store ==> o < size
    }

    constructor (size: nat, backing: seq<Byte>, store: map<nat, Byte>)
      requires forall o :: o in store ==> o < size
      ensures Valid() && this.size == size && this.backing == backing && this.store == store
    {
      this.size, this.backing, this.store, this.seen := size, backing, store, [];
    }

    function Visible(o: nat): Byte
      reads this`store, this`backing
    {
      Seen(backing, store, o)
    }

    /** What a guest reads from the whole image. */
    ghost function Contents(): seq<Byte>
      reads this`store, this`backing
    {
      SeenAll(size, backing, store)
    }

    /** blk_pwrite and blk_pwrite_zeroes; `seen` keeps what a guest reads after each. */
    method Write(off: nat, bytes: seq<Byte>) returns (ok: bool)
      requires Valid() && off + |bytes| <= size
      modifies this`store, this`seen
      ensures Valid() && old(store.Keys) <= store.Keys && seen == old(seen) + [Contents()]
      ensures ok ==> forall o :: off <= o < off + |bytes| ==> o in store && store[o] == bytes[o - off]
      ensures forall o: nat :: !(off <= o < off + |bytes|) ==> Visible(o) == old(Visible(o))
      ensures forall o: nat :: off <= o < off + |bytes| ==> Visible(o) == old(Visible(o)) || Visible(o) == bytes[o - off]
    {
      var choice: WriteChoice := *;
      store := map o: nat | o < size && (o in store || o in choice.extra || Reached(choice, off, |bytes|, o)) ::
        if Reached(choice, off, |bytes|, o) then bytes[o - off] else Visible(o);
      seen := seen + [Contents()];
      return !choice.fails;
    }

    /** bdrv_is_allocated: an error, or the state shared by the next pnum bytes. */
    method IsAllocated(off: nat, n: nat) returns (failed: bool, present: bool, pnum: nat)
      requires n > 0
      ensures 1 <= pnum <= n && forall o :: off <= o < off + pnum ==> (o in store) == present
    {
      failed := *;
      present := off in store;
      pnum := 1;
      var more: bool := *;
      while more && pnum < n && (off + pnum in store) == present
        invariant 1 <= pnum <= n && forall o :: off <= o < off + pnum ==> (o in store) == present
        decreases n - pnum
      {
        pnum := pnum + 1;
        more := *;
      }
    }
  }

  /** bdrv_is_allocated_above, between the old backing file and one further down its
      chain: where nothing is allocated in between, both read alike. */
  method IsAllocatedAbove(oldBacking: seq<Byte>, newBacking: seq<Byte>, off: nat, n: nat)
    returns (failed: bool, present: bool, pnum: nat)
    requires n > 0
    ensures 1 <= pnum <= n
    ensures !present ==> forall o :: off <= o < off + pnum ==> Base(oldBacking, o) == Base(newBacking, o)
  {
    failed := *;
    pnum := *;
    if !(1 <= pnum <= n) { pnum := n; }
    present := *;
    if exists o :: off <= o < off + pnum && Base(oldBacking, o) != Base(newBacking, o) {
      present := true;
    }
  }

  /** blk_pread, or zeros past the end of the backing file: the piece read may be
      shorter than asked for, and stops at the end of the file. */
  method ReadBase(backing: seq<Byte>, off: nat, n: nat) returns (failed: bool, buf: seq<Byte>, isZero: bool)
    requires n > 0
    ensures 0 < |buf| <= n && forall i :: 0 <= i < |buf| ==> buf[i] == Base(backing, off + i)
    ensures isZero ==> forall i :: 0 <= i < |buf| ==> buf[i] == 0
  {
    failed := false;
    if off >= |backing| {
      buf, isZero := seq(n, i => 0), true;
    } else {
      var len := if off + n > |backing| then |backing| - off else n;
      buf, isZero := backing[off..off + len], false;
      failed := *;
    }
  }

  /** No byte of a range needs the old backing file any more. */
  ghost predicate Settled(img: CowImage, newBacking: seq<Byte>, from: nat, to: nat)
    reads img
  {
    forall o :: from <= o < to ==> o in img.store || Base(img.backing, o) == Base(newBacking, o)
  }

  /** Every write since the guest last saw `was` left it seeing just that. */
  ghost predicate Unseen(img: CowImage, was: seq<seq<Byte>>, before: seq<Byte>)
    reads img
  {
    was <= img.seen && forall i :: |was| <= i < |img.seen| ==> img.seen[i] == before
  }

  /** Writing to the image what a guest reads from it anyway. */
  method CopyPiece(img: CowImage, off: nat, piece: seq<Byte>, isZero: bool) returns (ok: bool)
    requires img.Valid() && off + |piece| <= img.size
    requires forall i :: 0 <= i < |piece| ==> piece[i] == img.Visible(off + i)
    requires isZero ==> forall i :: 0 <= i < |piece| ==> piece[i] == 0
    modifies img`store, img`seen
    ensures img.Valid() && old(img.store.Keys) <= img.store.Keys
    ensures forall o: nat :: img.Visible(o) == old(img.Visible(o))
    ensures img.Contents() == old(img.Contents()) && img.seen == old(img.seen) + [img.Contents()]
    ensures ok ==> forall o :: off <= o < off + |piece| ==> o in img.store
  {
    var bytes := if isZero then seq(|piece|, i => 0) else piece;
    forall o: nat | off <= o < off + |piece| ensures bytes[o - off] == img.Visible(o) {
      assert piece[o - off] == img.Visible(off + (o - off));
    }
    ghost var before := img.Contents();
    ok := img.Write(off, bytes);
    SameContents(img, before);
  }

  /** The inner loop: what differs is copied from the old backing file.  No write
      changes what a guest reads, whether it succeeds or not. */
  method CopyDifferences(img: CowImage, newBacking: seq<Byte>, off: nat, bufOld: seq<Byte>, isZero: bool, bufNew: seq<Byte>)
    returns (ok: bool)
    requires img.Valid() && off + |bufOld| <= img.size && |bufOld| == |bufNew|
    requires forall i :: 0 <= i < |bufOld| ==> bufOld[i] == img.Visible(off + i) == Base(img.backing, off + i)
    requires forall i :: 0 <= i < |bufNew| ==> bufNew[i] == Base(newBacking, off + i)
    requires isZero ==> forall i :: 0 <= i < |bufOld| ==> bufOld[i] == 0
    modifies img`store, img`seen
    ensures img.Valid() && old(img.store.Keys) <= img.store.Keys
    ensures forall o: nat :: img.Visible(o) == old(img.Visible(o))
    ensures Unseen(img, old(img.seen), old(img.Contents())) && img.Contents() == old(img.Contents())
    ensures ok ==> Settled(img, newBacking, off, off + |bufOld|)
  {
    var written := 0;
    while written < |bufOld|
      invariant 0 <= written <= |bufOld| && img.Valid() && old(img.store.Keys) <= img.store.Keys
      invariant forall o: nat :: img.Visible(o) == old(img.Visible(o))
      invariant Unseen(img, old(img.seen), old(img.Contents())) && img.Contents() == old(img.Contents())
      invariant Settled(img, newBacking, off, off + written)
    {
      var a, b := bufOld[written..], bufNew[written..];
      var differ, pnum := CompareBuffers(a, b);
      ghost var from, to := off + written, off + written + pnum;
      if differ {
        forall i | 0 <= i < pnum ensures a[..pnum][i] == img.Visible(from + i) && (isZero ==> a[..pnum][i] == 0) {
          assert a[..pnum][i] == bufOld[written + i] == old(img.Visible(off + (written + i)));
        }
        var done := CopyPiece(img, off + written, a[..pnum], isZero);
        if !done {
          return false;
        }
      } else {
        forall o | from <= o < to ensures Base(img.backing, o) == Base(newBacking, o) {
          assert a[..pnum][o - from] == b[..pnum][o - from];
        }
      }
      written := written + pnum;
    }
    return true;
  }

  /** img_rebase without -u.  Whatever the sizes of the two backing files, whatever is
      allocated, and however it ends, a guest reads the same as before, and so it does
      after every single write; on success the image is backed by the new file. */
  method SafeRebase(img: CowImage, newBacking: seq<Byte>, prefixChain: bool) returns (ok: bool)
    requires img.Valid()
    modifies img
    ensures img.Valid() && img.Contents() == old(img.Contents())
    ensures Unseen(img, old(img.seen), old(img.Contents()))
    ensures img.backing == if ok then newBacking else old(img.backing)
  {
    ghost var before := img.Contents();
    var offset := 0;
    while offset < img.size
      invariant 0 <= offset <= img.size && img.Valid() && img.backing == old(img.backing)
      invariant forall o: nat :: img.Visible(o) == old(img.Visible(o))
      invariant Unseen(img, old(img.seen), before) && img.Contents() == before
      invariant Settled(img, newBacking, 0, offset)
    {
      ok, offset := RebaseStep(img, newBacking, prefixChain, offset);
      if !ok {
        SameContents(img, before);
        return false;
      }
    }
    var changed: bool := *;
    if !changed {
      SameContents(img, before);
      return false;
    }
    img.backing := newBacking;
    SameContents(img, before);
    return true;
  }

  lemma {:induction false} SameContents(img: CowImage, before: seq<Byte>)
    requires |before| == img.size && forall o :: 0 <= o < img.size ==> img.Visible(o) == before[o]
    ensures img.Contents() == before
  {}

  /** One turn of the outer loop. */
  method RebaseStep(img: CowImage, newBacking: seq<Byte>, prefixChain: bool, offset: nat) returns (ok: bool, next: nat)
    requires img.Valid() && offset < img.size && Settled(img, newBacking, 0, offset)
    modifies img`store, img`seen
    ensures img.Valid() && forall o: nat :: img.Visible(o) == old(img.Visible(o))
    ensures Unseen(img, old(img.seen), old(img.Contents())) && img.Contents() == old(img.Contents())
    ensures ok ==> offset < next <= img.size && Settled(img, newBacking, 0, next)
  {
    next := offset;
    var n := Least(IO_BUF_SIZE, img.size - offset);
    var failed, present, pnum := img.IsAllocated(offset, n);
    if failed {
      return false, next;
    }
    n := pnum;
    if present {
      return true, offset + n;
    }
    if prefixChain {
      failed, present, pnum := IsAllocatedAbove(img.backing, newBacking, offset, n);
      if failed {
        return false, next;
      }
      n := pnum;
      if !present {
        return true, offset + n;
      }
    }
    var bufOld, bufNew, isZero, newZero;
    failed, bufOld, isZero := ReadBase(img.backing, offset, n);
    if failed {
      return false, next;
    }
    failed, bufNew, newZero := ReadBase(newBacking, offset, |bufOld|);
    if failed {
      return false, next;
    }
    n := |bufNew|;
    forall i | 0 <= i < n ensures bufOld[..n][i] == img.Visible(offset + i) == Base(img.backing, offset + i) {
      assert offset + i !in img.store;
    }
    ok := CopyDifferences(img, newBacking, offset, bufOld[..n], isZero, bufNew);
    next := offset + n;
  }
}
