/**
 The pieces of image conversion (qemu-img.c) that one coroutine does by itself:
 finding the source, cutting the next chunk, reading, writing and copying it.  The
 target has no backing file.
 */
module ConvertParts {
  import opened Basics
  import opened SparseScan

  datatype Status = Data | Zero

  const BDRV_REQUEST_MAX_SECTORS := 4194303

  // ----- the sources as one -----

  /** All sources, one after the other. */
  function Joined(parts: seq<seq<Sector>>): seq<Sector> {
    if parts == [] then [] else Joined(parts[..|parts| - 1]) + parts[|parts| - 1]
  }

  lemma {:induction false} JoinedPrefix(parts: seq<seq<Sector>>, k: nat)
    requires k <= |parts|
    ensures Joined(parts[..k]) <= Joined(parts)
    decreases |parts|
  {
    if k == |parts| {
      assert parts[..k] == parts;
    } else {
      assert parts[..|parts| - 1][..k] == parts[..k];
      JoinedPrefix(parts[..|parts| - 1], k);
    }
  }

  /** Source k covers the joined sectors from where the sources before it end. */
  lemma {:induction false} PartOf(parts: seq<seq<Sector>>, k: nat)
    requires k < |parts|
    ensures var off := |Joined(parts[..k])|;
      off + |parts[k]| <= |Joined(parts)| && Joined(parts)[off..off + |parts[k]|] == parts[k]
  {
    assert parts[..k + 1][..k] == parts[..k];
    JoinedPrefix(parts, k + 1);
    var off := |Joined(parts[..k])|;
    assert Joined(parts[..k + 1]) == Joined(parts[..k]) + parts[k];
    assert Joined(parts)[..off + |parts[k]|] == Joined(parts[..k + 1]);
    assert Joined(parts)[off..off + |parts[k]|] == Joined(parts)[..off + |parts[k]|][off..];
  }

  /** convert_select_part: the source a sector is in, and where that source starts. */
  method SelectPart(parts: seq<seq<Sector>>, sectorNum: nat) returns (cur: nat, offset: nat)
    requires sectorNum < |Joined(parts)|
    ensures cur < |parts| && offset == |Joined(parts[..cur])|
    ensures offset <= sectorNum < offset + |parts[cur]|
  {
    cur, offset := 0, 0;
    PartsLeft(parts, 0, sectorNum);
    while sectorNum - offset >= |parts[cur]|
      invariant cur < |parts| && offset == |Joined(parts[..cur])| && offset <= sectorNum
      decreases |parts| - cur
    {
      assert parts[..cur + 1][..cur] == parts[..cur];
      offset := offset + |parts[cur]|;
      cur := cur + 1;
      PartsLeft(parts, cur, sectorNum);
    }
  }

  lemma {:induction false} PartsLeft(parts: seq<seq<Sector>>, cur: nat, sectorNum: nat)
    requires cur <= |parts| && sectorNum < |Joined(parts)| && |Joined(parts[..cur])| <= sectorNum
    ensures cur < |parts|
  {
    assert parts[..|parts|] == parts;
  }

  /** convert_co_read, without --salvage: an error, or the sectors asked for. */
  method CoRead(parts: seq<seq<Sector>>, sectorNum: nat, nb: nat) returns (failed: bool, buf: seq<Sector>)
    requires sectorNum + nb <= |Joined(parts)|
    ensures !failed ==> buf == Joined(parts)[sectorNum..sectorNum + nb]
  {
    buf := [];
    var at, left := sectorNum, nb;
    while left > 0
      invariant 0 <= left <= nb && at + left == sectorNum + nb && buf == Joined(parts)[sectorNum..at]
    {
      var cur, offset := SelectPart(parts, at);
      var n := if left < |parts[cur]| - (at - offset) then left else |parts[cur]| - (at - offset);
      failed := *;
      if failed {
        return;
      }
      PartOf(parts, cur);
      var piece := parts[cur][at - offset..at - offset + n];
      assert piece == Joined(parts)[at..at + n] by { Sliced(Joined(parts), parts[cur], offset, at, n); }
      buf := buf + piece;
      at := at + n;
      left := left - n;
    }
    failed := false;
  }

  lemma {:induction false} Sliced(all: seq<Sector>, part: seq<Sector>, offset: nat, at: nat, n: nat)
    requires offset + |part| <= |all| && all[offset..offset + |part|] == part
    requires offset <= at && at + n <= offset + |part|
    ensures part[at - offset..at - offset + n] == all[at..at + n]
  {
    var p := at - offset;
    var a, b := part[p..p + n], all[at..at + n];
    forall i | 0 <= i < n ensures a[i] == b[i] {
      assert part[p + i] == all[offset..offset + |part|][p + i];
    }
  }

  // ----- cutting the next chunk -----

  /** bdrv_block_status_above on one source: an error, or how many of the next sectors
      (rounded up to whole ones) read as zeros, or may hold data. */
  method BlockStatusAbove(part: seq<Sector>, offset: nat, n: nat) returns (failed: bool, zero: bool, count: nat)
    requires offset < |part| && n > 0
    ensures 1 <= count <= n && offset + count <= |part|
    ensures zero ==> Zeros(part, offset, offset + count)
  {
    failed := *;
    count := *;
    if !(1 <= count <= n && offset + count <= |part|) {
      count := 1;
    }
    zero := *;
    if !Zeros(part, offset, offset + count) {
      zero := false;
    }
  }

  /** The cached status holds up to the sector it is kept for. */
  predicate CacheOk(src: seq<Sector>, sectorNum: nat, status: Status, nextStatus: nat) {
    status.Zero? && sectorNum < nextStatus ==> nextStatus <= |src| && Zeros(src, sectorNum, nextStatus)
  }

  /** What the caller may rely on about a chunk of n sectors. */
  predicate ChunkOk(src: seq<Sector>, sectorNum: nat, n: nat, status: Status, bufSectors: nat) {
    && 1 <= n && sectorNum + n <= |src|
    && (status.Zero? ==> Zeros(src, sectorNum, sectorNum + n))
    && (status.Data? ==> n <= bufSectors)
  }

  predicate Multiple(n: nat, c: nat) { c > 0 && n % c == 0 }

  lemma {:induction false} OneMultiple(c: nat)
    requires c > 0
    ensures Multiple(c, c)
  {}

  /** QEMU_ALIGN_DOWN */
  function AlignedDown(n: nat, c: nat): (r: nat)
    requires 0 < c <= n
    ensures 1 <= r <= n && Multiple(r, c)
  {
    RoundedDown(n, c);
    n - n % c
  }

  class Iteration {
    const parts: seq<seq<Sector>>
    const alignments: seq<nat>
    const compressed: bool
    const clusterSectors: nat
    const bufSectors: nat
    var status: Status
    var nextStatus: nat

    ghost predicate Valid()
      reads this
    {
      && |alignments| == |parts| && (forall i :: 0 <= i < |alignments| ==> alignments[i] > 0)
      && bufSectors > 0 && (compressed ==> clusterSectors == bufSectors)
    }

    constructor (parts: seq<seq<Sector>>, alignments: seq<nat>, compressed: bool, clusterSectors: nat, bufSectors: nat)
      requires |alignments| == |parts| && (forall i :: 0 <= i < |alignments| ==> alignments[i] > 0)
      requires bufSectors > 0 && (compressed ==> clusterSectors == bufSectors)
      ensures Valid() && this.parts == parts && nextStatus == 0
    {
      this.parts, this.alignments, this.compressed := parts, alignments, compressed;
      this.clusterSectors, this.bufSectors, this.status, this.nextStatus := clusterSectors, bufSectors, Data, 0;
    }

    /** The status query of convert_iteration_sectors, and what is kept of it. */
    method Query(sectorNum: nat, limit: nat) returns (failed: bool, n: nat)
      requires Valid() && sectorNum < |Joined(parts)| && limit > 0 && sectorNum + limit <= |Joined(parts)|
      modifies this`status, this`nextStatus
      ensures !failed ==> 1 <= n <= limit && nextStatus == sectorNum + n && CacheOk(Joined(parts), sectorNum, status, nextStatus)
    {
      var cur, offset := SelectPart(parts, sectorNum);
      var zero, count;
      failed, zero, count := BlockStatusAbove(parts[cur], sectorNum - offset, limit);
      if failed {
        return true, 0;
      }
      n := count;
      var tail := (sectorNum - offset + n) % alignments[cur];
      if n > tail {
        n := n - tail;
      }
      status := if zero then Zero else Data;
      nextStatus := sectorNum + n;
      if zero {
        PartOf(parts, cur);
        forall k | sectorNum <= k < nextStatus ensures Joined(parts)[k] == 0 {
          assert parts[cur][k - offset] == Joined(parts)[offset..offset + |parts[cur]|][k - offset];
        }
      }
    }

    /** convert_iteration_sectors: never an empty chunk nor one past the end; a chunk
        called zero is all zeros; for compressed targets whole clusters, but for the
        end of the image. */
    method Sectors(sectorNum: nat) returns (failed: bool, n: nat)
      requires Valid() && sectorNum < |Joined(parts)| && CacheOk(Joined(parts), sectorNum, status, nextStatus)
      modifies this`status, this`nextStatus
      ensures !failed ==> ChunkOk(Joined(parts), sectorNum, n, status, bufSectors)
      ensures !failed ==> CacheOk(Joined(parts), sectorNum + n, status, nextStatus)
      ensures !failed && compressed ==> Multiple(n, clusterSectors) || sectorNum + n == |Joined(parts)|
    {
      hide Joined, Multiple;
      failed := false;
      n := Least(|Joined(parts)| - sectorNum, BDRV_REQUEST_MAX_SECTORS);
      if nextStatus <= sectorNum {
        failed, n := Query(sectorNum, n);
        if failed {
          return;
        }
      }
      n := Least(n, nextStatus - sectorNum);
      if status.Data? {
        n := Least(n, bufSectors);
      }
      if compressed {
        if n < clusterSectors {
          n := Least(clusterSectors, |Joined(parts)| - sectorNum);
          status := Data;
          OneMultiple(clusterSectors);
        } else {
          n := AlignedDown(n, clusterSectors);
        }
      }
    }
  }

  // ----- writing a chunk -----

  /** How convert_co_write cuts the rest of a chunk: a piece to be written as it is,
      or one of zeros. */
  predicate PieceOk(rest: seq<Sector>, status: Status, minSparse: nat, n: nat, data: bool) {
    && 1 <= n <= |rest| && (minSparse == 0 && status.Data? ==> data)
    && (status.Zero? ==> !data && n == |rest|) && (status.Data? && !data ==> Zeros(rest, 0, n))
  }

  method CutPiece(rest: seq<Sector>, status: Status, minSparse: nat, compressed: bool, sectorNum: nat, k: nat) returns (n: nat, data: bool)
    requires |rest| > 0
    ensures PieceOk(rest, status, minSparse, n, data)
    ensures compressed ==> n == |rest|
  {
    n, data := |rest|, false;
    if status.Data? {
      if minSparse == 0 {
        data := true;
      } else if compressed {
        data := exists i :: 0 <= i < |rest| && rest[i] != 0;
      } else {
        data, n := IsAllocatedSectorsMin(rest, minSparse, sectorNum, k);
      }
    }
  }

  /** The target image.  A failed write may have reached any of its sectors. */
  class Target {
    var sectors: seq<Sector>

    constructor (sectors: seq<Sector>)
      ensures this.sectors == sectors
    {
      this.sectors := sectors;
    }

    /** blk_co_pwrite, blk_co_pwrite_zeroes and blk_co_copy_range */
    method Write(from: nat, bytes: seq<Sector>) returns (failed: bool)
      requires from + |bytes| <= |sectors|
      modifies this
      ensures |sectors| == old(|sectors|)
      ensures forall x :: 0 <= x < |sectors| && !(from <= x < from + |bytes|) ==> sectors[x] == old(sectors[x])
      ensures forall x :: from <= x < from + |bytes| ==> sectors[x] == bytes[x - from] || (failed && sectors[x] == old(sectors[x]))
    {
      failed := *;
      var missed: set<nat> := *;
      var before := sectors;
      sectors := seq(|sectors|, x requires 0 <= x < |before| =>
        if from <= x < from + |bytes| && !(failed && x in missed) then bytes[x - from] else before[x]);
    }

    /** convert_co_write: on success the chunk has the buffer's contents, though
        zeros may not have been written where the target was zero to begin with; and
        in any case nothing else changes. */
    method CoWrite(from: nat, buf: seq<Sector>, status: Status, minSparse: nat, compressed: bool, k: nat, zeroInit: bool) returns (failed: bool)
      requires from + |buf| <= |sectors| && (status.Zero? ==> Zeros(buf, 0, |buf|))
      requires zeroInit ==> forall x :: from <= x < from + |buf| ==> sectors[x] == 0 || sectors[x] == buf[x - from]
      modifies this
      ensures |sectors| == old(|sectors|)
      ensures forall x :: 0 <= x < |sectors| && !(from <= x < from + |buf|) ==> sectors[x] == old(sectors[x])
      ensures forall x :: from <= x < from + |buf| ==> sectors[x] == buf[x - from] || (failed && sectors[x] == old(sectors[x]))
    {
      var done := 0;
      failed := false;
      while done < |buf|
        invariant 0 <= done <= |buf| && |sectors| == old(|sectors|) && !failed
        invariant forall x :: 0 <= x < |sectors| && !(from <= x < from + done) ==> sectors[x] == old(sectors[x])
        invariant forall x :: from <= x < from + done ==> sectors[x] == buf[x - from]
      {
        var rest := buf[done..];
        var n, data := CutPiece(rest, status, minSparse, compressed, from + done, k);
        assert !data ==> forall x :: done <= x < done + n ==> buf[x] == rest[x - done] == 0;
        if data {
          failed := Write(from + done, rest[..n]);
        } else if !zeroInit {
          failed := Write(from + done, seq(n, i => 0));
        }
        if failed {
          return;
        }
        done := done + n;
      }
    }

    /** convert_co_copy_range: source by source, the sectors are copied without being
        read; a failure may leave part of them copied. */
    method CoCopyRange(parts: seq<seq<Sector>>, from: nat, nb: nat) returns (failed: bool)
      requires from + nb <= |Joined(parts)| <= |sectors|
      modifies this
      ensures |sectors| == old(|sectors|)
      ensures forall x :: 0 <= x < |sectors| && !(from <= x < from + nb) ==> sectors[x] == old(sectors[x])
      ensures forall x :: from <= x < from + nb ==> sectors[x] == Joined(parts)[x] || (failed && sectors[x] == old(sectors[x]))
    {
      var at, left := from, nb;
      failed := false;
      while left > 0
        invariant 0 <= left <= nb && at + left == from + nb && |sectors| == old(|sectors|) && !failed
        invariant forall x :: 0 <= x < |sectors| && !(from <= x < at) ==> sectors[x] == old(sectors[x])
        invariant forall x :: from <= x < at ==> sectors[x] == Joined(parts)[x]
      {
        var cur, offset := SelectPart(parts, at);
        var n := Least(left, |parts[cur]| - (at - offset));
        PartOf(parts, cur);
        var piece := parts[cur][at - offset..at - offset + n];
        assert piece == Joined(parts)[at..at + n] by { Sliced(Joined(parts), parts[cur], offset, at, n); }
        failed := Write(at, piece);
        if failed {
          return;
        }
        at := at + n;
        left := left - n;
      }
    }
  }
}
