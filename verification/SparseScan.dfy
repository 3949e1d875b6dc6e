/**
 Finding data and holes in a buffer of sectors (qemu-img.c).
 */
module SparseScan {

  /** A sector's bytes read as one number, 0 for all-zero contents. */
  type Sector = nat

  // ----- masks -----

  function Pow2(k: nat): (r: nat)
    ensures r > 0
  {
    if k == 0 then 1 else 2 * Pow2(k - 1)
  }

  /** The bitwise `and` of two numbers. */
  function And(a: nat, b: nat): nat {
    if a == 0 || b == 0 then 0 else 2 * And(a / 2, b / 2) + (a % 2) * (b % 2)
  }

  /** Masking with a power of two less one is the remainder. */
  lemma {:induction false} MaskIsRemainder(x: nat, k: nat)
    ensures And(x, Pow2(k) - 1) == x % Pow2(k)
    decreases k
  {
    if k > 0 {
      MaskIsRemainder(x / 2, k - 1);
      MaskStep(x, Pow2(k - 1));
    }
  }

  lemma {:induction false} MaskStep(x: nat, m: nat)
    requires m > 0 && And(x / 2, m - 1) == x / 2 % m
    ensures And(x, 2 * m - 1) == x % (2 * m)
  {
    HalfRemainder(x, m);
    assert (2 * m - 1) / 2 == m - 1 && (2 * m - 1) % 2 == 1;
    assert (x % 2) * ((2 * m - 1) % 2) == x % 2;
  }

  lemma {:induction false} HalfRemainder(x: nat, m: nat)
    requires m > 0
    ensures x % (2 * m) == 2 * (x / 2 % m) + x % 2
  {
    var q, r := x / 2 / m, x / 2 % m;
    assert x / 2 == q * m + r;
    assert x == q * (2 * m) + (2 * r + x % 2);
    DivUnique(x, 2 * m, q, 2 * r + x % 2);
  }

  lemma {:induction false} DivUnique(x: nat, m: nat, q: nat, r: nat)
    requires 0 <= r < m && x == q * m + r
    ensures x % m == r
  {
    var q', r' := x / m, x % m;
    assert (q' - q) * m == r - r';
    FarMultiple(q' - q, m);
  }

  lemma {:induction false} FarMultiple(d: int, m: int)
    requires m > 0
    ensures (d >= 1 ==> d * m >= m) && (d <= -1 ==> d * m <= -m)
  {
    if d >= 1 {
      assert (d - 1) * m >= 0;
    } else if d <= -1 {
      assert (-d - 1) * m >= 0;
    }
  }

  // ----- runs of equal sectors -----

  predicate Zeros(buf: seq<Sector>, from: nat, to: nat)
    requires from <= to <= |buf|
  {
    forall k :: from <= k < to ==> buf[k] == 0
  }

  /** Where the run of zero, or of non-zero, sectors that starts the buffer ends. */
  method RunLength(buf: seq<Sector>) returns (i: nat)
    requires |buf| > 0
    ensures 1 <= i <= |buf|
    ensures forall k :: 0 <= k < i ==> (buf[k] == 0) == (buf[0] == 0)
    ensures i < |buf| ==> (buf[i] == 0) != (buf[0] == 0)
  {
    i := 1;
    while i < |buf| && (buf[i] == 0) == (buf[0] == 0)
      invariant 1 <= i <= |buf|
      invariant forall k :: 0 <= k < i ==> (buf[k] == 0) == (buf[0] == 0)
    {
      i := i + 1;
    }
  }

  predicate Aligned(x: int, k: nat) { x % Pow2(k) == 0 }

  /** Moving an end by its remainder, down or up, aligns it. */
  lemma {:induction false} Align(x: nat, k: nat)
    ensures Aligned(x - x % Pow2(k), k) && Aligned(x + (Pow2(k) - x % Pow2(k)), k)
  {
    RoundedDown(x, Pow2(k));
  }

  lemma {:induction false} RoundedDown(x: nat, m: nat)
    requires m > 0
    ensures (x - x % m) % m == 0 && (x + (m - x % m)) % m == 0
  {
    var q, r := x / m, x % m;
    DivUnique(x - r, m, q, 0);
    assert (q + 1) * m == q * m + m;
    DivUnique(x - r + m, m, q + 1, 0);
  }

  /** What a scan of buf, starting at a sector number, may report. */
  predicate ScanOk(buf: seq<Sector>, sectorNum: nat, k: nat, data: bool, pnum: nat) {
    && pnum <= |buf| && (|buf| > 0 ==> 1 <= pnum)
    && (!data ==> Zeros(buf, 0, pnum))
    && (Aligned(sectorNum + pnum, k) || pnum == |buf|)
  }

  /** The zeros that start the buffer end at i, within the aligned piece that i lies
      in and that began no later than the buffer. */
  predicate SwallowedAt(buf: seq<Sector>, sectorNum: nat, k: nat, i: nat) {
    1 <= i < |buf| && Zeros(buf, 0, i) && buf[i] != 0 && i <= (sectorNum + i) % Pow2(k)
  }

  predicate Swallowed(buf: seq<Sector>, sectorNum: nat, k: nat) {
    exists i :: 0 <= i < |buf| && SwallowedAt(buf, sectorNum, k, i)
  }

  /** For one: a zero sector at an odd place, before data, with an alignment of 4. */
  lemma {:induction false} SwallowedExample()
    ensures Swallowed([0, 7], 1, 2)
  {
    assert Pow2(2) == 4 && Pow2(1) == 2 && Pow2(0) == 1;
    assert SwallowedAt([0, 7], 1, 2, 1);
  }

  /** The buffer starts with exactly r sectors that are zero, or data, like its first. */
  predicate RunEnds(buf: seq<Sector>, r: nat) {
    && 1 <= r <= |buf| && (forall k :: 0 <= k < r ==> (buf[k] == 0) == (buf[0] == 0))
    && (r < |buf| ==> (buf[r] == 0) != (buf[0] == 0))
  }

  /** Where a report ends for a run of r sectors: at the end of the buffer, or the run
      rounded up to an aligned sector for data and down for zeros. */
  function ReportEnd(n: nat, r: nat, sectorNum: nat, k: nat, data: bool): int {
    var tail := (sectorNum + r) % Pow2(k);
    if r == n || tail == 0 then r
    else if !data then r - tail
    else if r + (Pow2(k) - tail) > n then n else r + (Pow2(k) - tail)
  }

  /** is_allocated_sectors, for alignment 2^k.  The verdict is "data" for a buffer
      that starts with data, and also for one that starts with so few zeros before
      its first data that they end within an unaligned piece. */
  method IsAllocatedSectors(buf: seq<Sector>, sectorNum: nat, k: nat) returns (data: bool, pnum: nat)
    ensures ScanOk(buf, sectorNum, k, data, pnum)
    ensures |buf| == 0 ==> !data && pnum == 0
    ensures |buf| > 0 ==> (data <==> buf[0] != 0 || Swallowed(buf, sectorNum, k))
    ensures |buf| > 0 ==> exists r :: 0 <= r <= |buf| && RunEnds(buf, r) && pnum == ReportEnd(|buf|, r, sectorNum, k, data)
  {
    if |buf| == 0 {
      return false, 0;
    }
    var i := RunLength(buf);
    var isZero := buf[0] == 0;
    assert RunEnds(buf, i);
    if i == |buf| {
      return !isZero, i;
    }
    MaskIsRemainder(sectorNum + i, k);
    Align(sectorNum + i, k);
    ghost var run := i;
    var alignment := Pow2(k);
    var tail := And(sectorNum + i, alignment - 1);
    if tail != 0 {
      if isZero && i <= tail {
        isZero := false;
      }
      if !isZero {
        i := i + (alignment - tail);
        if i > |buf| { i := |buf|; }
      } else {
        i := i - tail;
      }
    }
    data, pnum := !isZero, i;
    if buf[0] == 0 {
      assert Zeros(buf, 0, run) && buf[run] != 0;
      assert run <= tail ==> SwallowedAt(buf, sectorNum, k, run);
    }
  }

  /** is_allocated_sectors_min: a report of data that stops short of the end of the
      buffer is followed by zeros only, at least `min` of them or up to the end. */
  method IsAllocatedSectorsMin(buf: seq<Sector>, min: nat, sectorNum: nat, k: nat) returns (data: bool, pnum: nat)
    ensures ScanOk(buf, sectorNum, k, data, pnum)
    ensures |buf| > 0 ==> (data <==> buf[0] != 0 || Swallowed(buf, sectorNum, k))
    ensures data && pnum < |buf| ==> exists e :: pnum < e <= |buf| && Zeros(buf, pnum, e) && (e == |buf| || e - pnum >= min)
  {
    var least := if |buf| < min then |buf| else min;
    data, pnum := IsAllocatedSectors(buf, sectorNum, k);
    if !data {
      return;
    }
    var used, checked := pnum, pnum;
    while checked < |buf|
      invariant 1 <= used <= checked <= |buf|
      invariant Zeros(buf, used, checked)
      invariant Aligned(sectorNum + used, k) || used == |buf|
      decreases |buf| - checked
    {
      var more, n := IsAllocatedSectors(buf[checked..], sectorNum + checked, k);
      ghost var at := checked;
      checked := checked + n;
      if more {
        used := checked;
      } else {
        assert forall x :: at <= x < checked ==> buf[x] == buf[at..][x - at];
        if n >= least {
          break;
        }
      }
    }
    pnum := used;
    data := true;
    if pnum < |buf| { assert pnum < checked <= |buf| && Zeros(buf, pnum, checked); }
  }
}
