/**
 Every schedule of the converting coroutines keeps the invariant; if it ends well
 the target is a copy of the sources; and it does end.
 */
module ConvertProof {
  import opened Basics
  import opened SparseScan
  import opened ConvertParts
  import opened Convert

  // ----- counting active coroutines -----

  lemma {:induction false} CountSet(cos: seq<Pc>, i: nat, p: Pc)
    requires i < |cos|
    ensures Count(cos[i := p]) == Count(cos) - Bit(Active(cos[i])) + Bit(Active(p))
    decreases |cos|
  {
    var n := |cos| - 1;
    if i == n {
      assert cos[i := p][..n] == cos[..n];
    } else {
      assert cos[i := p][..n] == cos[..n][i := p];
      CountSet(cos[..n], i, p);
    }
  }

  lemma {:induction false} CountPositive(cos: seq<Pc>, i: nat)
    requires i < |cos| && Active(cos[i])
    ensures Count(cos) > 0
    decreases |cos|
  {
    if i < |cos| - 1 { CountPositive(cos[..|cos| - 1], i); }
  }

  lemma {:induction false} CountSame(a: seq<Pc>, b: seq<Pc>)
    requires |a| == |b| && forall i :: 0 <= i < |a| ==> Active(a[i]) == Active(b[i])
    ensures Count(a) == Count(b)
    decreases |a|
  {
    if a != [] { CountSame(a[..|a| - 1], b[..|b| - 1]); }
  }

  // ----- steps that keep the coroutine's chunk -----

  /** Coroutine i moves on with the same sectors. */
  predicate SameChunk(s: State, i: nat, s': State) {
    && i < |s.cos| && |s'.cos| == |s.cos| && s'.cos == s.cos[i := s'.cos[i]]
    && Has(s.cos[i]) && Has(s'.cos[i]) && s'.cos[i].c.from == s.cos[i].c.from && s'.cos[i].c.to == s.cos[i].c.to
    && s'.claimed == s.claimed && s'.wrOffs == s.wrOffs && s'.lock == s.lock && s'.running == s.running && s'.cuts == s.cuts
    && s'.status == s.status && s'.nextStatus == s.nextStatus && (s'.ret == s.ret || s'.ret.Err?) && |s'.target| == |s.target|
  }

  /** What the step writes: only sectors of its chunk, and it leaves none of them
      unwritten behind it. */
  ghost predicate Fills(cfg: Config, s: State, i: nat, s': State)
    requires SameChunk(s, i, s') && |s.target| == |cfg.src|
  {
    var p, p' := s.cos[i], s'.cos[i];
    && (forall x :: 0 <= x < |cfg.src| && !(p.c.from <= x < p.c.to) ==> s'.target[x] == s.target[x])
    && (!s'.ret.Err? ==> forall x :: p.c.from <= x < p.c.to && x < |cfg.src| ==>
          s'.target[x] == cfg.src[x] || Lo(p') <= x)
    && (cfg.zeroInit ==> forall x :: 0 <= x < |cfg.src| ==> s'.target[x] == 0 || s'.target[x] == cfg.src[x])
  }

  /** What the in-order mode asks of the step. */
  ghost predicate Orderly(cfg: Config, s: State, i: nat, s': State)
    requires SameChunk(s, i, s')
  {
    var p, p' := s.cos[i], s'.cos[i];
    cfg.inOrder ==>
      && TakesTurn(s', p') && (p'.Waiting? ==> Preceded(s, p'))
      && (Puts(p') ==> Puts(p) || (s.ret.InProgress? && p.c.from == s.wrOffs))
  }

  lemma {:induction false} SameChunksOk(cfg: Config, s: State, i: nat, s': State)
    requires SameChunk(s, i, s') && ChunksOk(cfg, s) && ChunkIn(cfg, s', s'.cos[i])
    ensures ChunksOk(cfg, s')
  {
    forall j | 0 <= j < |s'.cos| ensures ChunkIn(cfg, s', s'.cos[j]) {
      if j != i { assert ChunkIn(cfg, s, s.cos[j]); }
    }
  }

  lemma {:induction false} SameApart(s: State, i: nat, s': State)
    requires SameChunk(s, i, s') && Apart(s)
    ensures Apart(s')
  {
    forall a, b | 0 <= a < |s'.cos| && 0 <= b < |s'.cos| && a != b ensures Clear(s'.cos[a], s'.cos[b]) {
      assert Clear(s.cos[a], s.cos[b]);
    }
  }

  lemma {:induction false} SameFilled(cfg: Config, s: State, i: nat, s': State)
    requires SameChunk(s, i, s') && ChunksOk(cfg, s) && Apart(s) && Filled(cfg, s) && Fills(cfg, s, i, s')
    ensures Filled(cfg, s') && ZeroOk(cfg, s')
  {
    if !s'.ret.Err? {
      forall x | 0 <= x < s'.claimed && x < |cfg.src| ensures s'.target[x] == cfg.src[x] || Pending(s', x) {
        if s'.cos[i].c.from <= x < s'.cos[i].c.to {
          assert s'.target[x] == cfg.src[x] || Pends(s'.cos[i], x);
        } else if s.target[x] != cfg.src[x] {
          var j :| 0 <= j < |s.cos| && Pends(s.cos[j], x);
          assert j != i by { assert ChunkIn(cfg, s, s.cos[i]); }
          assert Pends(s'.cos[j], x);
        }
      }
    }
  }

  lemma {:induction false} SameCounts(cfg: Config, s: State, i: nat, s': State)
    requires SameChunk(s, i, s') && CountsOk(cfg, s) && LocksOk(s)
    ensures CountsOk(cfg, s') && LocksOk(s')
  {
    CountSet(s.cos, i, s'.cos[i]);
  }

  lemma {:induction false} SameCovered(s: State, i: nat, s': State, x: nat)
    requires SameChunk(s, i, s') && Covered(s, x)
    ensures Covered(s', x)
  {
    var j :| 0 <= j < |s.cos| && Covers(s.cos[j], x);
    assert Covers(s'.cos[j], x);
  }

  lemma {:induction false} SamePreceded(s: State, i: nat, s': State, p: Pc)
    requires SameChunk(s, i, s') && Has(p) && Preceded(s, p)
    ensures Preceded(s', p)
  {
    var j :| 0 <= j < |s.cos| && Has(s.cos[j]) && s.cos[j].c.to == p.c.from;
    assert Has(s'.cos[j]) && s'.cos[j].c.to == p.c.from;
  }

  lemma {:induction false} SamePuts(cfg: Config, s: State, i: nat, s': State, j: nat)
    requires SameChunk(s, i, s') && ChunksOk(cfg, s) && Apart(s) && OrderOk(cfg, s) && Orderly(cfg, s, i, s') && cfg.inOrder
    requires j < |s.cos| && j != i
    ensures !(Puts(s'.cos[i]) && Puts(s'.cos[j]))
  {
    assert TakesTurn(s, s.cos[j]);
    assert Clear(s.cos[i], s.cos[j]) && ChunkIn(cfg, s, s.cos[i]) && ChunkIn(cfg, s, s.cos[j]);
  }

  lemma {:induction false} SameOrder(cfg: Config, s: State, i: nat, s': State)
    requires SameChunk(s, i, s') && ChunksOk(cfg, s) && Apart(s) && OrderOk(cfg, s) && Orderly(cfg, s, i, s')
    ensures OrderOk(cfg, s')
  {
    if cfg.inOrder {
      if s'.ret.InProgress? {
        forall x | s'.wrOffs <= x < s'.claimed ensures Covered(s', x) { SameCovered(s, i, s', x); }
      }
      forall j | 0 <= j < |s'.cos| ensures TakesTurn(s', s'.cos[j]) {
        if j != i { assert TakesTurn(s, s.cos[j]); }
      }
      forall j | 0 <= j < |s'.cos| && s'.cos[j].Waiting? ensures Preceded(s', s'.cos[j]) {
        SamePreceded(s, i, s', s'.cos[j]);
      }
      forall a, b | 0 <= a < |s'.cos| && 0 <= b < |s'.cos| && a != b ensures !(Puts(s'.cos[a]) && Puts(s'.cos[b])) {
        if a == i {
          SamePuts(cfg, s, i, s', b);
        } else if b == i {
          SamePuts(cfg, s, i, s', a);
        }
      }
    }
  }

  lemma {:induction false} SameKeeps(cfg: Config, s: State, i: nat, s': State)
    requires Inv(cfg, s) && SameChunk(s, i, s')
    requires ChunkIn(cfg, s', s'.cos[i]) && Fills(cfg, s, i, s') && Orderly(cfg, s, i, s')
    ensures Inv(cfg, s')
  {
    hide ChunksOk, Apart, Filled, ZeroOk, CountsOk, OrderOk, LocksOk, CacheOk, ChunkIn, Fills, Orderly;
    assert |s.target| == |cfg.src| && |s'.target| == |cfg.src| by { TargetSize(cfg, s); }
    SameChunksOk(cfg, s, i, s');
    SameApart(s, i, s');
    SameFilled(cfg, s, i, s');
    SameCounts(cfg, s, i, s');
    SameOrder(cfg, s, i, s');
  }

  lemma {:induction false} TargetSize(cfg: Config, s: State)
    requires ChunksOk(cfg, s)
    ensures |s.target| == |cfg.src| && s.claimed <= |cfg.src|
  {}

  /** Nothing is written and nothing needs to be. */
  lemma {:induction false} FillsSame(cfg: Config, s: State, i: nat, s': State)
    requires SameChunk(s, i, s') && ChunksOk(cfg, s) && Apart(s) && Filled(cfg, s) && ZeroOk(cfg, s) && s'.target == s.target
    requires !s'.ret.Err? ==> Lo(s'.cos[i]) <= Lo(s.cos[i])
    ensures Fills(cfg, s, i, s')
  {
    if !s'.ret.Err? {
      forall x | s.cos[i].c.from <= x < s.cos[i].c.to && x < |cfg.src| ensures s.target[x] == cfg.src[x] || Lo(s'.cos[i]) <= x {
        BehindIsWritten(cfg, s, i, x);
      }
    }
  }

  /** Of a coroutine's own chunk, what is not pending with it is written. */
  lemma {:induction false} BehindIsWritten(cfg: Config, s: State, i: nat, x: nat)
    requires i < |s.cos| && Has(s.cos[i]) && ChunksOk(cfg, s) && Apart(s) && Filled(cfg, s) && !s.ret.Err?
    requires s.cos[i].c.from <= x < s.cos[i].c.to
    ensures x < |cfg.src| && (s.target[x] == cfg.src[x] || Lo(s.cos[i]) <= x)
  {
    assert ChunkIn(cfg, s, s.cos[i]);
    if s.target[x] != cfg.src[x] {
      var j :| 0 <= j < |s.cos| && Pends(s.cos[j], x);
      assert ChunkIn(cfg, s, s.cos[j]);
      if j != i { assert Clear(s.cos[i], s.cos[j]); }
    }
  }

  lemma {:induction false} ReadKeeps(cfg: Config, s: State, i: nat, ok: bool, s': State)
    requires Inv(cfg, s) && i < |s.cos| && ReadStep(s, i, ok, s')
    ensures Inv(cfg, s')
  {
    assert ChunkIn(cfg, s, s.cos[i]);
    hide LocksOk, Apart, Filled, ZeroOk, CountsOk, OrderOk, CutsOk, CacheOk, ChunksOk;
    TargetSize(cfg, s);
    FillsSame(cfg, s, i, s');
    SameKeeps(cfg, s, i, s');
  }

  /** In order, a chunk that must wait has another one before it. */
  lemma {:induction false} WaitPreceded(cfg: Config, s: State, i: nat)
    requires ChunksOk(cfg, s) && Apart(s) && OrderOk(cfg, s) && i < |s.cos| && Has(s.cos[i]) && MustWait(cfg, s, s.cos[i].c)
    ensures Preceded(s, s.cos[i])
  {
    var from := s.cos[i].c.from;
    assert ChunkIn(cfg, s, s.cos[i]);
    assert Covered(s, from - 1);
    var j :| 0 <= j < |s.cos| && Covers(s.cos[j], from - 1);
    assert Clear(s.cos[j], s.cos[i]);
    assert Has(s.cos[j]) && s.cos[j].c.to == from;
  }

  lemma {:induction false} WaitKeeps(cfg: Config, s: State, i: nat, s': State)
    requires Inv(cfg, s) && i < |s.cos| && WaitStep(cfg, s, i, s')
    ensures Inv(cfg, s')
  {
    assert ChunkIn(cfg, s, s.cos[i]);
    hide LocksOk, Apart, Filled, ZeroOk, CountsOk, OrderOk, CutsOk, CacheOk, ChunksOk;
    TargetSize(cfg, s);
    WaitPreceded(cfg, s, i);
    FillsSame(cfg, s, i, s');
    SameKeeps(cfg, s, i, s');
  }

  lemma {:induction false} GoKeeps(cfg: Config, s: State, i: nat, s': State)
    requires Inv(cfg, s) && i < |s.cos| && GoStep(cfg, s, i, s')
    ensures Inv(cfg, s')
  {
    assert ChunkIn(cfg, s, s.cos[i]);
    assert !s.ret.Done?;
    hide LocksOk, Apart, Filled, ZeroOk, CountsOk, OrderOk, CutsOk, CacheOk, ChunksOk;
    TargetSize(cfg, s);
    FillsSame(cfg, s, i, s');
    SameKeeps(cfg, s, i, s');
  }

  /** Putting the source's contents at pos, or leaving zeros where there are zeros. */
  lemma {:induction false} FillsPiece(cfg: Config, s: State, i: nat, s': State, n: nat)
    requires SameChunk(s, i, s') && ChunksOk(cfg, s) && Apart(s) && Filled(cfg, s) && ZeroOk(cfg, s) && Puts(s.cos[i]) && s'.ret == s.ret
    requires s.cos[i].pos + n <= s.cos[i].c.to && Lo(s'.cos[i]) == s.cos[i].pos + n
    requires forall x :: 0 <= x < |cfg.src| ==>
               s'.target[x] == if s.cos[i].pos <= x < s.cos[i].pos + n then cfg.src[x] else s.target[x]
    ensures Fills(cfg, s, i, s')
  {
    if !s'.ret.Err? {
      forall x | s.cos[i].c.from <= x < s.cos[i].c.to && x < |cfg.src| ensures s'.target[x] == cfg.src[x] || Lo(s'.cos[i]) <= x {
        BehindIsWritten(cfg, s, i, x);
      }
    }
    assert ChunkIn(cfg, s, s.cos[i]);
  }

  lemma {:induction false} PieceIsSource(cfg: Config, s: State, i: nat, rest: seq<Sector>, n: nat, data: bool, s': State)
    requires ChunksOk(cfg, s) && ZeroOk(cfg, s) && i < |s.cos| && WriteStep(cfg, s, i, rest, n, data, s')
    ensures |s'.target| == |cfg.src|
    ensures forall x :: 0 <= x < |cfg.src| ==>
              s'.target[x] == if s.cos[i].pos <= x < s.cos[i].pos + n then cfg.src[x] else s.target[x]
  {
    assert ChunkIn(cfg, s, s.cos[i]);
    var pos, c := s.cos[i].pos, s.cos[i].c;
    forall x | pos <= x < pos + n ensures rest[x - pos] == cfg.src[x] && (!data ==> cfg.src[x] == 0) {
      assert cfg.src[pos..c.to][x - pos] == cfg.src[x];
    }
  }

  lemma {:induction false} WriteKeeps(cfg: Config, s: State, i: nat, rest: seq<Sector>, n: nat, data: bool, s': State)
    requires Inv(cfg, s) && i < |s.cos| && WriteStep(cfg, s, i, rest, n, data, s')
    ensures Inv(cfg, s')
  {
    assert ChunkIn(cfg, s, s.cos[i]);
    assert cfg.inOrder ==> TakesTurn(s, s.cos[i]);
    PieceIsSource(cfg, s, i, rest, n, data, s');
    hide LocksOk, Apart, Filled, ZeroOk, CountsOk, OrderOk, CutsOk, CacheOk, ChunksOk;
    FillsPiece(cfg, s, i, s', n);
    SameKeeps(cfg, s, i, s');
  }

  lemma {:induction false} CopyKeeps(cfg: Config, s: State, i: nat, n: nat, s': State)
    requires Inv(cfg, s) && i < |s.cos| && CopyStep(cfg, s, i, n, s')
    ensures Inv(cfg, s')
  {
    assert ChunkIn(cfg, s, s.cos[i]);
    assert cfg.inOrder ==> TakesTurn(s, s.cos[i]);
    var pos := s.cos[i].pos;
    forall x | 0 <= x < |cfg.src| ensures s'.target[x] == if pos <= x < pos + n then cfg.src[x] else s.target[x] {
      if pos <= x < pos + n { assert cfg.src[pos..pos + n][x - pos] == cfg.src[x]; }
    }
    hide LocksOk, Apart, Filled, ZeroOk, CountsOk, OrderOk, CutsOk, CacheOk, ChunksOk;
    FillsPiece(cfg, s, i, s', n);
    SameKeeps(cfg, s, i, s');
  }

  /** A torn request keeps the chunk's sectors old or as in the source. */
  lemma {:induction false} FillsTorn(cfg: Config, s: State, i: nat, s': State)
    requires SameChunk(s, i, s') && ChunksOk(cfg, s) && ZeroOk(cfg, s) && Puts(s.cos[i])
    requires Torn(cfg, s.target, s'.target, s.cos[i].pos, s.cos[i].c.to)
    requires s'.ret.Err? || Lo(s'.cos[i]) == s.cos[i].c.from
    ensures Fills(cfg, s, i, s')
  {
    assert ChunkIn(cfg, s, s.cos[i]);
  }

  lemma {:induction false} WriteFailsKeeps(cfg: Config, s: State, i: nat, target: seq<Sector>, s': State)
    requires Inv(cfg, s) && i < |s.cos| && WriteFailsStep(cfg, s, i, target, s')
    ensures Inv(cfg, s')
  {
    assert ChunkIn(cfg, s, s.cos[i]);
    hide LocksOk, Apart, Filled, ZeroOk, CountsOk, OrderOk, CutsOk, CacheOk, ChunksOk;
    TargetSize(cfg, s);
    FillsTorn(cfg, s, i, s');
    SameKeeps(cfg, s, i, s');
  }

  lemma {:induction false} CopyFailsKeeps(cfg: Config, s: State, i: nat, target: seq<Sector>, s': State)
    requires Inv(cfg, s) && i < |s.cos| && CopyFailsStep(cfg, s, i, target, s')
    ensures Inv(cfg, s')
  {
    assert ChunkIn(cfg, s, s.cos[i]);
    hide LocksOk, Apart, Filled, ZeroOk, CountsOk, OrderOk, CutsOk, CacheOk, ChunksOk;
    TargetSize(cfg, s);
    FillsTorn(cfg, s, i, s');
    SameKeeps(cfg, s, i, s');
  }

  // ----- steps of a coroutine without a chunk -----

  predicate NoChunk(s: State, i: nat, s': State) {
    && i < |s.cos| && |s'.cos| == |s.cos| && s'.cos == s.cos[i := s'.cos[i]] && !Has(s.cos[i]) && !Has(s'.cos[i])
    && s'.claimed == s.claimed && s'.wrOffs == s.wrOffs && s'.cuts == s.cuts && s'.target == s.target
    && s'.status == s.status && s'.nextStatus == s.nextStatus
    && (s'.ret == s.ret || s'.ret.Err? || (s.ret.InProgress? && s'.ret.Done?))
  }

  lemma {:induction false} IdleChunks(cfg: Config, s: State, i: nat, s': State)
    requires NoChunk(s, i, s') && ChunksOk(cfg, s) && Apart(s)
    ensures ChunksOk(cfg, s') && Apart(s')
  {
    forall j | 0 <= j < |s'.cos| ensures ChunkIn(cfg, s', s'.cos[j]) {
      if j != i { assert ChunkIn(cfg, s, s.cos[j]); }
    }
    forall a, b | 0 <= a < |s'.cos| && 0 <= b < |s'.cos| && a != b ensures Clear(s'.cos[a], s'.cos[b]) {
      assert Clear(s.cos[a], s.cos[b]);
    }
  }

  lemma {:induction false} IdleFilled(cfg: Config, s: State, i: nat, s': State)
    requires NoChunk(s, i, s') && |s.target| == |cfg.src| && Filled(cfg, s) && ZeroOk(cfg, s)
    ensures Filled(cfg, s') && ZeroOk(cfg, s')
  {
    forall x | Pending(s, x) ensures Pending(s', x) {
      var j :| 0 <= j < |s.cos| && Pends(s.cos[j], x);
      assert Pends(s'.cos[j], x);
    }
  }

  lemma {:induction false} IdleOrder(cfg: Config, s: State, i: nat, s': State)
    requires NoChunk(s, i, s') && OrderOk(cfg, s)
    ensures OrderOk(cfg, s')
  {
    if cfg.inOrder {
      forall x | Covered(s, x) ensures Covered(s', x) {
        var j :| 0 <= j < |s.cos| && Covers(s.cos[j], x);
        assert Covers(s'.cos[j], x);
      }
      forall j | 0 <= j < |s'.cos| ensures TakesTurn(s', s'.cos[j]) { assert TakesTurn(s, s.cos[j]); }
      forall j | 0 <= j < |s'.cos| && s'.cos[j].Waiting? ensures Preceded(s', s'.cos[j]) {
        assert Preceded(s, s.cos[j]);
        var k :| 0 <= k < |s.cos| && Has(s.cos[k]) && s.cos[k].c.to == s.cos[j].c.from;
        assert Has(s'.cos[k]);
      }
    }
  }

  lemma {:induction false} IdleKeeps(cfg: Config, s: State, i: nat, s': State)
    requires Inv(cfg, s) && NoChunk(s, i, s') && LocksOk(s') && CountsOk(cfg, s')
    ensures Inv(cfg, s')
  {
    hide ChunksOk, Apart, Filled, ZeroOk, CountsOk, OrderOk, LocksOk, CacheOk;
    TargetSize(cfg, s);
    IdleChunks(cfg, s, i, s');
    IdleFilled(cfg, s, i, s');
    IdleOrder(cfg, s, i, s');
  }

  lemma {:induction false} NoneActive(cos: seq<Pc>)
    requires Count(cos) == 0
    ensures forall j :: 0 <= j < |cos| ==> !Active(cos[j])
  {
    forall j | 0 <= j < |cos| ensures !Active(cos[j]) {
      if Active(cos[j]) { CountPositive(cos, j); }
    }
  }

  lemma {:induction false} LeftCounts(cfg: Config, s: State, i: nat)
    requires CountsOk(cfg, s) && i < |s.cos| && Active(s.cos[i]) && (s.ret.InProgress? ==> s.claimed == |cfg.src|)
    ensures CountsOk(cfg, Left(s, i))
  {
    CountSet(s.cos, i, Exited);
    if s.running == 1 { NoneActive(Left(s, i).cos); }
  }

  lemma {:induction false} StartKeeps(cfg: Config, s: State, i: nat, s': State)
    requires Inv(cfg, s) && i < |s.cos| && StartStep(s, i, s')
    ensures Inv(cfg, s')
  {
    CountSet(s.cos, i, Top);
    assert LocksOk(s') && CountsOk(cfg, s');
    hide ChunksOk, Apart, Filled, ZeroOk, CountsOk, OrderOk, LocksOk, CacheOk, CutsOk;
    IdleKeeps(cfg, s, i, s');
  }

  lemma {:induction false} LeaveKeeps(cfg: Config, s: State, i: nat, s': State)
    requires Inv(cfg, s) && i < |s.cos| && LeaveStep(cfg, s, i, s')
    ensures Inv(cfg, s')
  {
    LeftCounts(cfg, s, i);
    assert LocksOk(s');
    hide ChunksOk, Apart, Filled, ZeroOk, CountsOk, OrderOk, LocksOk, CacheOk, CutsOk;
    IdleKeeps(cfg, s, i, s');
  }

  lemma {:induction false} LockKeeps(cfg: Config, s: State, i: nat, s': State)
    requires Inv(cfg, s) && i < |s.cos| && LockStep(cfg, s, i, s')
    ensures Inv(cfg, s')
  {
    CountSet(s.cos, i, Locked);
    assert LocksOk(s') && CountsOk(cfg, s');
    hide ChunksOk, Apart, Filled, ZeroOk, CountsOk, OrderOk, LocksOk, CacheOk, CutsOk;
    IdleKeeps(cfg, s, i, s');
  }

  lemma {:induction false} ClaimFailsKeeps(cfg: Config, s: State, i: nat, s': State)
    requires Inv(cfg, s) && i < |s.cos| && ClaimFailsStep(s, i, s')
    ensures Inv(cfg, s')
  {
    LeftCounts(cfg, s.(lock := None, ret := Err), i);
    assert LocksOk(s');
    hide ChunksOk, Apart, Filled, ZeroOk, CountsOk, OrderOk, LocksOk, CacheOk, CutsOk;
    IdleKeeps(cfg, s, i, s');
  }

  // ----- claiming a chunk -----

  lemma {:induction false} NewChunkOk(cfg: Config, s: State, i: nat, n: nat, st: Status, next: nat, s': State)
    requires Inv(cfg, s) && i < |s.cos| && ClaimStep(cfg, s, i, n, st, next, s')
    ensures Has(s'.cos[i]) && s'.cos[i].c.from == s.claimed < s'.cos[i].c.to == s'.claimed && Lo(s'.cos[i]) == s.claimed
    ensures ChunkIn(cfg, s', s'.cos[i]) && s'.claimed <= |cfg.src| && !s.ret.Done?
    ensures CacheOk(cfg.src, s'.claimed, s'.status, s'.nextStatus) && CutsOk(s')
  {
    hide Apart, Filled, OrderOk;
  }

  lemma {:induction false} ClaimChunks(cfg: Config, s: State, i: nat, s': State)
    requires ChunksOk(cfg, s) && Apart(s) && NewlyOwned(s, i, s') && ChunkIn(cfg, s', s'.cos[i]) && s'.claimed <= |cfg.src|
    ensures ChunksOk(cfg, s') && Apart(s')
  {
    forall j | 0 <= j < |s'.cos| ensures ChunkIn(cfg, s', s'.cos[j]) {
      if j != i { assert ChunkIn(cfg, s, s.cos[j]); }
    }
    forall a, b | 0 <= a < |s'.cos| && 0 <= b < |s'.cos| && a != b ensures Clear(s'.cos[a], s'.cos[b]) {
      if a != i { assert ChunkIn(cfg, s, s.cos[a]); }
      if b != i { assert ChunkIn(cfg, s, s.cos[b]); }
      assert Clear(s.cos[a], s.cos[b]);
    }
  }

  /** Coroutine i gets the sectors after those claimed so far. */
  predicate NewlyOwned(s: State, i: nat, s': State) {
    && i < |s.cos| && |s'.cos| == |s.cos| && s'.cos == s.cos[i := s'.cos[i]] && s.cos[i].Locked? && Has(s'.cos[i])
    && s'.cos[i].c.from == s.claimed < s'.cos[i].c.to == s'.claimed && Lo(s'.cos[i]) == s.claimed
    && (s'.cos[i].Reading? || s'.cos[i].Turn?)
    && s'.wrOffs == s.wrOffs && s'.ret == s.ret && !s.ret.Done? && s'.target == s.target && s'.running == s.running
  }

  lemma {:induction false} ClaimFilled(cfg: Config, s: State, i: nat, s': State)
    requires NewlyOwned(s, i, s') && |s.target| == |cfg.src| && Filled(cfg, s) && ZeroOk(cfg, s)
    ensures Filled(cfg, s') && ZeroOk(cfg, s')
  {
    if !s'.ret.Err? {
      forall x | 0 <= x < s'.claimed && x < |cfg.src| ensures s'.target[x] == cfg.src[x] || Pending(s', x) {
        if x >= s.claimed {
          assert Pends(s'.cos[i], x);
        } else if s.target[x] != cfg.src[x] {
          var j :| 0 <= j < |s.cos| && Pends(s.cos[j], x);
          assert Pends(s'.cos[j], x);
        }
      }
    }
  }

  lemma {:induction false} ClaimOrder(cfg: Config, s: State, i: nat, s': State)
    requires NewlyOwned(s, i, s') && OrderOk(cfg, s)
    ensures OrderOk(cfg, s')
  {
    if cfg.inOrder {
      if s.ret.InProgress? {
        forall x | s'.wrOffs <= x < s'.claimed ensures Covered(s', x) {
          if x >= s.claimed {
            assert Covers(s'.cos[i], x);
          } else {
            assert Covered(s, x);
            var j :| 0 <= j < |s.cos| && Covers(s.cos[j], x);
            assert Covers(s'.cos[j], x);
          }
        }
      }
      forall j | 0 <= j < |s'.cos| ensures TakesTurn(s', s'.cos[j]) { assert TakesTurn(s, s.cos[j]); }
      forall j | 0 <= j < |s'.cos| && s'.cos[j].Waiting? ensures Preceded(s', s'.cos[j]) {
        assert Preceded(s, s.cos[j]);
        var k :| 0 <= k < |s.cos| && Has(s.cos[k]) && s.cos[k].c.to == s.cos[j].c.from;
        assert Has(s'.cos[k]);
      }
    }
  }

  lemma {:induction false} ClaimKeeps(cfg: Config, s: State, i: nat, n: nat, st: Status, next: nat, s': State)
    requires Inv(cfg, s) && i < |s.cos| && ClaimStep(cfg, s, i, n, st, next, s')
    ensures Inv(cfg, s')
  {
    NewChunkOk(cfg, s, i, n, st, next, s');
    CountSet(s.cos, i, s'.cos[i]);
    assert LocksOk(s') && CountsOk(cfg, s');
    hide ChunksOk, Apart, Filled, ZeroOk, CountsOk, OrderOk, LocksOk, CacheOk, CutsOk, ChunkIn, ChunkOk;
    TargetSize(cfg, s);
    ClaimChunks(cfg, s, i, s');
    ClaimFilled(cfg, s, i, s');
    ClaimOrder(cfg, s, i, s');
  }

  // ----- finishing a chunk -----

  /** Coroutine i gives its chunk back; others keep theirs, waiting or woken. */
  predicate GivenBack(s: State, i: nat, s': State) {
    && i < |s.cos| && |s'.cos| == |s.cos| && s.cos[i].Finishing? && s'.cos[i].Top?
    && (forall j :: 0 <= j < |s.cos| && j != i ==> KeptBy(s.cos[j], s'.cos[j]))
    && s'.claimed == s.claimed && s'.target == s.target && s'.ret == s.ret && s'.running == s.running && s'.lock == s.lock
    && s'.cuts == s.cuts && s'.status == s.status && s'.nextStatus == s.nextStatus
  }

  predicate KeptBy(p: Pc, p': Pc) { p' == p || (p.Waiting? && p' == Turn(p.c)) }

  lemma {:induction false} FinishChunks(cfg: Config, s: State, i: nat, s': State)
    requires GivenBack(s, i, s') && ChunksOk(cfg, s) && Apart(s)
    ensures ChunksOk(cfg, s') && Apart(s')
  {
    forall j | 0 <= j < |s'.cos| ensures ChunkIn(cfg, s', s'.cos[j]) {
      if j != i { assert ChunkIn(cfg, s, s.cos[j]) && KeptBy(s.cos[j], s'.cos[j]); }
    }
    forall a, b | 0 <= a < |s'.cos| && 0 <= b < |s'.cos| && a != b ensures Clear(s'.cos[a], s'.cos[b]) {
      assert Clear(s.cos[a], s.cos[b]);
      if a != i { assert KeptBy(s.cos[a], s'.cos[a]); }
      if b != i { assert KeptBy(s.cos[b], s'.cos[b]); }
    }
  }

  lemma {:induction false} FinishFilled(cfg: Config, s: State, i: nat, s': State)
    requires GivenBack(s, i, s') && |s.target| == |cfg.src| && Filled(cfg, s) && ZeroOk(cfg, s)
    ensures Filled(cfg, s') && ZeroOk(cfg, s')
  {
    forall x | Pending(s, x) ensures Pending(s', x) {
      var j :| 0 <= j < |s.cos| && Pends(s.cos[j], x);
      assert j != i && KeptBy(s.cos[j], s'.cos[j]);
      assert Pends(s'.cos[j], x);
    }
  }

  lemma {:induction false} FinishCounts(cfg: Config, s: State, i: nat, s': State)
    requires GivenBack(s, i, s') && CountsOk(cfg, s) && LocksOk(s)
    ensures CountsOk(cfg, s') && LocksOk(s')
  {
    forall j | 0 <= j < |s.cos| ensures Active(s'.cos[j]) == Active(s.cos[j]) && s'.cos[j].Locked? == s.cos[j].Locked? {
      if j != i { assert KeptBy(s.cos[j], s'.cos[j]); }
    }
    CountSame(s.cos, s'.cos);
    assert Has(s.cos[i]);
  }

  /** In order, the chunk that is finished is the first one left. */
  lemma {:induction false} FirstLeft(cfg: Config, s: State, i: nat, j: nat)
    requires ChunksOk(cfg, s) && Apart(s) && OrderOk(cfg, s) && cfg.inOrder && s.ret.InProgress?
    requires i < |s.cos| && j < |s.cos| && i != j && s.cos[i].Finishing? && Has(s.cos[j])
    ensures s.cos[i].c.from == s.wrOffs && s.cos[i].c.to <= s.cos[j].c.from && !Puts(s.cos[j]) && !s.cos[j].Finishing?
  {
    assert TakesTurn(s, s.cos[i]) && TakesTurn(s, s.cos[j]);
    assert Clear(s.cos[i], s.cos[j]) && ChunkIn(cfg, s, s.cos[j]) && ChunkIn(cfg, s, s.cos[i]);
  }

  lemma {:induction false} FinishOrder(cfg: Config, s: State, i: nat, s': State)
    requires GivenBack(s, i, s') && ChunksOk(cfg, s) && Apart(s) && OrderOk(cfg, s) && cfg.inOrder && s'.wrOffs == s.cos[i].c.to
    requires forall j :: 0 <= j < |s.cos| && j != i && s'.cos[j].Waiting? ==> s'.cos[j].c.from != s.cos[i].c.to
    ensures OrderOk(cfg, s')
  {
    assert ChunkIn(cfg, s, s.cos[i]) && TakesTurn(s, s.cos[i]);
    forall j | 0 <= j < |s'.cos| && j != i ensures KeptBy(s.cos[j], s'.cos[j]) {}
    if s'.ret.InProgress? {
      forall x | s'.wrOffs <= x < s'.claimed ensures Covered(s', x) {
        assert Covered(s, x);
        var j :| 0 <= j < |s.cos| && Covers(s.cos[j], x);
        assert Covers(s'.cos[j], x);
      }
      forall j | 0 <= j < |s'.cos| && Has(s'.cos[j]) ensures s'.wrOffs <= s'.cos[j].c.from { FirstLeft(cfg, s, i, j); }
    }
    forall j | 0 <= j < |s'.cos| ensures TakesTurn(s', s'.cos[j]) {
      if j != i && Has(s.cos[j]) && s.ret.InProgress? { FirstLeft(cfg, s, i, j); }
    }
    forall j | 0 <= j < |s'.cos| && s'.cos[j].Waiting? ensures Preceded(s', s'.cos[j]) {
      assert Preceded(s, s.cos[j]);
      var k :| 0 <= k < |s.cos| && Has(s.cos[k]) && s.cos[k].c.to == s.cos[j].c.from;
      assert Has(s'.cos[k]) && s'.cos[k].c.to == s'.cos[j].c.from;
    }
  }

  lemma {:induction false} FinishKeeps(cfg: Config, s: State, i: nat, s': State)
    requires Inv(cfg, s) && i < |s.cos| && FinishStep(cfg, s, i, s')
    ensures Inv(cfg, s')
  {
    assert GivenBack(s, i, s');
    hide ChunksOk, Apart, Filled, ZeroOk, CountsOk, LocksOk, CacheOk, CutsOk;
    TargetSize(cfg, s);
    FinishChunks(cfg, s, i, s');
    FinishFilled(cfg, s, i, s');
    FinishCounts(cfg, s, i, s');
    if cfg.inOrder { FinishOrder(cfg, s, i, s'); }
  }

  // ----- every run -----

  lemma {:induction false} InitKeeps(cfg: Config, s: State)
    requires Init(cfg, s)
    ensures Inv(cfg, s)
  {
    if Count(s.cos) > 0 { NoneStarted(s.cos); }
  }

  lemma {:induction false} NoneStarted(cos: seq<Pc>)
    requires forall i :: 0 <= i < |cos| ==> cos[i].NotStarted?
    ensures Count(cos) == 0
    decreases |cos|
  {
    if cos != [] { NoneStarted(cos[..|cos| - 1]); }
  }

  lemma {:induction false} ChunkStepKeeps(cfg: Config, s: State, i: nat, s': State)
    requires Inv(cfg, s) && i < |s.cos| && ChunkStep(cfg, s, i, s')
    ensures Inv(cfg, s')
  {
    hide Inv, ReadStep, WaitStep, GoStep, WriteStep, WriteFailsStep, CopyStep, CopyFailsStep;
    if ok :| ReadStep(s, i, ok, s') {
      ReadKeeps(cfg, s, i, ok, s');
    } else if WaitStep(cfg, s, i, s') {
      WaitKeeps(cfg, s, i, s');
    } else if GoStep(cfg, s, i, s') {
      GoKeeps(cfg, s, i, s');
    } else if rest, n: nat, data :| WriteStep(cfg, s, i, rest, n, data, s') {
      WriteKeeps(cfg, s, i, rest, n, data, s');
    } else if target :| WriteFailsStep(cfg, s, i, target, s') {
      WriteFailsKeeps(cfg, s, i, target, s');
    } else if n: nat :| CopyStep(cfg, s, i, n, s') {
      CopyKeeps(cfg, s, i, n, s');
    } else if target :| CopyFailsStep(cfg, s, i, target, s') {
      CopyFailsKeeps(cfg, s, i, target, s');
    }
  }

  lemma {:induction false} StepKeeps(cfg: Config, s: State, s': State)
    requires Inv(cfg, s) && Step(cfg, s, s')
    ensures Inv(cfg, s')
  {
    hide Inv, StartStep, LeaveStep, LockStep, ClaimStep, ClaimFailsStep, ChunkStep, FinishStep;
    var i: nat :| i < |s.cos| && CoStep(cfg, s, i, s');
    if StartStep(s, i, s') {
      StartKeeps(cfg, s, i, s');
    } else if LeaveStep(cfg, s, i, s') {
      LeaveKeeps(cfg, s, i, s');
    } else if LockStep(cfg, s, i, s') {
      LockKeeps(cfg, s, i, s');
    } else if n: nat, st, next: nat :| ClaimStep(cfg, s, i, n, st, next, s') {
      ClaimKeeps(cfg, s, i, n, st, next, s');
    } else if ClaimFailsStep(s, i, s') {
      ClaimFailsKeeps(cfg, s, i, s');
    } else if ChunkStep(cfg, s, i, s') {
      ChunkStepKeeps(cfg, s, i, s');
    } else {
      FinishKeeps(cfg, s, i, s');
    }
  }

  lemma {:induction false} RunKeeps(cfg: Config, ss: seq<State>, k: nat)
    requires Run(cfg, ss) && k < |ss|
    ensures Inv(cfg, ss[k])
    decreases k
  {
    hide Inv, Step;
    if k == 0 {
      InitKeeps(cfg, ss[0]);
    } else {
      RunKeeps(cfg, ss, k - 1);
      assert Step(cfg, ss[k - 1], ss[k - 1 + 1]);
      StepKeeps(cfg, ss[k - 1], ss[k]);
    }
  }

  /** A conversion that ends well: the cuts partition the sources, and the target is
      equal to them. */
  lemma {:induction false} ConvertedIsSource(cfg: Config, ss: seq<State>, k: nat)
    requires Run(cfg, ss) && k < |ss| && ss[k].ret.Done?
    ensures ss[k].target == cfg.src
    ensures var cuts := ss[k].cuts;
      |cuts| > 0 && cuts[0] == 0 && cuts[|cuts| - 1] == |cfg.src| && forall m :: 0 < m < |cuts| ==> cuts[m - 1] < cuts[m]
  {
    RunKeeps(cfg, ss, k);
    DoneIsSource(cfg, ss[k]);
  }

  lemma {:induction false} DoneIsSource(cfg: Config, s: State)
    requires Inv(cfg, s) && s.ret.Done?
    ensures s.target == cfg.src && s.claimed == |cfg.src|
  {
    forall x | 0 <= x < |cfg.src| ensures s.target[x] == cfg.src[x] {
      assert forall i :: 0 <= i < |s.cos| ==> !Pends(s.cos[i], x);
    }
  }

  /** Two coroutines never have sectors in common, so no write touches what another
      one is to write. */
  lemma {:induction false} ChunksApart(cfg: Config, ss: seq<State>, k: nat, i: nat, j: nat)
    requires Run(cfg, ss) && k < |ss| && i < |ss[k].cos| && j < |ss[k].cos| && i != j && Has(ss[k].cos[i]) && Has(ss[k].cos[j])
    ensures ss[k].cos[i].c.to <= ss[k].cos[j].c.from || ss[k].cos[j].c.to <= ss[k].cos[i].c.from
  {
    RunKeeps(cfg, ss, k);
    assert Clear(ss[k].cos[i], ss[k].cos[j]);
  }

  /** In order: while a chunk is written nobody else writes, and as long as nothing
      has failed everything before it is written. */
  lemma {:induction false} WritesAscend(cfg: Config, ss: seq<State>, k: nat, i: nat)
    requires Run(cfg, ss) && k < |ss| && cfg.inOrder && i < |ss[k].cos| && Puts(ss[k].cos[i])
    ensures forall j :: 0 <= j < |ss[k].cos| && j != i ==> !Puts(ss[k].cos[j])
    ensures ss[k].ret.InProgress? ==> |ss[k].target| == |cfg.src| && ss[k].cos[i].c.from <= |cfg.src|
    ensures ss[k].ret.InProgress? ==> ss[k].target[..ss[k].cos[i].c.from] == cfg.src[..ss[k].cos[i].c.from]
  {
    RunKeeps(cfg, ss, k);
    WrittenBelow(cfg, ss[k], i);
  }

  lemma {:induction false} WrittenBelow(cfg: Config, s: State, i: nat)
    requires Inv(cfg, s) && cfg.inOrder && i < |s.cos| && Puts(s.cos[i])
    ensures forall j :: 0 <= j < |s.cos| && j != i ==> !Puts(s.cos[j])
    ensures s.ret.InProgress? ==> |s.target| == |cfg.src| && s.cos[i].c.from <= |cfg.src|
    ensures s.ret.InProgress? ==> s.target[..s.cos[i].c.from] == cfg.src[..s.cos[i].c.from]
  {
    assert ChunkIn(cfg, s, s.cos[i]) && TakesTurn(s, s.cos[i]);
    if s.ret.InProgress? {
      forall x | 0 <= x < s.cos[i].c.from ensures s.target[x] == cfg.src[x] {
        forall j | 0 <= j < |s.cos| ensures !Pends(s.cos[j], x) {
          assert ChunkIn(cfg, s, s.cos[j]);
        }
      }
    }
  }

  // ----- every run ends -----

  /** A waiting coroutine is never stranded: one that has an earlier chunk, and waits
      for nobody, comes first. */
  lemma {:induction false} NotStranded(cfg: Config, s: State, i: nat) returns (j: nat)
    requires Inv(cfg, s) && i < |s.cos| && s.cos[i].Waiting?
    ensures j < |s.cos| && Has(s.cos[j]) && !s.cos[j].Waiting? && s.cos[j].c.to <= s.cos[i].c.from
    decreases s.cos[i].c.from
  {
    assert ChunkIn(cfg, s, s.cos[i]);
    assert Preceded(s, s.cos[i]);
    j :| 0 <= j < |s.cos| && Has(s.cos[j]) && s.cos[j].c.to == s.cos[i].c.from;
    assert ChunkIn(cfg, s, s.cos[j]);
    if s.cos[j].Waiting? {
      j := NotStranded(cfg, s, j);
    }
  }

  /** ... in any state of any run, also after a failure. */
  lemma {:induction false} NeverStranded(cfg: Config, ss: seq<State>, k: nat, i: nat) returns (j: nat)
    requires Run(cfg, ss) && k < |ss| && i < |ss[k].cos| && ss[k].cos[i].Waiting?
    ensures j < |ss[k].cos| && Has(ss[k].cos[j]) && !ss[k].cos[j].Waiting? && ss[k].cos[j].c.to <= ss[k].cos[i].c.from
  {
    hide Inv, Run;
    RunKeeps(cfg, ss, k);
    j := NotStranded(cfg, ss[k], i);
  }

  lemma {:induction false} ChunkCanStep(cfg: Config, s: State, i: nat) returns (s': State)
    requires Inv(cfg, s) && i < |s.cos| && Has(s.cos[i]) && !s.cos[i].Waiting?
    ensures CoStep(cfg, s, i, s')
  {
    assert ChunkIn(cfg, s, s.cos[i]);
    hide Inv, OrderOk, Filled, ChunksOk, LocksOk, Apart, CountsOk;
    match s.cos[i] {
      case Reading(c) =>
        s' := Moved(s, i, Turn(c));
        assert ReadStep(s, i, true, s');
      case Turn(c) =>
        if MustWait(cfg, s, c) {
          s' := Moved(s, i, Waiting(c));
        } else {
          s' := Moved(s, i, if !s.ret.InProgress? then Finishing(c) else if c.ranged then Copying(c, c.from) else Writing(c, c.from));
        }
      case Writing(c, pos) =>
        s' := CanWrite(cfg, s, i);
      case Copying(c, pos) =>
        s' := CanCopy(cfg, s, i);
      case Finishing(c) =>
        s' := if cfg.inOrder then s.(wrOffs := c.to, cos := Woken(s.cos, c.to)[i := Top]) else Moved(s, i, Top);
        assert FinishStep(cfg, s, i, s');
    }
  }

  lemma {:induction false} CanWrite(cfg: Config, s: State, i: nat) returns (s': State)
    requires i < |s.cos| && s.cos[i].Writing? && ChunkIn(cfg, s, s.cos[i]) && s.claimed <= |cfg.src|
    ensures CoStep(cfg, s, i, s')
  {
    var c, pos := s.cos[i].c, s.cos[i].pos;
    var rest, data := cfg.src[pos..c.to], c.status.Data?;
    s' := Moved(s, i, Finishing(c)).(
      target := if data then Put(s.target, pos, rest[..|rest|])
                else if cfg.zeroInit then s.target
                else Put(s.target, pos, seq(|rest|, k => 0)));
    assert Buffered(cfg, c, pos, rest) && PieceOk(rest, c.status, cfg.minSparse, |rest|, data);
    assert WriteStep(cfg, s, i, rest, |rest|, data, s');
    assert ChunkStep(cfg, s, i, s');
  }

  lemma {:induction false} CanCopy(cfg: Config, s: State, i: nat) returns (s': State)
    requires i < |s.cos| && s.cos[i].Copying? && ChunkIn(cfg, s, s.cos[i]) && s.claimed <= |cfg.src|
    ensures CoStep(cfg, s, i, s')
  {
    var c, pos := s.cos[i].c, s.cos[i].pos;
    s' := Moved(s, i, Finishing(c)).(target := Put(s.target, pos, cfg.src[pos..pos + (c.to - pos)]));
    assert CopyStep(cfg, s, i, c.to - pos, s');
    assert ChunkStep(cfg, s, i, s');
  }

  /** As long as a coroutine is not at its end, some coroutine can go on. */
  lemma {:induction false} CanGoOn(cfg: Config, s: State, i: nat) returns (s': State)
    requires Inv(cfg, s) && i < |s.cos| && !s.cos[i].Exited?
    ensures Step(cfg, s, s')
  {
    var j := i;
    if s.cos[i].Waiting? {
      j := NotStranded(cfg, s, i);
    } else if s.cos[i].Top? && s.lock.Some? {
      j := s.lock.value;
      assert s.cos[j].Locked?;
    }
    hide Inv, ChunkStep, ClaimStep;
    if Has(s.cos[j]) {
      s' := ChunkCanStep(cfg, s, j);
    } else if s.cos[j].NotStarted? {
      s' := Moved(s, j, Top).(running := s.running + 1);
      assert StartStep(s, j, s');
    } else if s.cos[j].Locked? {
      s' := Left(s.(lock := None, ret := Err), j);
      assert ClaimFailsStep(s, j, s');
    } else if s.ret.InProgress? && s.claimed < |cfg.src| {
      s' := Moved(s, j, Locked).(lock := Some(j));
      assert LockStep(cfg, s, j, s');
    } else {
      s' := Left(s, j);
      assert LeaveStep(cfg, s, j, s');
    }
    assert CoStep(cfg, s, j, s');
  }

  ghost predicate Stuck(cfg: Config, s: State) { forall s' :: !Step(cfg, s, s') }

  /** A run that cannot go on is over: all coroutines have ended, and the conversion
      has succeeded or failed. */
  lemma {:induction false} StuckIsOver(cfg: Config, ss: seq<State>)
    requires Run(cfg, ss) && Stuck(cfg, ss[|ss| - 1])
    ensures var s := ss[|ss| - 1];
      (forall i :: 0 <= i < |s.cos| ==> s.cos[i].Exited?) && (|s.cos| > 0 ==> !s.ret.InProgress?)
  {
    hide Step;
    var s := ss[|ss| - 1];
    RunKeeps(cfg, ss, |ss| - 1);
    forall i | 0 <= i < |s.cos| ensures s.cos[i].Exited? {
      if !s.cos[i].Exited? { var s' := CanGoOn(cfg, s, i); }
    }
    AllExited(s.cos);
  }

  lemma {:induction false} AllExited(cos: seq<Pc>)
    requires forall i :: 0 <= i < |cos| ==> cos[i].Exited?
    ensures Count(cos) == 0
    decreases |cos|
  {
    if cos != [] { AllExited(cos[..|cos| - 1]); }
  }

  /** How far a coroutine is from its end, or from its next chunk. */
  function Rank(p: Pc): nat {
    match p
    case Exited => 0
    case Locked => 1
    case Top => 2
    case NotStarted => 3
    case Finishing(c) => 4
    case Writing(c, pos) => 4 + Above(c.to, pos)
    case Waiting(c) => 5 + Size(c)
    case Turn(c) => 6 + Size(c)
    case Reading(c) => 7 + Size(c)
    case Copying(c, pos) => 7 + Above(c.to, c.from) + Above(c.to, pos)
  }

  function Above(a: nat, b: nat): nat { if b < a then a - b else 0 }

  /** Two passes over the sectors are left for a chunk that copy_range is tried on. */
  function Size(c: Chunk): nat { if c.ranged then 8 + 2 * Above(c.to, c.from) else Above(c.to, c.from) }

  function Total(cos: seq<Pc>): nat {
    if cos == [] then 0 else Total(cos[..|cos| - 1]) + Rank(cos[|cos| - 1])
  }

  lemma {:induction false} TotalSet(cos: seq<Pc>, i: nat, p: Pc)
    requires i < |cos|
    ensures Total(cos[i := p]) == Total(cos) - Rank(cos[i]) + Rank(p)
    decreases |cos|
  {
    var n := |cos| - 1;
    if i == n {
      assert cos[i := p][..n] == cos[..n];
    } else {
      assert cos[i := p][..n] == cos[..n][i := p];
      TotalSet(cos[..n], i, p);
    }
  }

  lemma {:induction false} WokenTotal(cfg: Config, s: State, at: nat)
    requires ChunksOk(cfg, s) && Apart(s)
    ensures Total(Woken(s.cos, at)) <= Total(s.cos) + 1
  {
    if k :| 0 <= k < |s.cos| && s.cos[k].Waiting? && s.cos[k].c.from == at {
      forall j | 0 <= j < |s.cos| && j != k ensures !(s.cos[j].Waiting? && s.cos[j].c.from == at) {
        assert Clear(s.cos[j], s.cos[k]) && ChunkIn(cfg, s, s.cos[j]) && ChunkIn(cfg, s, s.cos[k]);
      }
      assert Woken(s.cos, at) == s.cos[k := Turn(s.cos[k].c)];
      TotalSet(s.cos, k, Turn(s.cos[k].c));
    } else {
      assert Woken(s.cos, at) == s.cos;
    }
  }

  lemma {:induction false} FinishDescends(cfg: Config, s: State, i: nat, s': State)
    requires Inv(cfg, s) && i < |s.cos| && FinishStep(cfg, s, i, s')
    ensures s'.claimed == s.claimed && Total(s'.cos) < Total(s.cos)
  {
    var at := s.cos[i].c.to;
    if cfg.inOrder {
      WokenTotal(cfg, s, at);
      TotalSet(Woken(s.cos, at), i, Top);
    } else {
      TotalSet(s.cos, i, Top);
    }
  }

  /** Coroutine i comes nearer to its end, the others stay. */
  predicate Lower(s: State, i: nat, s': State) {
    && i < |s.cos| && |s'.cos| == |s.cos| && s'.cos == s.cos[i := s'.cos[i]] && s'.claimed == s.claimed
    && Rank(s'.cos[i]) < Rank(s.cos[i])
  }

  lemma {:induction false} LowerTotal(s: State, i: nat, s': State)
    requires Lower(s, i, s')
    ensures s'.claimed == s.claimed && Total(s'.cos) < Total(s.cos)
  {
    TotalSet(s.cos, i, s'.cos[i]);
  }

  lemma {:induction false} MoveLowers(cfg: Config, s: State, i: nat, s': State)
    requires i < |s.cos| && ChunkIn(cfg, s, s.cos[i])
    requires (exists ok :: ReadStep(s, i, ok, s')) || WaitStep(cfg, s, i, s') || GoStep(cfg, s, i, s')
    ensures Lower(s, i, s')
  {}

  lemma {:induction false} WriteLowers(cfg: Config, s: State, i: nat, s': State)
    requires i < |s.cos| && ChunkIn(cfg, s, s.cos[i])
    requires (exists rest, n: nat, data :: WriteStep(cfg, s, i, rest, n, data, s')) || exists target :: WriteFailsStep(cfg, s, i, target, s')
    ensures Lower(s, i, s')
  {}

  lemma {:induction false} CopyLowers(cfg: Config, s: State, i: nat, s': State)
    requires i < |s.cos| && ChunkIn(cfg, s, s.cos[i])
    requires (exists n: nat :: CopyStep(cfg, s, i, n, s')) || exists target :: CopyFailsStep(cfg, s, i, target, s')
    ensures Lower(s, i, s')
  {}

  lemma {:induction false} ChunkStepDescends(cfg: Config, s: State, i: nat, s': State)
    requires Inv(cfg, s) && i < |s.cos| && ChunkStep(cfg, s, i, s')
    ensures s'.claimed == s.claimed && Total(s'.cos) < Total(s.cos)
  {
    assert ChunkIn(cfg, s, s.cos[i]) by { MemberIn(cfg, s, i); }
    hide Inv, ChunkIn, Lower, Total, ReadStep, WaitStep, GoStep, WriteStep, WriteFailsStep, CopyStep, CopyFailsStep;
    if (exists ok :: ReadStep(s, i, ok, s')) || WaitStep(cfg, s, i, s') || GoStep(cfg, s, i, s') {
      MoveLowers(cfg, s, i, s');
    } else if (exists rest, n: nat, data :: WriteStep(cfg, s, i, rest, n, data, s')) || exists target :: WriteFailsStep(cfg, s, i, target, s') {
      WriteLowers(cfg, s, i, s');
    } else {
      CopyLowers(cfg, s, i, s');
    }
    LowerTotal(s, i, s');
  }

  lemma {:induction false} MemberIn(cfg: Config, s: State, i: nat)
    requires Inv(cfg, s) && i < |s.cos|
    ensures ChunkIn(cfg, s, s.cos[i])
  {
    hide ChunkIn, OrderOk, Filled, LocksOk, Apart, CountsOk, ZeroOk, CutsOk, CacheOk;
  }

  lemma {:induction false} IdleLowers(cfg: Config, s: State, i: nat, s': State)
    requires i < |s.cos| && (StartStep(s, i, s') || LeaveStep(cfg, s, i, s') || LockStep(cfg, s, i, s') || ClaimFailsStep(s, i, s'))
    ensures Lower(s, i, s')
  {}

  /** The steps that are left at most: some for each sector not claimed yet, and those
      that bring the coroutines to their ends. */
  function Work(cfg: Config, s: State): nat { 16 * Above(|cfg.src|, s.claimed) + Total(s.cos) }

  lemma {:induction false} ClaimTotal(cfg: Config, s: State, i: nat, n: nat, st: Status, next: nat, s': State)
    requires i < |s.cos| && ClaimStep(cfg, s, i, n, st, next, s') && s.claimed < s'.claimed
    ensures Total(s'.cos) <= Total(s.cos) + 13 + 2 * (s'.claimed - s.claimed)
  {
    TotalSet(s.cos, i, FirstPc(cfg, s, n, st));
    hide Total;
  }

  /** Every step claims sectors, or brings some coroutine nearer to its end; either way
      less is left to do. */
  lemma {:induction false} StepDescends(cfg: Config, s: State, s': State)
    requires Inv(cfg, s) && Step(cfg, s, s')
    ensures Work(cfg, s') < Work(cfg, s)
  {
    hide Inv, Lower, Total, StartStep, LeaveStep, LockStep, ClaimFailsStep, ClaimStep, ChunkStep, FinishStep;
    var i: nat :| i < |s.cos| && CoStep(cfg, s, i, s');
    if n: nat, st, next: nat :| ClaimStep(cfg, s, i, n, st, next, s') {
      NewChunkOk(cfg, s, i, n, st, next, s');
      ClaimTotal(cfg, s, i, n, st, next, s');
    } else if ChunkStep(cfg, s, i, s') {
      ChunkStepDescends(cfg, s, i, s');
    } else if FinishStep(cfg, s, i, s') {
      FinishDescends(cfg, s, i, s');
    } else {
      IdleLowers(cfg, s, i, s');
      LowerTotal(s, i, s');
    }
  }

  lemma {:induction false} RunDescends(cfg: Config, ss: seq<State>, k: nat)
    requires Run(cfg, ss) && k < |ss|
    ensures Work(cfg, ss[k]) + k <= Work(cfg, ss[0])
    decreases k
  {
    hide Inv, Step, Work;
    if k > 0 {
      RunDescends(cfg, ss, k - 1);
      RunKeeps(cfg, ss, k - 1);
      assert Step(cfg, ss[k - 1], ss[k - 1 + 1]);
      StepDescends(cfg, ss[k - 1], ss[k]);
    }
  }

  lemma {:induction false} InitTotal(cos: seq<Pc>)
    requires forall i :: 0 <= i < |cos| ==> cos[i].NotStarted?
    ensures Total(cos) == 3 * |cos|
    decreases |cos|
  {
    if cos != [] { InitTotal(cos[..|cos| - 1]); }
  }

  /** The conversion ends: no schedule, whatever the drivers do, has more steps than 16
      for each sector and 3 for each coroutine; and one that is at its end is over. */
  lemma {:induction false} EveryRunEnds(cfg: Config, ss: seq<State>)
    requires Run(cfg, ss)
    ensures |ss| <= 16 * |cfg.src| + 3 * |ss[0].cos| + 1
    ensures Stuck(cfg, ss[|ss| - 1]) <==> Over(ss[|ss| - 1])
  {
    hide Inv, Step, Total, ChunkStep;
    RunDescends(cfg, ss, |ss| - 1);
    InitTotal(ss[0].cos);
    var s := ss[|ss| - 1];
    if Stuck(cfg, s) { StuckIsOver(cfg, ss); }
    if Over(s) { OverIsStuck(cfg, s); }
  }

  /** All coroutines have ended. */
  ghost predicate Over(s: State) { forall i :: 0 <= i < |s.cos| ==> s.cos[i].Exited? }

  lemma {:induction false} OverIsStuck(cfg: Config, s: State)
    requires Over(s)
    ensures Stuck(cfg, s)
  {
    forall s', i: nat | i < |s.cos| ensures !CoStep(cfg, s, i, s') {}
  }
}
