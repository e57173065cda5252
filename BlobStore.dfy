/** The object store behind every handler: a finite map from object name to
    content, with the copy-then-delete "move" that both routing code paths use.
    The store offers no atomic rename, so a move is two calls, and a copy whose
    source does not exist fails (S3 answers NoSuchKey). */
module BlobStore {
  import opened Wrappers

  /** Object content; never inspected by the pipeline's own code. */
  type Blob = seq<bv8>

  /** One copy-then-delete of `src` to `dst`. */
  datatype Move<K> = Move(src: K, dst: K)

  /** Successful copy of `src` onto `dst`, then delete of `src`. When the two
      names coincide the delete removes the object just written. */
  function Moved<K(==), V>(m: map<K, V>, src: K, dst: K): map<K, V>
    requires src in m
  {
    m[dst := m[src]] - {src}
  }

  /** After a move the source is gone, a distinct destination holds the
      source's content, no other name appears, and every other object is
      untouched. */
  lemma MovedSpec<K, V>(m: map<K, V>, src: K, dst: K)
    requires src in m
    ensures var r := Moved(m, src, dst);
            && src !in r
            && (src != dst ==> dst in r && r[dst] == m[src])
            && (forall k :: k in r ==> k in m || k == dst)
            && (forall k :: k in m && k != src && k != dst ==> k in r && r[k] == m[k])
  {
  }

  /** The store after a run of moves, and the source that was missing when a
      copy failed (the run stops there and later moves never happen). */
  datatype Relocation<K, V> = Relocation(store: map<K, V>, missing: Option<K>)

  function Relocate<K(==), V>(m: map<K, V>, moves: seq<Move<K>>): Relocation<K, V>
    decreases |moves|
  {
    if moves == [] then Relocation(m, None)
    else
      var prev := Relocate(m, moves[..|moves| - 1]);
      var mv := moves[|moves| - 1];
      if prev.missing.Some? then prev
      else if mv.src in prev.store then Relocation(Moved(prev.store, mv.src, mv.dst), None)
      else Relocation(prev.store, Some(mv.src))
  }

  /** One more move after a successful run applies `Moved` to its store. */
  lemma RelocateStep<K, V>(m: map<K, V>, moves: seq<Move<K>>, n: nat)
    requires n < |moves|
    requires Relocate(m, moves[..n]).missing == None
    requires moves[n].src in Relocate(m, moves[..n]).store
    ensures Relocate(m, moves[..n + 1]) == Relocation(Moved(Relocate(m, moves[..n]).store, moves[n].src, moves[n].dst), None)
  {
    assert moves[..n + 1][..n] == moves[..n];
  }

  /** No move reads or overwrites a name another move uses. */
  ghost predicate Independent<K>(moves: seq<Move<K>>)
  {
    forall i, j :: 0 <= i < |moves| && 0 <= j < |moves| && i != j ==>
      moves[i].src != moves[j].src && moves[i].dst != moves[j].dst && moves[i].src != moves[j].dst
  }

  /** Some move reads or writes `k`. */
  ghost predicate Touched<K>(moves: seq<Move<K>>, k: K)
  {
    exists i :: 0 <= i < |moves| && (moves[i].src == k || moves[i].dst == k)
  }

  /** Independent moves whose sources are all present never hit a missing
      source. */
  lemma RelocateComplete<K, V>(m: map<K, V>, moves: seq<Move<K>>)
    requires Independent(moves)
    requires forall i :: 0 <= i < |moves| ==> moves[i].src in m
    ensures Relocate(m, moves) == Relocation(Relocate(m, moves).store, None)
  {
    RelocateIndependent(m, moves);
  }

  /** Independent moves of present objects all succeed: each source is gone,
      each destination (unless it is its own source) holds the source's old
      content, and every name no move touches is unchanged. */
  lemma {:induction false} RelocateIndependent<K, V>(m: map<K, V>, moves: seq<Move<K>>)
    requires Independent(moves)
    requires forall i :: 0 <= i < |moves| ==> moves[i].src in m
    ensures Relocate(m, moves).missing == None
    ensures forall i :: 0 <= i < |moves| ==> moves[i].src !in Relocate(m, moves).store
    ensures forall i :: 0 <= i < |moves| && moves[i].src != moves[i].dst ==>
              moves[i].dst in Relocate(m, moves).store && Relocate(m, moves).store[moves[i].dst] == m[moves[i].src]
    ensures forall k :: !Touched(moves, k) ==>
              (k in Relocate(m, moves).store <==> k in m) && (k in m ==> Relocate(m, moves).store[k] == m[k])
    decreases |moves|
  {
    if moves != [] {
      var n := |moves| - 1;
      var init, last := moves[..n], moves[n];
      assert Independent(init);
      RelocateIndependent(m, init);
      var prev := Relocate(m, init);
      assert !Touched(init, last.src) by {
        forall i | 0 <= i < |init| ensures init[i].src != last.src && init[i].dst != last.src {
          assert init[i] == moves[i];
        }
      }
      assert last.src in prev.store && prev.store[last.src] == m[last.src];
      var r := Relocate(m, moves);
      assert r.store == Moved(prev.store, last.src, last.dst);
      MovedSpec(prev.store, last.src, last.dst);
      forall i | 0 <= i < |moves|
        ensures moves[i].src !in r.store
        ensures moves[i].src != moves[i].dst ==> moves[i].dst in r.store && r.store[moves[i].dst] == m[moves[i].src]
      {
        if i < n {
          assert init[i] == moves[i];
        }
      }
      forall k | !Touched(moves, k)
        ensures (k in r.store <==> k in m) && (k in m ==> r.store[k] == m[k])
      {
        forall i | 0 <= i < |init| ensures init[i].src != k && init[i].dst != k {
          assert init[i] == moves[i];
        }
        assert !Touched(init, k);
        assert k != last.src && k != last.dst;
      }
    }
  }

  /** Frame of any run of moves, independent or not, finished or stopped at a
      missing source: a name no move reads or writes keeps its presence and
      its content. */
  lemma {:induction false} RelocateFrame<K, V>(m: map<K, V>, moves: seq<Move<K>>, k: K)
    requires !Touched(moves, k)
    ensures k in Relocate(m, moves).store <==> k in m
    ensures k in m ==> Relocate(m, moves).store[k] == m[k]
    decreases |moves|
  {
    if moves != [] {
      var n := |moves| - 1;
      var init := moves[..n];
      assert !Touched(init, k) by {
        forall i | 0 <= i < |init| ensures init[i].src != k && init[i].dst != k {
          assert init[i] == moves[i];
        }
      }
      RelocateFrame(m, init, k);
      assert k != moves[n].src && k != moves[n].dst;
    }
  }

  /** Moves that may share destinations (fan-in) but read distinct sources,
      none of which any move writes. */
  ghost predicate FanIn<K>(moves: seq<Move<K>>)
  {
    && (forall i, j :: 0 <= i < j < |moves| ==> moves[i].src != moves[j].src)
    && (forall i, j :: 0 <= i < |moves| && 0 <= j < |moves| ==> moves[i].src != moves[j].dst)
  }

  lemma FanInPrefix<K>(moves: seq<Move<K>>, n: nat)
    requires FanIn(moves) && n <= |moves|
    ensures FanIn(moves[..n])
  {
  }

  /** A fan-in run whose sources are all present completes. */
  lemma {:induction false} RelocateFanIn<K, V>(m: map<K, V>, moves: seq<Move<K>>)
    requires FanIn(moves)
    requires forall i :: 0 <= i < |moves| ==> moves[i].src in m
    ensures Relocate(m, moves).missing == None
    decreases |moves|
  {
    if moves != [] {
      var n := |moves| - 1;
      var init := moves[..n];
      FanInPrefix(moves, n);
      RelocateFanIn(m, init);
      SourceUntouched(moves, n);
      RelocateFrame(m, init, moves[n].src);
    }
  }

  /** In a fan-in run the last move's source is untouched by the moves before it. */
  lemma SourceUntouched<K>(moves: seq<Move<K>>, n: nat)
    requires FanIn(moves) && n < |moves|
    ensures !Touched(moves[..n], moves[n].src)
  {
    var init := moves[..n];
    forall i | 0 <= i < |init| ensures init[i].src != moves[n].src && init[i].dst != moves[n].src {
      assert init[i] == moves[i];
    }
  }

  /** Last writer wins: in a completed fan-in run, a destination holds the
      original content of the source of the last move that writes it. */
  lemma {:induction false} RelocateLastWriter<K, V>(m: map<K, V>, moves: seq<Move<K>>, j: nat)
    requires FanIn(moves)
    requires forall i :: 0 <= i < |moves| ==> moves[i].src in m
    requires j < |moves| && forall i :: j < i < |moves| ==> moves[i].dst != moves[j].dst
    ensures moves[j].dst in Relocate(m, moves).store
    ensures Relocate(m, moves).store[moves[j].dst] == m[moves[j].src]
    decreases |moves|
  {
    var n := |moves| - 1;
    var init := moves[..n];
    FanInPrefix(moves, n);
    RelocateFanIn(m, init);
    SourceUntouched(moves, n);
    RelocateFrame(m, init, moves[n].src);
    var prev := Relocate(m, init);
    assert Relocate(m, moves).store == Moved(prev.store, moves[n].src, moves[n].dst);
    if j < n {
      assert init[j] == moves[j];
      RelocateLastWriter(m, init, j);
      assert moves[j].dst != moves[n].src;
    }
  }

  /** Last writer wins, for a run split around the move of interest: when no
      later move writes its destination, that destination ends with the
      original content of its source. */
  lemma LastWriterAround<K, V>(m: map<K, V>, before: seq<Move<K>>, mv: Move<K>, after: seq<Move<K>>)
    requires FanIn(before + [mv] + after)
    requires forall i :: 0 <= i < |before + [mv] + after| ==> (before + [mv] + after)[i].src in m
    requires mv.src in m
    requires forall t :: 0 <= t < |after| ==> after[t].dst != mv.dst
    ensures mv.dst in Relocate(m, before + [mv] + after).store
    ensures Relocate(m, before + [mv] + after).store[mv.dst] == m[mv.src]
  {
    var plan := before + [mv] + after;
    var j := |before|;
    forall t | j < t < |plan| ensures plan[t].dst != plan[j].dst {
      assert plan[t] == after[t - j - 1];
    }
    RelocateLastWriter(m, plan, j);
  }

  /** Before the n-th of a run of independent moves, its source is still
      present with its original content. */
  lemma SourceBeforeMove<K, V>(m: map<K, V>, moves: seq<Move<K>>, n: nat)
    requires Independent(moves)
    requires forall i :: 0 <= i < |moves| ==> moves[i].src in m
    requires n < |moves|
    ensures Relocate(m, moves[..n]).missing == None
    ensures moves[n].src in Relocate(m, moves[..n]).store
    ensures Relocate(m, moves[..n]).store[moves[n].src] == m[moves[n].src]
  {
    var init := moves[..n];
    assert Independent(init);
    RelocateIndependent(m, init);
    forall i | 0 <= i < |init| ensures init[i].src != moves[n].src && init[i].dst != moves[n].src {
      assert init[i] == moves[i];
    }
    assert !Touched(init, moves[n].src);
  }

  /** A named object in a named bucket. */
  datatype ObjectRef = ObjectRef(bucket: string, key: string)

  /** A store call as the service sees it. */
  datatype StoreCall = Put(target: ObjectRef) | Copy(source: ObjectRef, target: ObjectRef) | Delete(target: ObjectRef)

  /** The object store client: every bucket's objects, and the calls made on it. */
  class ObjectStore {
    var objects: map<ObjectRef, Blob>
    var calls: seq<StoreCall>

    constructor (objects: map<ObjectRef, Blob>)
      ensures this.objects == objects && calls == []
    {
      this.objects := objects;
      calls := [];
    }

    /** Write `body` at `target`, replacing what was there. */
    method PutObject(target: ObjectRef, body: Blob)
      modifies this
      ensures objects == old(objects)[target := body]
      ensures calls == old(calls) + [Put(target)]
    {
      objects := objects[target := body];
      calls := calls + [Put(target)];
    }

    /** Copy `source` onto `target`; fails, changing nothing, when `source` is absent. */
    method CopyObject(source: ObjectRef, target: ObjectRef) returns (ok: bool)
      modifies this
      ensures ok <==> source in old(objects)
      ensures ok ==> objects == old(objects)[target := old(objects)[source]]
      ensures !ok ==> objects == old(objects)
      ensures calls == old(calls) + [Copy(source, target)]
    {
      ok := source in objects;
      if ok {
        objects := objects[target := objects[source]];
      }
      calls := calls + [Copy(source, target)];
    }

    /** Delete `target`; deleting an absent object is not an error. */
    method DeleteObject(target: ObjectRef)
      modifies this
      ensures objects == old(objects) - {target}
      ensures calls == old(calls) + [Delete(target)]
    {
      objects := objects - {target};
      calls := calls + [Delete(target)];
    }
  }

  /** The store calls a run of moves makes: a copy and a delete per move,
      until a copy finds its source missing; that copy is the last call. */
  function MoveCalls(m: map<ObjectRef, Blob>, moves: seq<Move<ObjectRef>>): seq<StoreCall>
    decreases |moves|
  {
    if moves == [] then []
    else
      var init := moves[..|moves| - 1];
      var prev := Relocate(m, init);
      var mv := moves[|moves| - 1];
      if prev.missing.Some? then MoveCalls(m, init)
      else MoveCalls(m, init) + [Copy(mv.src, mv.dst)] + (if mv.src in prev.store then [Delete(mv.src)] else [])
  }

  /** One more move at the end of a run. */
  lemma RelocateSnoc<K, V>(m: map<K, V>, moves: seq<Move<K>>, mv: Move<K>)
    ensures var prev := Relocate(m, moves);
            Relocate(m, moves + [mv])
              == if prev.missing.Some? then prev
                 else if mv.src in prev.store then Relocation(Moved(prev.store, mv.src, mv.dst), None)
                 else Relocation(prev.store, Some(mv.src))
  {
    assert (moves + [mv])[..|moves|] == moves;
  }

  lemma MoveCallsSnoc(m: map<ObjectRef, Blob>, moves: seq<Move<ObjectRef>>, mv: Move<ObjectRef>)
    ensures var prev := Relocate(m, moves);
            MoveCalls(m, moves + [mv])
              == if prev.missing.Some? then MoveCalls(m, moves)
                 else MoveCalls(m, moves) + [Copy(mv.src, mv.dst)] + (if mv.src in prev.store then [Delete(mv.src)] else [])
  {
    assert (moves + [mv])[..|moves|] == moves;
  }

  /** Once a copy has failed, later moves change nothing and make no calls. */
  lemma {:induction false} RelocateStuck(m: map<ObjectRef, Blob>, a: seq<Move<ObjectRef>>, b: seq<Move<ObjectRef>>)
    requires Relocate(m, a).missing.Some?
    ensures Relocate(m, a + b) == Relocate(m, a)
    ensures MoveCalls(m, a + b) == MoveCalls(m, a)
    decreases |b|
  {
    if b == [] {
      assert a + b == a;
    } else {
      var n := |b| - 1;
      RelocateStuck(m, a, b[..n]);
      assert a + b == (a + b[..n]) + [b[n]];
      RelocateSnoc(m, a + b[..n], b[n]);
      MoveCallsSnoc(m, a + b[..n], b[n]);
    }
  }

  /** A move whose source is present, after a successful run: the store
      takes the move, and the calls gain the copy and the delete. */
  lemma RunMoves(m: map<ObjectRef, Blob>, done: seq<Move<ObjectRef>>, src: ObjectRef, dst: ObjectRef,
                 st: map<ObjectRef, Blob>, before: seq<StoreCall>)
    requires Relocate(m, done) == Relocation(st, None) && src in st
    ensures Relocate(m, done + [Move(src, dst)]) == Relocation(st[dst := st[src]] - {src}, None)
    ensures before + MoveCalls(m, done) + [Copy(src, dst)] + [Delete(src)] == before + MoveCalls(m, done + [Move(src, dst)])
  {
    RelocateSnoc(m, done, Move(src, dst));
    MoveCallsSnoc(m, done, Move(src, dst));
  }

  /** A move whose source is missing, after a successful run: the run stops
      there with the store unchanged, its copy is the last call, and nothing
      planned after it happens. */
  lemma RunStops(m: map<ObjectRef, Blob>, done: seq<Move<ObjectRef>>, src: ObjectRef, dst: ObjectRef,
                 rest: seq<Move<ObjectRef>>, st: map<ObjectRef, Blob>, before: seq<StoreCall>)
    requires Relocate(m, done) == Relocation(st, None) && src !in st
    ensures Relocate(m, done + [Move(src, dst)] + rest) == Relocation(st, Some(src))
    ensures before + MoveCalls(m, done) + [Copy(src, dst)] == before + MoveCalls(m, done + [Move(src, dst)] + rest)
  {
    RelocateSnoc(m, done, Move(src, dst));
    MoveCallsSnoc(m, done, Move(src, dst));
    RelocateStuck(m, done + [Move(src, dst)], rest);
  }
}
