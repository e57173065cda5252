/** The object-created event handler of the unstructured-data pipeline: every
    uploaded object whose (URL-decoded) key ends in a supported extension is
    moved, inside its own bucket, to "staging/" followed by the key's last
    path segment. */
module StagingMover {
  import opened Wrappers
  import opened Strings
  import opened BlobStore

  /** One record of an object-created event: the bucket and the key exactly as
      the event carries it (URL-encoded, spaces as '+'). */
  datatype Record = Record(bucket: string, rawKey: string)

  /** The extensions the mover accepts. */
  const SupportedExtensions: seq<string> := [".csv", ".json", ".xml", ".txt"]

  /** The decoded key ends with one of the supported extensions, tried in order. */
  predicate Supported(key: string)
  {
    IsSuffix(".csv", key) || IsSuffix(".json", key) || IsSuffix(".xml", key) || IsSuffix(".txt", key)
  }

  /** A key is supported exactly when some extension of the list ends it. */
  lemma SupportedSpec(key: string)
    ensures Supported(key) <==> exists i :: 0 <= i < |SupportedExtensions| && IsSuffix(SupportedExtensions[i], key)
  {
    var exts := SupportedExtensions;
    assert |exts| == 4;
    assert exts[0] == ".csv" && exts[1] == ".json" && exts[2] == ".xml" && exts[3] == ".txt";
    forall i | 0 <= i < |exts| && IsSuffix(exts[i], key)
      ensures Supported(key)
    {
      if i == 0 {
      } else if i == 1 {
      } else if i == 2 {
      } else {
      }
    }
    if Supported(key) {
      if IsSuffix(".csv", key) {
        assert IsSuffix(exts[0], key);
      } else if IsSuffix(".json", key) {
        assert IsSuffix(exts[1], key);
      } else if IsSuffix(".xml", key) {
        assert IsSuffix(exts[2], key);
      } else {
        assert IsSuffix(exts[3], key);
      }
    }
  }

  /** Where the segment ending at `end` starts: just after the last '/'
      before `end`, or 0 when there is none. */
  function SegmentStart(key: string, end: nat): (st: nat)
    requires end <= |key|
    ensures st <= end
    decreases end
  {
    if end == 0 then 0
    else if key[end - 1] == '/' then end
    else SegmentStart(key, end - 1)
  }

  /** The text after the last '/' (the whole key when it has none). */
  function LastSegment(key: string): string
  {
    key[SegmentStart(key, |key|)..]
  }

  /** The destination of a supported key. */
  function StagingKey(key: string): string
  {
    "staging/" + LastSegment(key)
  }

  /** The move a record asks for, once its key is decoded with `unquote`. */
  function MoveOf(rec: Record, unquote: string -> string): Move<ObjectRef>
  {
    var key := unquote(rec.rawKey);
    Move(ObjectRef(rec.bucket, key), ObjectRef(rec.bucket, StagingKey(key)))
  }

  /** The moves one record asks for: its move when its key is supported, none otherwise. */
  function RecordMoves(rec: Record, unquote: string -> string): seq<Move<ObjectRef>>
  {
    if Supported(unquote(rec.rawKey)) then [MoveOf(rec, unquote)] else []
  }

  /** The moves of a batch of records: one per supported record, in record order. */
  function MoverPlan(records: seq<Record>, unquote: string -> string): seq<Move<ObjectRef>>
    decreases |records|
  {
    if records == [] then []
    else MoverPlan(records[..|records| - 1], unquote) + RecordMoves(records[|records| - 1], unquote)
  }

  /** The last segment is the longest slash-free tail of the key: it ends the
      key, holds no '/', and is either the whole key or preceded by a '/'. */
  lemma LastSegmentSpec(key: string)
    ensures var r := LastSegment(key);
            && IsSuffix(r, key)
            && '/' !in r
            && (r == key || key[|key| - |r| - 1] == '/')
  {
    var st := SegmentStart(key, |key|);
    SegmentStartSpec(key, |key|);
    var r := key[st..];
    forall j | 0 <= j < |r| ensures r[j] != '/' {
      assert r[j] == key[st + j];
    }
    if st == 0 {
      assert r == key;
    }
  }

  /** The segment start is the position after the last '/' before `end`. */
  lemma {:induction false} SegmentStartSpec(key: string, end: nat)
    requires end <= |key|
    ensures var st := SegmentStart(key, end);
            && (forall i :: st <= i < end ==> key[i] != '/')
            && (st == 0 || key[st - 1] == '/')
    decreases end
  {
    if end > 0 && key[end - 1] != '/' {
      SegmentStartSpec(key, end - 1);
    }
  }

  /** A key already of the form "staging/<name>" is its own destination. */
  lemma StagingKeyOfStaged(name: string)
    requires '/' !in name
    ensures StagingKey("staging/" + name) == "staging/" + name
  {
    LastSegmentSpec("staging/" + name);
  }

  /** Every move of the plan comes from a supported record of the batch,
      stays in that record's bucket and lands on its staging key. */
  lemma {:induction false} MoverPlanSources(records: seq<Record>, unquote: string -> string, mv: Move<ObjectRef>)
    requires mv in MoverPlan(records, unquote)
    ensures exists i :: 0 <= i < |records| && Supported(unquote(records[i].rawKey)) && mv == MoveOf(records[i], unquote)
    ensures mv.dst == ObjectRef(mv.src.bucket, StagingKey(mv.src.key)) && Supported(mv.src.key)
    decreases |records|
  {
    var n := |records| - 1;
    var init := records[..n];
    MoverPlanLast(records, unquote);
    if mv in MoverPlan(init, unquote) {
      MoverPlanSources(init, unquote, mv);
      var i :| 0 <= i < |init| && Supported(unquote(init[i].rawKey)) && mv == MoveOf(init[i], unquote);
      assert records[i] == init[i];
    } else {
      assert mv in RecordMoves(records[n], unquote);
    }
  }

  /** Every supported record's move is in the plan. */
  lemma {:induction false} MoverPlanCovers(records: seq<Record>, unquote: string -> string, i: nat)
    requires i < |records| && Supported(unquote(records[i].rawKey))
    ensures MoveOf(records[i], unquote) in MoverPlan(records, unquote)
    decreases |records|
  {
    var n := |records| - 1;
    var init := records[..n];
    MoverPlanLast(records, unquote);
    if i < n {
      assert records[i] == init[i];
      MoverPlanCovers(init, unquote, i);
    } else {
      SupportedMoves(records[n], unquote);
    }
  }

  /** A batch with no supported key plans nothing, so the store is left as it was. */
  lemma {:induction false} NoMatchNoChange(records: seq<Record>, unquote: string -> string, m: map<ObjectRef, Blob>)
    requires forall i :: 0 <= i < |records| ==> !Supported(unquote(records[i].rawKey))
    ensures MoverPlan(records, unquote) == []
    ensures Relocate(m, MoverPlan(records, unquote)) == Relocation(m, None)
    decreases |records|
  {
    if records != [] {
      NoMatchNoChange(records[..|records| - 1], unquote, m);
    }
  }

  /** Frame of the handler's run, whatever the batch (colliding staging keys,
      keys already under "staging/", a copy that fails part way): an object
      that is neither the decoded key of a supported record nor that record's
      staging key keeps its presence and its content. */
  lemma MoverFrame(m: map<ObjectRef, Blob>, records: seq<Record>, unquote: string -> string, r: ObjectRef)
    requires forall i :: 0 <= i < |records| && Supported(unquote(records[i].rawKey)) ==>
               r != ObjectRef(records[i].bucket, unquote(records[i].rawKey))
               && r != ObjectRef(records[i].bucket, StagingKey(unquote(records[i].rawKey)))
    ensures r in Relocate(m, MoverPlan(records, unquote)).store <==> r in m
    ensures r in m ==> Relocate(m, MoverPlan(records, unquote)).store[r] == m[r]
  {
    var plan := MoverPlan(records, unquote);
    assert !Touched(plan, r) by {
      forall j | 0 <= j < |plan| ensures plan[j].src != r && plan[j].dst != r {
        MoverPlanSources(records, unquote, plan[j]);
      }
    }
    RelocateFrame(m, plan, r);
  }

  /** The supported records of a batch name distinct objects. */
  ghost predicate DistinctSources(records: seq<Record>, unquote: string -> string)
  {
    forall a, b :: 0 <= a < b < |records| && Supported(unquote(records[a].rawKey)) && Supported(unquote(records[b].rawKey)) ==>
      MoveOf(records[a], unquote).src != MoveOf(records[b], unquote).src
  }

  /** No supported record of a batch names the staging key of a supported record of the batch. */
  ghost predicate SourcesNotStaged(records: seq<Record>, unquote: string -> string)
  {
    forall a, b :: 0 <= a < |records| && 0 <= b < |records| && Supported(unquote(records[a].rawKey)) && Supported(unquote(records[b].rawKey)) ==>
      MoveOf(records[a], unquote).src != MoveOf(records[b], unquote).dst
  }

  /** The record a move of the plan comes from. */
  lemma PlanOrigin(records: seq<Record>, unquote: string -> string, t: nat) returns (a: nat)
    requires t < |MoverPlan(records, unquote)|
    ensures a < |records| && Supported(unquote(records[a].rawKey))
    ensures MoverPlan(records, unquote)[t] == MoveOf(records[a], unquote)
  {
    MoverPlanSources(records, unquote, MoverPlan(records, unquote)[t]);
    a :| 0 <= a < |records| && Supported(unquote(records[a].rawKey)) && MoverPlan(records, unquote)[t] == MoveOf(records[a], unquote);
  }

  /** Distinct supported objects give a plan with distinct sources. */
  lemma {:induction false} MoverPlanDistinct(records: seq<Record>, unquote: string -> string)
    requires DistinctSources(records, unquote)
    ensures forall p, q :: 0 <= p < q < |MoverPlan(records, unquote)| ==>
              MoverPlan(records, unquote)[p].src != MoverPlan(records, unquote)[q].src
    decreases |records|
  {
    if records != [] {
      var n := |records| - 1;
      var init := records[..n];
      assert DistinctSources(init, unquote) by {
        forall a | 0 <= a < |init| ensures init[a] == records[a] { }
      }
      MoverPlanDistinct(init, unquote);
      MoverPlanLast(records, unquote);
      var plan, prev := MoverPlan(records, unquote), MoverPlan(init, unquote);
      forall p, q | 0 <= p < q < |plan| ensures plan[p].src != plan[q].src {
        if q < |prev| {
          assert plan[p] == prev[p] && plan[q] == prev[q];
        } else {
          LastSourceFresh(records, unquote, p);
        }
      }
    }
  }

  /** The last record's move reads an object no earlier move of the plan reads. */
  lemma LastSourceFresh(records: seq<Record>, unquote: string -> string, p: nat)
    requires DistinctSources(records, unquote) && records != []
    requires p < |MoverPlan(records[..|records| - 1], unquote)|
    requires Supported(unquote(records[|records| - 1].rawKey))
    ensures MoverPlan(records[..|records| - 1], unquote)[p].src != MoveOf(records[|records| - 1], unquote).src
  {
    var init := records[..|records| - 1];
    var a := PlanOrigin(init, unquote, p);
    assert init[a] == records[a];
  }

  /** A batch whose supported records name distinct objects, none a staging
      key of the batch, has a fan-in plan. */
  lemma MoverPlanFanIn(records: seq<Record>, unquote: string -> string)
    requires DistinctSources(records, unquote) && SourcesNotStaged(records, unquote)
    ensures FanIn(MoverPlan(records, unquote))
  {
    var plan := MoverPlan(records, unquote);
    MoverPlanDistinct(records, unquote);
    forall p, q | 0 <= p < |plan| && 0 <= q < |plan| ensures plan[p].src != plan[q].dst {
      var a := PlanOrigin(records, unquote, p);
      var b := PlanOrigin(records, unquote, q);
    }
  }

  /** Moves planned for the records after the i-th do not write `dst` when no
      later supported record targets it. */
  lemma LaterMovesMiss(records: seq<Record>, unquote: string -> string, i: nat, rest: seq<Record>, dst: ObjectRef)
    requires i < |records| && rest == records[i + 1..]
    requires forall b :: i < b < |records| && Supported(unquote(records[b].rawKey)) ==> MoveOf(records[b], unquote).dst != dst
    ensures forall t :: 0 <= t < |MoverPlan(rest, unquote)| ==> MoverPlan(rest, unquote)[t].dst != dst
  {
    forall t | 0 <= t < |MoverPlan(rest, unquote)| ensures MoverPlan(rest, unquote)[t].dst != dst {
      var c := PlanOrigin(rest, unquote, t);
      assert rest[c] == records[i + 1 + c];
    }
  }

  /** The plan around a supported record: the plan of the records before it,
      its own move, then the plan of the records after it. */
  lemma MoverPlanAround(records: seq<Record>, unquote: string -> string, i: nat)
    requires i < |records| && Supported(unquote(records[i].rawKey))
    ensures MoverPlan(records, unquote)
              == MoverPlan(records[..i], unquote) + [MoveOf(records[i], unquote)] + MoverPlan(records[i + 1..], unquote)
  {
    MoverPlanSplit(records, unquote, i + 1);
    MoverPlanStep(records, unquote, i);
  }

  /** A batch whose supported records name distinct present objects, none a
      staging key of the batch, is moved without a failed copy. */
  lemma MoverCompletes(m: map<ObjectRef, Blob>, records: seq<Record>, unquote: string -> string)
    requires DistinctSources(records, unquote) && SourcesNotStaged(records, unquote)
    requires forall a :: 0 <= a < |records| && Supported(unquote(records[a].rawKey)) ==> MoveOf(records[a], unquote).src in m
    ensures FanIn(MoverPlan(records, unquote))
    ensures forall t :: 0 <= t < |MoverPlan(records, unquote)| ==> MoverPlan(records, unquote)[t].src in m
    ensures Relocate(m, MoverPlan(records, unquote)).missing == None
  {
    var plan := MoverPlan(records, unquote);
    MoverPlanFanIn(records, unquote);
    forall t | 0 <= t < |plan| ensures plan[t].src in m {
      var a := PlanOrigin(records, unquote, t);
    }
    RelocateFanIn(m, plan);
  }

  /** Last writer wins across the whole batch: when the supported records of a
      batch name distinct present objects, none of them a staging key of the
      batch, the run completes and each staging key holds the content of the
      last supported record of the batch that targets it. */
  lemma MoverLastWriter(m: map<ObjectRef, Blob>, records: seq<Record>, unquote: string -> string, i: nat)
    requires DistinctSources(records, unquote) && SourcesNotStaged(records, unquote)
    requires forall a :: 0 <= a < |records| && Supported(unquote(records[a].rawKey)) ==> MoveOf(records[a], unquote).src in m
    requires i < |records| && Supported(unquote(records[i].rawKey))
    requires forall b :: i < b < |records| && Supported(unquote(records[b].rawKey)) ==>
               MoveOf(records[b], unquote).dst != MoveOf(records[i], unquote).dst
    ensures Relocate(m, MoverPlan(records, unquote)).missing == None
    ensures var r := Relocate(m, MoverPlan(records, unquote)).store;
            && MoveOf(records[i], unquote).dst in r
            && r[MoveOf(records[i], unquote).dst] == m[MoveOf(records[i], unquote).src]
  {
    var mv := MoveOf(records[i], unquote);
    MoverCompletes(m, records, unquote);
    var rest := records[i + 1..];
    MoverPlanAround(records, unquote, i);
    LaterMovesMiss(records, unquote, i, rest, mv.dst);
    LastWriterAround(m, MoverPlan(records[..i], unquote), mv, MoverPlan(rest, unquote));
  }

  /** The plan of a batch is the plan of a prefix followed by the plan of the rest. */
  lemma {:induction false} MoverPlanSplit(records: seq<Record>, unquote: string -> string, i: nat)
    requires i <= |records|
    ensures MoverPlan(records, unquote) == MoverPlan(records[..i], unquote) + MoverPlan(records[i..], unquote)
    decreases |records|
  {
    if i == |records| {
      assert records[..i] == records;
      assert records[i..] == [];
    } else {
      var n := |records| - 1;
      var init := records[..n];
      var rest := records[i..];
      MoverPlanSplit(init, unquote, i);
      SliceFacts(records, i);
      MoverPlanLast(rest, unquote);
      MoverPlanLast(records, unquote);
      AppendAssoc(MoverPlan(records[..i], unquote), MoverPlan(init[i..], unquote), RecordMoves(records[n], unquote));
    }
  }

  /** How the slices of a sequence and of its prefix without the last element relate. */
  lemma SliceFacts<T>(xs: seq<T>, i: nat)
    requires i < |xs|
    ensures var n := |xs| - 1;
            var rest := xs[i..];
            && xs[..n][..i] == xs[..i]
            && rest[..|rest| - 1] == xs[..n][i..]
            && rest[|rest| - 1] == xs[n]
  {
  }

  /** A supported record asks for exactly its move. */
  lemma SupportedMoves(rec: Record, unquote: string -> string)
    requires Supported(unquote(rec.rawKey))
    ensures RecordMoves(rec, unquote) == [MoveOf(rec, unquote)]
  {
  }

  /** The plan of a nonempty batch ends with the moves of its last record. */
  lemma MoverPlanLast(records: seq<Record>, unquote: string -> string)
    requires records != []
    ensures MoverPlan(records, unquote)
              == MoverPlan(records[..|records| - 1], unquote) + RecordMoves(records[|records| - 1], unquote)
  {
  }

  lemma AppendAssoc<T>(a: seq<T>, b: seq<T>, c: seq<T>)
    ensures (a + b) + c == a + (b + c)
  {
  }

  /** The plan of one more record. */
  lemma MoverPlanStep(records: seq<Record>, unquote: string -> string, i: nat)
    requires i < |records|
    ensures MoverPlan(records[..i + 1], unquote)
              == MoverPlan(records[..i], unquote)
                 + (if Supported(unquote(records[i].rawKey)) then [MoveOf(records[i], unquote)] else [])
  {
    assert records[..i + 1][..i] == records[..i];
  }

  /** A supported object already at its staging key is copied onto itself and
      then deleted: it is lost. */
  lemma StagedObjectLost(m: map<ObjectRef, Blob>, rec: Record, name: string, unquote: string -> string)
    requires '/' !in name && unquote(rec.rawKey) == "staging/" + name
    requires Supported(unquote(rec.rawKey))
    requires ObjectRef(rec.bucket, unquote(rec.rawKey)) in m
    ensures var r := Relocate(m, MoverPlan([rec], unquote));
            r.missing == None && ObjectRef(rec.bucket, unquote(rec.rawKey)) !in r.store
  {
    var obj := ObjectRef(rec.bucket, unquote(rec.rawKey));
    StagingKeyOfStaged(name);
    assert MoveOf(rec, unquote) == Move(obj, obj);
    MoverPlanStep([rec], unquote, 0);
    assert [rec][..1] == [rec];
    assert [rec][..0] == [];
    RelocateSnoc(m, [], Move(obj, obj));
    assert [] + [Move(obj, obj)] == [Move(obj, obj)];
    MovedSpec(m, obj, obj);
  }

  /** Two supported objects of one bucket with the same last segment land on
      the same staging key, and the later one's content is what remains there. */
  lemma CollisionLastWins(m: map<ObjectRef, Blob>, bucket: string, k1: string, k2: string)
    requires Supported(k1) && Supported(k2)
    requires k1 != k2 && LastSegment(k1) == LastSegment(k2)
    requires k1 != StagingKey(k1) && k2 != StagingKey(k2)
    requires ObjectRef(bucket, k1) in m && ObjectRef(bucket, k2) in m
    ensures var r := Relocate(m, MoverPlan([Record(bucket, k1), Record(bucket, k2)], s => s));
            && r.missing == None
            && ObjectRef(bucket, k1) !in r.store && ObjectRef(bucket, k2) !in r.store
            && ObjectRef(bucket, StagingKey(k2)) in r.store
            && r.store[ObjectRef(bucket, StagingKey(k2))] == m[ObjectRef(bucket, k2)]
  {
    var id: string -> string := s => s;
    var recs := [Record(bucket, k1), Record(bucket, k2)];
    var a, b, d := ObjectRef(bucket, k1), ObjectRef(bucket, k2), ObjectRef(bucket, StagingKey(k2));
    MoverPlanStep(recs, id, 0);
    MoverPlanStep(recs, id, 1);
    assert recs[..2] == recs;
    assert recs[..0] == [];
    var plan := [Move(a, d), Move(b, d)];
    assert MoverPlan(recs, id) == plan;
    RelocateSnoc(m, [], Move(a, d));
    assert [] + [Move(a, d)] == [Move(a, d)];
    MovedSpec(m, a, d);
    var m1 := Moved(m, a, d);
    RelocateSnoc(m, [Move(a, d)], Move(b, d));
    assert [Move(a, d)] + [Move(b, d)] == plan;
    MovedSpec(m1, b, d);
  }

  /** The handler: for each record, decode the key and, when its extension is
      supported, copy it to its staging key in the same bucket and delete the
      original. A copy whose source is missing raises and ends the invocation
      (reported here as `Err` with that source); otherwise it answers "done".
      The store ends as the plan's run leaves it, and the calls made are the
      run's calls. */
  method LambdaHandler(s3: ObjectStore, records: seq<Record>, unquote: string -> string)
    returns (result: Result<string, ObjectRef>)
    modifies s3
    ensures var run := Relocate(old(s3.objects), MoverPlan(records, unquote));
            && s3.objects == run.store
            && s3.calls == old(s3.calls) + MoveCalls(old(s3.objects), MoverPlan(records, unquote))
            && result == if run.missing == None then Ok("done") else Err(run.missing.value)
  {
    ghost var m0 := s3.objects;
    ghost var c0 := s3.calls;
    ghost var plan: seq<Move<ObjectRef>> := [];
    var i := 0;
    while i < |records|
      invariant 0 <= i <= |records|
      invariant plan == MoverPlan(records[..i], unquote)
      invariant Relocate(m0, plan) == Relocation(s3.objects, None)
      invariant s3.calls == c0 + MoveCalls(m0, plan)
    {
      var rec := records[i];
      var srcKey := unquote(rec.rawKey);
      MoverPlanStep(records, unquote, i);
      if Supported(srcKey) {
        var src := ObjectRef(rec.bucket, srcKey);
        var dst := ObjectRef(rec.bucket, StagingKey(srcKey));
        ghost var st := s3.objects;
        var ok := s3.CopyObject(src, dst);
        if !ok {
          MoverPlanSplit(records, unquote, i + 1);
          RunStops(m0, plan, src, dst, MoverPlan(records[i + 1..], unquote), st, c0);
          return Err(src);
        }
        RunMoves(m0, plan, src, dst, st, c0);
        s3.DeleteObject(src);
        plan := plan + [Move(src, dst)];
      }
      i := i + 1;
    }
    assert records[..i] == records;
    result := Ok("done");
  }
}
