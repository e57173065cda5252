/** What one invocation of the orchestration handler guarantees, read off
    its trace (which outside calls it makes, how many, and in what order)
    and off the bucket it leaves (where each ingested object ends up). */
module HandlerGuarantees {
  import opened Wrappers
  import opened Strings
  import opened BlobStore
  import opened QualityGate
  import opened Orchestration

  // ---------------------------------------------------------------------
  // The calls of one kind
  // ---------------------------------------------------------------------

  /** Outside calls grouped by what they are for. */
  datatype Kind = Upload | CopyCall | DeleteCall | Notify | TransformCall | Curate | Final

  function KindOf(e: Event): Kind
  {
    match e
    case PutObject(_) => Upload
    case CopyObject(_, _) => CopyCall
    case DeleteObject(_) => DeleteCall
    case Publish(_, _, _) => Notify
    case Transform(_, _) => TransformCall
    case WriteCurated(_, _) => Curate
    case RegisterTable(_) => Curate
    case StartCrawler(_) => Final
    case MonitorJobs => Final
    case DetectDrift(_) => Final
  }

  /** The calls of kind `k` in `es`, in order. */
  function Calls(k: Kind, es: seq<Event>): seq<Event>
    decreases |es|
  {
    if es == [] then []
    else Calls(k, es[..|es| - 1]) + (if KindOf(es[|es| - 1]) == k then [es[|es| - 1]] else [])
  }

  lemma {:induction false} CallsConcat(k: Kind, a: seq<Event>, b: seq<Event>)
    ensures Calls(k, a + b) == Calls(k, a) + Calls(k, b)
    decreases |b|
  {
    if b == [] {
      assert a + b == a;
    } else {
      var n := |b| - 1;
      assert (a + b)[..|a + b| - 1] == a + b[..n];
      CallsConcat(k, a, b[..n]);
    }
  }

  lemma CallsOne(k: Kind, x: Event)
    ensures Calls(k, [x]) == if KindOf(x) == k then [x] else []
  {
    assert [x][..0] == [];
  }

  lemma CallsPair(k: Kind, x: Event, y: Event)
    ensures Calls(k, [x, y]) == Calls(k, [x]) + Calls(k, [y])
  {
    assert [x, y] == [x] + [y];
    CallsConcat(k, [x], [y]);
  }

  lemma CallsTriple(k: Kind, x: Event, y: Event, z: Event)
    ensures Calls(k, [x, y, z]) == Calls(k, [x]) + Calls(k, [y]) + Calls(k, [z])
  {
    assert [x, y, z] == [x, y] + [z];
    CallsConcat(k, [x, y], [z]);
    CallsPair(k, x, y);
  }

  /** The calls of one kind in a whole invocation, segment by segment. */
  lemma CallsHandler(k: Kind, cfg: Config, ts: string, passed: seq<Key>, failed: seq<Key>)
    ensures Calls(k, HandlerEvents(cfg, ts, passed, failed))
         == Calls(k, IngestEvents(IngestedKeys(ts)))
          + Calls(k, RouteEvents(passed, cfg.stagingPrefix))
          + Calls(k, QuarantineEvents(cfg, failed))
          + Calls(k, TransformEvents(cfg, passed, ts))
          + Calls(k, CurateEvents(cfg, passed, ts))
          + Calls(k, FinalEvents(cfg, passed))
  {
    var a, b, c := IngestEvents(IngestedKeys(ts)), RouteEvents(passed, cfg.stagingPrefix), QuarantineEvents(cfg, failed);
    var d, e, f := TransformEvents(cfg, passed, ts), CurateEvents(cfg, passed, ts), FinalEvents(cfg, passed);
    CallsConcat(k, a + b + c + d + e, f);
    CallsConcat(k, a + b + c + d, e);
    CallsConcat(k, a + b + c, d);
    CallsConcat(k, a + b, c);
    CallsConcat(k, a, b);
  }

  lemma DropEmpty(a: seq<Event>, b: seq<Event>, c: seq<Event>, d: seq<Event>, e: seq<Event>, f: seq<Event>)
    requires a == [] && d == [] && e == [] && f == []
    ensures a + b + c + d + e + f == b + c
  {
  }

  // ---------------------------------------------------------------------
  // What each segment calls
  // ---------------------------------------------------------------------

  /** The three uploads, in the order rest, SOAP, GraphQL. */
  lemma IngestUploads(ts: string)
    ensures var keys := IngestedKeys(ts);
            IngestEvents(keys) == [PutObject(keys[0]), PutObject(keys[1]), PutObject(keys[2])]
  {
    var keys := IngestedKeys(ts);
    assert keys[..1][..0] == [];
    assert IngestEvents(keys[..1]) == [PutObject(keys[0])];
    assert keys[..2][..1] == keys[..1];
    assert IngestEvents(keys[..2]) == [PutObject(keys[0]), PutObject(keys[1])];
    assert keys[..|keys| - 1] == keys[..2];
  }

  /** The upload segment holds uploads only. */
  lemma {:induction false} IngestCalls(k: Kind, keys: seq<Key>)
    ensures Calls(k, IngestEvents(keys)) == if k == Upload then IngestEvents(keys) else []
    decreases |keys|
  {
    if keys != [] {
      var n := |keys| - 1;
      IngestCalls(k, keys[..n]);
      CallsConcat(k, IngestEvents(keys[..n]), [PutObject(keys[n])]);
      CallsOne(k, PutObject(keys[n]));
    }
  }

  /** A routing loop copies and deletes, nothing else. */
  lemma {:induction false} RouteCalls(k: Kind, keys: seq<Key>, prefix: string)
    requires k != CopyCall && k != DeleteCall
    ensures Calls(k, RouteEvents(keys, prefix)) == []
    decreases |keys|
  {
    if keys != [] {
      var n := |keys| - 1;
      var x := keys[n];
      RouteCalls(k, keys[..n], prefix);
      CallsConcat(k, RouteEvents(keys[..n], prefix), [CopyObject(x, prefix + x), DeleteObject(x)]);
      CallsPair(k, CopyObject(x, prefix + x), DeleteObject(x));
      CallsOne(k, CopyObject(x, prefix + x));
      CallsOne(k, DeleteObject(x));
    }
  }

  /** One more key adds its copy to a routing loop's copies. */
  lemma RouteCopyStep(keys: seq<Key>, prefix: string)
    requires keys != []
    ensures var x := keys[|keys| - 1];
            Calls(CopyCall, RouteEvents(keys, prefix))
              == Calls(CopyCall, RouteEvents(keys[..|keys| - 1], prefix)) + [CopyObject(x, prefix + x)]
  {
    var n := |keys| - 1;
    var x := keys[n];
    CallsConcat(CopyCall, RouteEvents(keys[..n], prefix), [CopyObject(x, prefix + x), DeleteObject(x)]);
    CallsPair(CopyCall, CopyObject(x, prefix + x), DeleteObject(x));
    CallsOne(CopyCall, CopyObject(x, prefix + x));
    CallsOne(CopyCall, DeleteObject(x));
  }

  /** One more key adds its copy to the quarantine loop's copies and its
      notification to its notifications. */
  lemma QuarantineStep(k: Kind, cfg: Config, keys: seq<Key>)
    requires keys != [] && (k == CopyCall || k == Notify)
    ensures var x := keys[|keys| - 1];
            Calls(k, QuarantineEvents(cfg, keys))
              == Calls(k, QuarantineEvents(cfg, keys[..|keys| - 1]))
                 + if k == CopyCall then [CopyObject(x, cfg.quarantinePrefix + x)]
                   else [Publish(cfg.snsTopic, "Data Quarantine", QuarantineMessage(cfg, x))]
  {
    var n := |keys| - 1;
    var x := keys[n];
    var c, d, p := CopyObject(x, cfg.quarantinePrefix + x), DeleteObject(x), Publish(cfg.snsTopic, "Data Quarantine", QuarantineMessage(cfg, x));
    CallsConcat(k, QuarantineEvents(cfg, keys[..n]), [c, d, p]);
    CallsTriple(k, c, d, p);
    CallsOne(k, c);
    CallsOne(k, d);
    CallsOne(k, p);
  }

  /** The copies of a routing loop: one per key, in key order. */
  lemma {:induction false} RouteCopies(keys: seq<Key>, prefix: string)
    ensures var c := Calls(CopyCall, RouteEvents(keys, prefix));
            && |c| == |keys|
            && forall i :: 0 <= i < |keys| ==> c[i] == CopyObject(keys[i], prefix + keys[i])
    decreases |keys|
  {
    if keys != [] {
      var n := |keys| - 1;
      var prev := Calls(CopyCall, RouteEvents(keys[..n], prefix));
      RouteCopies(keys[..n], prefix);
      RouteCopyStep(keys, prefix);
      forall i | 0 <= i < n ensures prev[i] == CopyObject(keys[i], prefix + keys[i]) {
        assert keys[..n][i] == keys[i];
      }
    }
  }

  /** The quarantine loop copies, deletes and notifies, nothing else. */
  lemma {:induction false} QuarantineCalls(k: Kind, cfg: Config, keys: seq<Key>)
    requires k != CopyCall && k != DeleteCall && k != Notify
    ensures Calls(k, QuarantineEvents(cfg, keys)) == []
    decreases |keys|
  {
    if keys != [] {
      var n := |keys| - 1;
      var x := keys[n];
      var c, d, p := CopyObject(x, cfg.quarantinePrefix + x), DeleteObject(x), Publish(cfg.snsTopic, "Data Quarantine", QuarantineMessage(cfg, x));
      QuarantineCalls(k, cfg, keys[..n]);
      CallsConcat(k, QuarantineEvents(cfg, keys[..n]), [c, d, p]);
      CallsTriple(k, c, d, p);
      CallsOne(k, c);
      CallsOne(k, d);
      CallsOne(k, p);
    }
  }

  /** The copies of the quarantine loop: one per key, in key order. */
  lemma {:induction false} QuarantineCopies(cfg: Config, keys: seq<Key>)
    ensures var c := Calls(CopyCall, QuarantineEvents(cfg, keys));
            && |c| == |keys|
            && forall i :: 0 <= i < |keys| ==> c[i] == CopyObject(keys[i], cfg.quarantinePrefix + keys[i])
    decreases |keys|
  {
    if keys != [] {
      var n := |keys| - 1;
      var prev := Calls(CopyCall, QuarantineEvents(cfg, keys[..n]));
      QuarantineCopies(cfg, keys[..n]);
      QuarantineStep(CopyCall, cfg, keys);
      forall i | 0 <= i < n ensures prev[i] == CopyObject(keys[i], cfg.quarantinePrefix + keys[i]) {
        assert keys[..n][i] == keys[i];
      }
    }
  }

  /** The notifications of the quarantine loop: one per key, in key order. */
  lemma {:induction false} QuarantineNotices(cfg: Config, keys: seq<Key>)
    ensures var c := Calls(Notify, QuarantineEvents(cfg, keys));
            && |c| == |keys|
            && forall i :: 0 <= i < |keys| ==> c[i] == Publish(cfg.snsTopic, "Data Quarantine", QuarantineMessage(cfg, keys[i]))
    decreases |keys|
  {
    if keys != [] {
      var n := |keys| - 1;
      var prev := Calls(Notify, QuarantineEvents(cfg, keys[..n]));
      QuarantineNotices(cfg, keys[..n]);
      QuarantineStep(Notify, cfg, keys);
      forall i | 0 <= i < n ensures prev[i] == Publish(cfg.snsTopic, "Data Quarantine", QuarantineMessage(cfg, keys[i])) {
        assert keys[..n][i] == keys[i];
      }
    }
  }

  /** The transform loop calls the transformer, nothing else. */
  lemma {:induction false} TransformCalls(k: Kind, cfg: Config, keys: seq<Key>, ts: string)
    ensures Calls(k, TransformEvents(cfg, keys, ts)) == if k == TransformCall then TransformEvents(cfg, keys, ts) else []
    decreases |keys|
  {
    if keys != [] {
      var n := |keys| - 1;
      var e := Transform(TransformKey(cfg, keys[n]), ts);
      TransformCalls(k, cfg, keys[..n], ts);
      CallsConcat(k, TransformEvents(cfg, keys[..n], ts), [e]);
      CallsOne(k, e);
    }
  }

  /** One transformer call per key, in key order. */
  lemma {:induction false} TransformEventsShape(cfg: Config, keys: seq<Key>, ts: string)
    ensures |TransformEvents(cfg, keys, ts)| == |keys|
    ensures forall i :: 0 <= i < |keys| ==> TransformEvents(cfg, keys, ts)[i] == Transform(TransformKey(cfg, keys[i]), ts)
    decreases |keys|
  {
    if keys != [] {
      var n := |keys| - 1;
      TransformEventsShape(cfg, keys[..n], ts);
      forall i | 0 <= i < n ensures TransformEvents(cfg, keys, ts)[i] == Transform(TransformKey(cfg, keys[i]), ts) {
        assert TransformEvents(cfg, keys, ts)[i] == TransformEvents(cfg, keys[..n], ts)[i];
      }
    }
  }

  /** The curate loop writes curated data and registers tables, nothing
      else. */
  lemma {:induction false} CurateCalls(k: Kind, cfg: Config, keys: seq<Key>, ts: string)
    ensures Calls(k, CurateEvents(cfg, keys, ts)) == if k == Curate then CurateEvents(cfg, keys, ts) else []
    decreases |keys|
  {
    if keys != [] {
      var n := |keys| - 1;
      var w, r := WriteCurated(EnrichedKey(cfg, keys[n]), ts), RegisterTable(CuratedPath(cfg, ts));
      CurateCalls(k, cfg, keys[..n], ts);
      CallsConcat(k, CurateEvents(cfg, keys[..n], ts), [w, r]);
      CallsPair(k, w, r);
      CallsOne(k, w);
      CallsOne(k, r);
    }
  }

  /** One write and one registration per key, in pairs and in key order. */
  lemma {:induction false} CurateEventsShape(cfg: Config, keys: seq<Key>, ts: string)
    ensures |CurateEvents(cfg, keys, ts)| == 2 * |keys|
    ensures forall i :: 0 <= i < |keys| ==>
              && CurateEvents(cfg, keys, ts)[2 * i] == WriteCurated(EnrichedKey(cfg, keys[i]), ts)
              && CurateEvents(cfg, keys, ts)[2 * i + 1] == RegisterTable(CuratedPath(cfg, ts))
    decreases |keys|
  {
    if keys != [] {
      var n := |keys| - 1;
      CurateEventsShape(cfg, keys[..n], ts);
      forall i | 0 <= i < n
        ensures CurateEvents(cfg, keys, ts)[2 * i] == WriteCurated(EnrichedKey(cfg, keys[i]), ts)
      {
        assert keys[..n][i] == keys[i];
      }
    }
  }

  /** The closing calls are the crawler and the two monitoring calls. */
  lemma FinalCalls(k: Kind, cfg: Config, passed: seq<Key>)
    ensures Calls(k, FinalEvents(cfg, passed)) == if k == Final then FinalEvents(cfg, passed) else []
  {
    var a, b, c := StartCrawler(cfg.crawlerName), MonitorJobs, DetectDrift(passed);
    CallsTriple(k, a, b, c);
    CallsOne(k, a);
    CallsOne(k, b);
    CallsOne(k, c);
  }

  // ---------------------------------------------------------------------
  // What the handler's trace guarantees
  // ---------------------------------------------------------------------

  /** The three uploads open the trace, in the order rest, SOAP, GraphQL,
      and nothing else is uploaded. */
  lemma HandlerUploads(cfg: Config, ts: string, passed: seq<Key>, failed: seq<Key>)
    ensures var h, keys := HandlerEvents(cfg, ts, passed, failed), IngestedKeys(ts);
            var puts := [PutObject(keys[0]), PutObject(keys[1]), PutObject(keys[2])];
            && |h| >= 3 && h[..3] == puts
            && Calls(Upload, h) == puts
  {
    IngestUploads(ts);
    CallsHandler(Upload, cfg, ts, passed, failed);
    IngestCalls(Upload, IngestedKeys(ts));
    RouteCalls(Upload, passed, cfg.stagingPrefix);
    QuarantineCalls(Upload, cfg, failed);
    TransformCalls(Upload, cfg, passed, ts);
    CurateCalls(Upload, cfg, passed, ts);
    FinalCalls(Upload, cfg, passed);
  }

  /** The copies of an invocation are those of the two routing loops. */
  lemma HandlerCopyLoops(cfg: Config, ts: string, passed: seq<Key>, failed: seq<Key>)
    ensures Calls(CopyCall, HandlerEvents(cfg, ts, passed, failed))
         == Calls(CopyCall, RouteEvents(passed, cfg.stagingPrefix)) + Calls(CopyCall, QuarantineEvents(cfg, failed))
  {
    CallsHandler(CopyCall, cfg, ts, passed, failed);
    IngestCalls(CopyCall, IngestedKeys(ts));
    TransformCalls(CopyCall, cfg, passed, ts);
    CurateCalls(CopyCall, cfg, passed, ts);
    FinalCalls(CopyCall, cfg, passed);
    DropEmpty(Calls(CopyCall, IngestEvents(IngestedKeys(ts))),
              Calls(CopyCall, RouteEvents(passed, cfg.stagingPrefix)),
              Calls(CopyCall, QuarantineEvents(cfg, failed)),
              Calls(CopyCall, TransformEvents(cfg, passed, ts)),
              Calls(CopyCall, CurateEvents(cfg, passed, ts)),
              Calls(CopyCall, FinalEvents(cfg, passed)));
  }

  /** Every pass is copied under the staging prefix before any failure is
      copied under the quarantine prefix; each key is copied exactly once,
      in the order of its group. */
  lemma HandlerCopies(cfg: Config, ts: string, passed: seq<Key>, failed: seq<Key>)
    ensures var c := Calls(CopyCall, HandlerEvents(cfg, ts, passed, failed));
            && |c| == |passed| + |failed|
            && (forall i :: 0 <= i < |passed| ==> c[i] == CopyObject(passed[i], cfg.stagingPrefix + passed[i]))
            && (forall j :: 0 <= j < |failed| ==>
                  c[|passed| + j] == CopyObject(failed[j], cfg.quarantinePrefix + failed[j]))
  {
    HandlerCopyLoops(cfg, ts, passed, failed);
    RouteCopies(passed, cfg.stagingPrefix);
    QuarantineCopies(cfg, failed);
    CopiesJoin(Calls(CopyCall, RouteEvents(passed, cfg.stagingPrefix)), Calls(CopyCall, QuarantineEvents(cfg, failed)),
               passed, failed, cfg.stagingPrefix, cfg.quarantinePrefix);
  }

  /** Copies of the passes followed by copies of the failures. */
  lemma CopiesJoin(sc: seq<Event>, qc: seq<Event>, passed: seq<Key>, failed: seq<Key>, sp: string, qp: string)
    requires |sc| == |passed| && forall i :: 0 <= i < |passed| ==> sc[i] == CopyObject(passed[i], sp + passed[i])
    requires |qc| == |failed| && forall j :: 0 <= j < |failed| ==> qc[j] == CopyObject(failed[j], qp + failed[j])
    ensures var c := sc + qc;
            && |c| == |passed| + |failed|
            && (forall i :: 0 <= i < |passed| ==> c[i] == CopyObject(passed[i], sp + passed[i]))
            && (forall j :: 0 <= j < |failed| ==> c[|passed| + j] == CopyObject(failed[j], qp + failed[j]))
  {
  }

  /** Exactly one notification per failure, in the order of the failures,
      each with subject "Data Quarantine" and naming the quarantined key
      without a reason; passes never notify. */
  lemma HandlerNotifications(cfg: Config, ts: string, passed: seq<Key>, failed: seq<Key>)
    ensures var c := Calls(Notify, HandlerEvents(cfg, ts, passed, failed));
            && |c| == |failed|
            && forall i :: 0 <= i < |failed| ==>
                 c[i] == Publish(cfg.snsTopic, "Data Quarantine", cfg.quarantinePrefix + failed[i] + " failed validations")
  {
    CallsHandler(Notify, cfg, ts, passed, failed);
    IngestCalls(Notify, IngestedKeys(ts));
    RouteCalls(Notify, passed, cfg.stagingPrefix);
    QuarantineNotices(cfg, failed);
    TransformCalls(Notify, cfg, passed, ts);
    CurateCalls(Notify, cfg, passed, ts);
    FinalCalls(Notify, cfg, passed);
    assert Calls(Notify, HandlerEvents(cfg, ts, passed, failed)) == Calls(Notify, QuarantineEvents(cfg, failed));
  }

  /** The transformer runs exactly once per pass, in the order of the
      passes, with the key stripped of every occurrence of the staging
      prefix and the invocation's timestamp. */
  lemma HandlerTransforms(cfg: Config, ts: string, passed: seq<Key>, failed: seq<Key>)
    ensures var c := Calls(TransformCall, HandlerEvents(cfg, ts, passed, failed));
            && |c| == |passed|
            && forall i :: 0 <= i < |passed| ==> c[i] == Transform(RemoveAll(passed[i], cfg.stagingPrefix), ts)
  {
    CallsHandler(TransformCall, cfg, ts, passed, failed);
    IngestCalls(TransformCall, IngestedKeys(ts));
    RouteCalls(TransformCall, passed, cfg.stagingPrefix);
    QuarantineCalls(TransformCall, cfg, failed);
    TransformCalls(TransformCall, cfg, passed, ts);
    CurateCalls(TransformCall, cfg, passed, ts);
    FinalCalls(TransformCall, cfg, passed);
    TransformEventsShape(cfg, passed, ts);
    assert Calls(TransformCall, HandlerEvents(cfg, ts, passed, failed)) == TransformEvents(cfg, passed, ts);
  }

  /** The curated-zone writer and the table registration run exactly once
      per pass, in pairs and in the order of the passes: write the enriched
      key, then register the path the writer returned. */
  lemma HandlerCuration(cfg: Config, ts: string, passed: seq<Key>, failed: seq<Key>)
    ensures var c := Calls(Curate, HandlerEvents(cfg, ts, passed, failed));
            && |c| == 2 * |passed|
            && forall i :: 0 <= i < |passed| ==>
                 && c[2 * i] == WriteCurated(cfg.enrichedPrefix + RemoveAll(passed[i], cfg.stagingPrefix), ts)
                 && c[2 * i + 1] == RegisterTable(CuratedPath(cfg, ts))
  {
    CallsHandler(Curate, cfg, ts, passed, failed);
    IngestCalls(Curate, IngestedKeys(ts));
    RouteCalls(Curate, passed, cfg.stagingPrefix);
    QuarantineCalls(Curate, cfg, failed);
    TransformCalls(Curate, cfg, passed, ts);
    CurateCalls(Curate, cfg, passed, ts);
    FinalCalls(Curate, cfg, passed);
    CurateEventsShape(cfg, passed, ts);
    assert Calls(Curate, HandlerEvents(cfg, ts, passed, failed)) == CurateEvents(cfg, passed, ts);
  }

  /** The crawler and the two monitoring calls run exactly once each, after
      all per-key work, and schema-drift detection receives the passes. */
  lemma HandlerFinal(cfg: Config, ts: string, passed: seq<Key>, failed: seq<Key>)
    ensures var h := HandlerEvents(cfg, ts, passed, failed);
            var last := [StartCrawler(cfg.crawlerName), MonitorJobs, DetectDrift(passed)];
            && Calls(Final, h) == last
            && |h| >= 3 && h[|h| - 3..] == last
  {
    CallsHandler(Final, cfg, ts, passed, failed);
    IngestCalls(Final, IngestedKeys(ts));
    RouteCalls(Final, passed, cfg.stagingPrefix);
    QuarantineCalls(Final, cfg, failed);
    TransformCalls(Final, cfg, passed, ts);
    CurateCalls(Final, cfg, passed, ts);
    FinalCalls(Final, cfg, passed);
  }

  // ---------------------------------------------------------------------
  // Where the ingested objects end up
  // ---------------------------------------------------------------------

  /** `k` is where routing sends a pass or a failure. */
  ghost predicate Destination(cfg: Config, passed: seq<Key>, failed: seq<Key>, k: Key)
  {
    || (exists i :: 0 <= i < |passed| && k == cfg.stagingPrefix + passed[i])
    || (exists j :: 0 <= j < |failed| && k == cfg.quarantinePrefix + failed[j])
  }

  /** Routing never meets a missing source, and no key of the batch is left
      at its ingested name afterwards. */
  lemma RouteRemovesBatch(cfg: Config, s1: map<Key, Blob>, keys: seq<Key>, oks: seq<bool>)
    requires |keys| == |oks| && SuffixFree(keys)
    requires forall i :: 0 <= i < |keys| ==> keys[i] in s1
    ensures var r := Relocate(s1, RoutePlan(cfg, Select(keys, oks, true), Select(keys, oks, false)));
            && r.missing == None
            && forall i :: 0 <= i < |keys| ==> keys[i] !in r.store
  {
    var passed, failed := Select(keys, oks, true), Select(keys, oks, false);
    var plan := RoutePlan(cfg, passed, failed);
    RoutePlanReady(cfg, s1, keys, oks);
    RelocateIndependent(s1, plan);
    RoutePlanLength(cfg, passed, failed);
    SelectPartition(keys, oks);
    forall i | 0 <= i < |keys| ensures keys[i] !in Relocate(s1, plan).store {
      var k := keys[i];
      if k in passed {
        var j :| 0 <= j < |passed| && passed[j] == k;
        RoutePlanStaged(cfg, passed, failed, j);
        assert plan[j].src == k;
      } else {
        var j :| 0 <= j < |failed| && failed[j] == k;
        RoutePlanQuarantined(cfg, passed, failed, j);
        assert plan[|passed| + j].src == k;
      }
    }
  }

  /** Each pass sits under the staging prefix, holding what was ingested
      under its own name. With an empty prefix the copy lands on the source
      and the delete loses the object, so the promise is for a non-empty
      prefix only. */
  lemma PassesPlaced(cfg: Config, s1: map<Key, Blob>, passed: seq<Key>, failed: seq<Key>)
    requires PlanReady(s1, RoutePlan(cfg, passed, failed))
    requires cfg.stagingPrefix != []
    ensures var r := Relocate(s1, RoutePlan(cfg, passed, failed)).store;
            forall i :: 0 <= i < |passed| ==>
              var d := cfg.stagingPrefix + passed[i];
              passed[i] in s1 && d in r && r[d] == s1[passed[i]]
  {
    var plan := RoutePlan(cfg, passed, failed);
    RelocateIndependent(s1, plan);
    RoutePlanLength(cfg, passed, failed);
    forall i | 0 <= i < |passed|
      ensures var d := cfg.stagingPrefix + passed[i];
              passed[i] in s1 && d in Relocate(s1, plan).store && Relocate(s1, plan).store[d] == s1[passed[i]]
    {
      RoutePlanStaged(cfg, passed, failed, i);
    }
  }

  /** Each failure sits under the quarantine prefix, holding what was
      ingested under its own name (for a non-empty prefix, as above). */
  lemma FailuresPlaced(cfg: Config, s1: map<Key, Blob>, passed: seq<Key>, failed: seq<Key>)
    requires PlanReady(s1, RoutePlan(cfg, passed, failed))
    requires cfg.quarantinePrefix != []
    ensures var r := Relocate(s1, RoutePlan(cfg, passed, failed)).store;
            forall j :: 0 <= j < |failed| ==>
              var d := cfg.quarantinePrefix + failed[j];
              failed[j] in s1 && d in r && r[d] == s1[failed[j]]
  {
    var plan := RoutePlan(cfg, passed, failed);
    RelocateIndependent(s1, plan);
    forall j | 0 <= j < |failed|
      ensures var d := cfg.quarantinePrefix + failed[j];
              failed[j] in s1 && d in Relocate(s1, plan).store && Relocate(s1, plan).store[d] == s1[failed[j]]
    {
      RoutePlanQuarantined(cfg, passed, failed, j);
    }
  }

  /** A key that is neither a pass, a failure nor one of their destinations
      is exactly as ingestion left it. */
  lemma RouteLeavesOthers(cfg: Config, s1: map<Key, Blob>, passed: seq<Key>, failed: seq<Key>)
    requires PlanReady(s1, RoutePlan(cfg, passed, failed))
    ensures var r := Relocate(s1, RoutePlan(cfg, passed, failed)).store;
            forall k :: k !in passed && k !in failed && !Destination(cfg, passed, failed, k) ==>
              (k in r <==> k in s1) && (k in s1 ==> r[k] == s1[k])
  {
    var plan := RoutePlan(cfg, passed, failed);
    RelocateIndependent(s1, plan);
    RoutePlanLength(cfg, passed, failed);
    forall k | k !in passed && k !in failed && !Destination(cfg, passed, failed, k) ensures !Touched(plan, k) {
      forall i | 0 <= i < |plan| ensures plan[i].src != k && plan[i].dst != k {
        if i < |passed| {
          RoutePlanStaged(cfg, passed, failed, i);
        } else {
          RoutePlanQuarantined(cfg, passed, failed, i - |passed|);
        }
      }
    }
  }

  /** The transformer is handed the pre-route key with the staging prefix
      removed. When the prefix is non-empty and does not occur in that key,
      the result is the ingested key itself, whose object routing has
      already deleted; removing the prefix from the staged key instead gives
      the same string. */
  lemma TransformReadsRoutedKey(cfg: Config, s1: map<Key, Blob>, keys: seq<Key>, oks: seq<bool>, i: nat)
    requires |keys| == |oks| && SuffixFree(keys)
    requires forall j :: 0 <= j < |keys| ==> keys[j] in s1
    requires i < |Select(keys, oks, true)|
    requires cfg.stagingPrefix != [] && !Occurs(cfg.stagingPrefix, Select(keys, oks, true)[i])
    ensures var k := Select(keys, oks, true)[i];
            && TransformKey(cfg, k) == k
            && TransformKey(cfg, cfg.stagingPrefix + k) == k
            && k !in Relocate(s1, RoutePlan(cfg, Select(keys, oks, true), Select(keys, oks, false))).store
  {
    var k := Select(keys, oks, true)[i];
    RemoveAllUnchanged(k, cfg.stagingPrefix);
    RemoveAllPrefixed(cfg.stagingPrefix, k);
    RouteRemovesBatch(cfg, s1, keys, oks);
    SelectPartition(keys, oks);
    assert k in keys;
  }
}
