/** The orchestration Lambda of the mini pipeline (handler.py). One call
    writes three API snapshots into the raw bucket, runs the quality gate on
    each, moves passes under the staging prefix and failures under the
    quarantine prefix (one notification per quarantined object), hands every
    pass to the transformer and to the curated-zone writer, and ends with one
    crawler run and the two monitoring calls. The raw bucket is a map from
    key to content; every call to an outside service is an event in a trace. */
module Orchestration {
  import opened Wrappers
  import opened Strings
  import opened BlobStore
  import opened QualityGate

  /** The handler's environment: bucket, key prefixes, topic and crawler. */
  datatype Config = Config(
    rawBucket: string,
    stagingPrefix: string,
    quarantinePrefix: string,
    enrichedPrefix: string,
    curatedPrefix: string,
    snsTopic: string,
    crawlerName: string)

  /** Calls the handler makes on other services, in the order it makes them. */
  datatype Event =
    | PutObject(key: Key)
    | CopyObject(src: Key, dst: Key)
    | DeleteObject(key: Key)
    | Publish(topic: string, subject: string, message: string)
    | Transform(key: Key, timestamp: string)
    | WriteCurated(enrichedKey: Key, timestamp: string)
    | RegisterTable(path: string)
    | StartCrawler(name: string)
    | MonitorJobs
    | DetectDrift(keys: seq<Key>)

  predicate IsPublish(e: Event) { e.Publish? }
  predicate IsCopy(e: Event) { e.CopyObject? }
  predicate IsTransform(e: Event) { e.Transform? }

  // ---------------------------------------------------------------------
  // Keys
  // ---------------------------------------------------------------------

  /** The three snapshot keys, in the order they are written. */
  function IngestedKeys(ts: string): seq<Key>
  {
    ["api/rest/" + ts + ".json", "api/soap/" + ts + ".json", "api/graphql/" + ts + ".json"]
  }

  /** Distinct keys none of which ends another: no prefixing of one of them
      can produce another, so routing never overwrites a batch member. */
  ghost predicate SuffixFree(keys: seq<Key>)
  {
    && Distinct(keys)
    && forall x, y :: x in keys && y in keys && x != y ==> !IsSuffix(x, y)
  }

  /** The three snapshot keys are distinct and none ends another, whatever
      the timestamp. */
  lemma IngestedKeysSuffixFree(ts: string)
    ensures SuffixFree(IngestedKeys(ts))
  {
    var keys := IngestedKeys(ts);
    var r, s, g := keys[0], keys[1], keys[2];
    assert r[4] == 'r' && s[4] == 's' && g[4] == 'g';
    assert |r| == |s| && |g| == |r| + 3;
    assert g[3] == '/' && r[0] == 'a' && s[0] == 'a';
    assert g[|g| - |r|..][0] == g[3];
    assert g[|g| - |s|..][0] == g[3];
    forall x, y | x in keys && y in keys && x != y ensures !IsSuffix(x, y) {
      if |x| == |y| {
        assert y[|y| - |x|..] == y;
      }
    }
  }

  /** Python's `s.replace(pat, '')`: remove every non-overlapping occurrence
      of `pat`, scanning left to right. An empty pattern changes nothing. */
  function RemoveAll(s: string, pat: string): (r: string)
    decreases |s|
  {
    if pat == [] || |s| < |pat| then s
    else if s[..|pat|] == pat then RemoveAll(s[|pat|..], pat)
    else [s[0]] + RemoveAll(s[1..], pat)
  }

  /** `pat` occurs somewhere in `s`. */
  ghost predicate Occurs(pat: string, s: string)
  {
    exists i :: OccursAt(pat, s, i)
  }

  ghost predicate OccursAt(pat: string, s: string, i: int)
  {
    0 <= i && i + |pat| <= |s| && s[i..i + |pat|] == pat
  }

  /** Removal leaves the string unchanged exactly when there is nothing to
      remove; otherwise it strictly shortens it. */
  lemma {:induction false} RemoveAllUnchanged(s: string, pat: string)
    ensures |RemoveAll(s, pat)| <= |s|
    ensures RemoveAll(s, pat) != s ==> |RemoveAll(s, pat)| < |s|
    ensures RemoveAll(s, pat) == s <==> pat == [] || !Occurs(pat, s)
    decreases |s|
  {
    if pat == [] || |s| < |pat| {
      assert pat != [] ==> forall i :: !OccursAt(pat, s, i);
    } else if s[..|pat|] == pat {
      RemoveAllUnchanged(s[|pat|..], pat);
      assert OccursAt(pat, s, 0);
    } else {
      RemoveAllUnchanged(s[1..], pat);
      var t := s[1..];
      forall i | OccursAt(pat, t, i) ensures OccursAt(pat, s, i + 1) {
        assert s[i + 1..i + 1 + |pat|] == t[i..i + |pat|];
      }
      forall i | OccursAt(pat, s, i) ensures OccursAt(pat, t, i - 1) {
        assert i != 0;
        assert t[i - 1..i - 1 + |pat|] == s[i..i + |pat|];
      }
      assert RemoveAll(s, pat) == [s[0]] + RemoveAll(t, pat);
      assert s == [s[0]] + t;
    }
  }

  /** Removing the prefix from the staged key gives what removing it from the
      pre-route key gives: the handler's use of the pre-route key (whose
      object `route` has already deleted) yields the same string. */
  lemma RemoveAllPrefixed(pat: string, k: string)
    ensures RemoveAll(pat + k, pat) == RemoveAll(k, pat)
  {
    if pat != [] {
      assert (pat + k)[..|pat|] == pat;
      assert (pat + k)[|pat|..] == k;
    }
  }

  /** The key handed to the transformer for a passed key. */
  function TransformKey(cfg: Config, k: Key): Key
  {
    RemoveAll(k, cfg.stagingPrefix)
  }

  /** The enriched key handed to the curated-zone writer. */
  function EnrichedKey(cfg: Config, k: Key): Key
  {
    cfg.enrichedPrefix + RemoveAll(k, cfg.stagingPrefix)
  }

  /** Where the curated-zone writer says it wrote: a path that depends only
      on the batch timestamp (curated_zone.py). */
  function CuratedPath(cfg: Config, ts: string): string
  {
    "s3://" + cfg.rawBucket + "/" + cfg.curatedPrefix + ts + "/"
  }

  /** The quarantine notification's text: destination key, no reason. */
  function QuarantineMessage(cfg: Config, k: Key): string
  {
    cfg.quarantinePrefix + k + " failed validations"
  }

  // ---------------------------------------------------------------------
  // The trace, segment by segment
  // ---------------------------------------------------------------------

  function IngestEvents(keys: seq<Key>): seq<Event>
    decreases |keys|
  {
    if keys == [] then [] else IngestEvents(keys[..|keys| - 1]) + [PutObject(keys[|keys| - 1])]
  }

  /** Moves of `keys` under `prefix`, in order. */
  function RouteMoves(keys: seq<Key>, prefix: string): (moves: seq<Move<Key>>)
    ensures |moves| == |keys|
    ensures forall i :: 0 <= i < |keys| ==> moves[i] == Move(keys[i], prefix + keys[i])
    decreases |keys|
  {
    if keys == [] then []
    else RouteMoves(keys[..|keys| - 1], prefix) + [Move(keys[|keys| - 1], prefix + keys[|keys| - 1])]
  }

  /** Passes to staging first, then failures to quarantine. */
  function RoutePlan(cfg: Config, passed: seq<Key>, failed: seq<Key>): seq<Move<Key>>
  {
    RouteMoves(passed, cfg.stagingPrefix) + RouteMoves(failed, cfg.quarantinePrefix)
  }

  function RouteEvents(keys: seq<Key>, prefix: string): seq<Event>
    decreases |keys|
  {
    if keys == [] then []
    else
      var k := keys[|keys| - 1];
      RouteEvents(keys[..|keys| - 1], prefix) + [CopyObject(k, prefix + k), DeleteObject(k)]
  }

  function QuarantineEvents(cfg: Config, keys: seq<Key>): seq<Event>
    decreases |keys|
  {
    if keys == [] then []
    else
      var k := keys[|keys| - 1];
      QuarantineEvents(cfg, keys[..|keys| - 1])
        + [CopyObject(k, cfg.quarantinePrefix + k), DeleteObject(k),
           Publish(cfg.snsTopic, "Data Quarantine", QuarantineMessage(cfg, k))]
  }

  function TransformEvents(cfg: Config, keys: seq<Key>, ts: string): seq<Event>
    decreases |keys|
  {
    if keys == [] then []
    else TransformEvents(cfg, keys[..|keys| - 1], ts) + [Transform(TransformKey(cfg, keys[|keys| - 1]), ts)]
  }

  function CurateEvents(cfg: Config, keys: seq<Key>, ts: string): seq<Event>
    decreases |keys|
  {
    if keys == [] then []
    else
      CurateEvents(cfg, keys[..|keys| - 1], ts)
        + [WriteCurated(EnrichedKey(cfg, keys[|keys| - 1]), ts), RegisterTable(CuratedPath(cfg, ts))]
  }

  function FinalEvents(cfg: Config, passed: seq<Key>): seq<Event>
  {
    [StartCrawler(cfg.crawlerName), MonitorJobs, DetectDrift(passed)]
  }

  /** The whole trace of one invocation: the three uploads, the staging
      moves, the quarantine moves with their notifications, the transformer
      and curated-zone calls for each pass, then crawler and monitoring. */
  function HandlerEvents(cfg: Config, ts: string, passed: seq<Key>, failed: seq<Key>): seq<Event>
  {
    IngestEvents(IngestedKeys(ts))
      + RouteEvents(passed, cfg.stagingPrefix)
      + QuarantineEvents(cfg, failed)
      + TransformEvents(cfg, passed, ts)
      + CurateEvents(cfg, passed, ts)
      + FinalEvents(cfg, passed)
  }

  /** Appending the segments one at a time appends the whole trace. */
  lemma AppendSegments(t: seq<Event>, a: seq<Event>, b: seq<Event>, c: seq<Event>, d: seq<Event>, e: seq<Event>, f: seq<Event>)
    ensures t + a + b + c + d + e + f == t + (a + b + c + d + e + f)
  {
  }

  // One more key adds its own events at the end of each segment.

  lemma RouteEventsStep(keys: seq<Key>, prefix: string, i: nat)
    requires i < |keys|
    ensures RouteEvents(keys[..i + 1], prefix)
         == RouteEvents(keys[..i], prefix) + [CopyObject(keys[i], prefix + keys[i]), DeleteObject(keys[i])]
  {
    assert keys[..i + 1][..i] == keys[..i];
  }

  lemma QuarantineEventsStep(cfg: Config, keys: seq<Key>, i: nat)
    requires i < |keys|
    ensures QuarantineEvents(cfg, keys[..i + 1])
         == QuarantineEvents(cfg, keys[..i])
          + [CopyObject(keys[i], cfg.quarantinePrefix + keys[i]), DeleteObject(keys[i]),
             Publish(cfg.snsTopic, "Data Quarantine", QuarantineMessage(cfg, keys[i]))]
  {
    assert keys[..i + 1][..i] == keys[..i];
  }

  lemma TransformEventsStep(cfg: Config, keys: seq<Key>, ts: string, i: nat)
    requires i < |keys|
    ensures TransformEvents(cfg, keys[..i + 1], ts)
         == TransformEvents(cfg, keys[..i], ts) + [Transform(TransformKey(cfg, keys[i]), ts)]
  {
    assert keys[..i + 1][..i] == keys[..i];
  }

  lemma CurateEventsStep(cfg: Config, keys: seq<Key>, ts: string, i: nat)
    requires i < |keys|
    ensures CurateEvents(cfg, keys[..i + 1], ts)
         == CurateEvents(cfg, keys[..i], ts) + [WriteCurated(EnrichedKey(cfg, keys[i]), ts), RegisterTable(CuratedPath(cfg, ts))]
  {
    assert keys[..i + 1][..i] == keys[..i];
  }

  /** The bucket before each of `count` moves of `plan` starting at `from`,
      and after the last: entry `j` is what the first `from + j` moves made
      of `s1`. */
  ghost function Stages(s1: map<Key, Blob>, plan: seq<Move<Key>>, from: nat, count: nat): (st: seq<map<Key, Blob>>)
    requires from + count <= |plan|
    ensures |st| == count + 1
  {
    seq(count + 1, j requires 0 <= j <= count => Relocate(s1, plan[..from + j]).store)
  }

  /** When the moves of `plan` are independent and their sources present,
      each stage holds the next source and the following stage is that one
      move applied to it. */
  lemma StagesMove(s1: map<Key, Blob>, plan: seq<Move<Key>>, from: nat, count: nat)
    requires Independent(plan)
    requires forall i :: 0 <= i < |plan| ==> plan[i].src in s1
    requires from + count <= |plan|
    ensures var st := Stages(s1, plan, from, count);
            forall j :: 0 <= j < count ==>
              plan[from + j].src in st[j] && st[j + 1] == Moved(st[j], plan[from + j].src, plan[from + j].dst)
  {
    var st := Stages(s1, plan, from, count);
    forall j | 0 <= j < count
      ensures plan[from + j].src in st[j] && st[j + 1] == Moved(st[j], plan[from + j].src, plan[from + j].dst)
    {
      SourceBeforeMove(s1, plan, from + j);
      RelocateStep(s1, plan, from + j);
    }
  }

  /** The raw bucket after the three uploads. */
  function AfterIngest(s0: map<Key, Blob>, ts: string, rest: Blob, soap: Blob, graphql: Blob): map<Key, Blob>
  {
    var keys := IngestedKeys(ts);
    s0[keys[0] := rest][keys[1] := soap][keys[2] := graphql]
  }

  // ---------------------------------------------------------------------
  // The handler
  // ---------------------------------------------------------------------

  class Orchestrator {
    const cfg: Config
    /** The raw bucket. */
    var store: map<Key, Blob>
    /** Every outside call made so far. */
    var trace: seq<Event>

    constructor (cfg: Config, store: map<Key, Blob>)
      ensures this.cfg == cfg && this.store == store && trace == []
    {
      this.cfg := cfg;
      this.store := store;
      trace := [];
    }

    /** Write one snapshot. */
    method Upload(key: Key, body: Blob)
      modifies this
      ensures store == old(store)[key := body]
      ensures trace == old(trace) + [PutObject(key)]
    {
      store := store[key := body];
      trace := trace + [PutObject(key)];
    }

    /** The three snapshot uploads. */
    method IngestAll(timestamp: string, rest: Blob, soap: Blob, graphql: Blob) returns (ingested: seq<Key>)
      modifies this
      ensures ingested == IngestedKeys(timestamp)
      ensures store == AfterIngest(old(store), timestamp, rest, soap, graphql)
      ensures trace == old(trace) + IngestEvents(ingested)
    {
      ingested := [];
      var keyRest := "api/rest/" + timestamp + ".json";
      Upload(keyRest, rest);
      ingested := ingested + [keyRest];
      var keySoap := "api/soap/" + timestamp + ".json";
      Upload(keySoap, soap);
      ingested := ingested + [keySoap];
      var keyGql := "api/graphql/" + timestamp + ".json";
      Upload(keyGql, graphql);
      ingested := ingested + [keyGql];
      assert IngestEvents(ingested[..1]) == [PutObject(keyRest)];
      assert IngestEvents(ingested[..2]) == [PutObject(keyRest), PutObject(keySoap)];
    }

    /** Gate every key in order, splitting them into passes and failures.
        Reads the bucket and changes nothing. */
    method ValidateAll(check: Checker, keys: seq<Key>) returns (passed: seq<Key>, failed: seq<Key>)
      requires forall i :: 0 <= i < |keys| ==> keys[i] in store
      ensures passed == Select(keys, Verdicts(check, keys, store), true)
      ensures failed == Select(keys, Verdicts(check, keys, store), false)
    {
      ghost var oks := Verdicts(check, keys, store);
      passed, failed := [], [];
      var i := 0;
      while i < |keys|
        invariant 0 <= i <= |keys|
        invariant passed == Select(keys[..i], oks[..i], true)
        invariant failed == Select(keys[..i], oks[..i], false)
      {
        var key := keys[i];
        SelectStep(keys, oks, true, i);
        SelectStep(keys, oks, false, i);
        var ok, _ := Gate(check, key, store[key]);
        if ok {
          passed := passed + [key];
        } else {
          failed := failed + [key];
        }
        i := i + 1;
      }
      assert keys[..i] == keys && oks[..i] == oks;
    }

    /** Copy `src` to `prefix + src`, then delete `src`. A missing source
        makes the copy fail before anything changes. */
    method Route(src: Key, prefix: string) returns (dest: Key, ok: bool)
      modifies this
      ensures dest == prefix + src
      ensures ok <==> src in old(store)
      ensures ok ==> store == Moved(old(store), src, dest)
      ensures ok ==> trace == old(trace) + [CopyObject(src, dest), DeleteObject(src)]
      ensures !ok ==> store == old(store) && trace == old(trace) + [CopyObject(src, dest)]
    {
      dest := prefix + src;
      trace := trace + [CopyObject(src, dest)];
      ok := src in store;
      if ok {
        store := store[dest := store[src]];
        trace := trace + [DeleteObject(src)];
        store := store - {src};
      }
    }

    /** Move each passed key under the staging prefix. `states` is the
        bucket before each move and after the last: each key is present
        when its turn comes, and each move takes one state to the next. */
    method StageAll(keys: seq<Key>, ghost states: seq<map<Key, Blob>>)
      requires |states| == |keys| + 1 && states[0] == store
      requires forall j :: 0 <= j < |keys| ==>
        keys[j] in states[j] && states[j + 1] == Moved(states[j], keys[j], cfg.stagingPrefix + keys[j])
      modifies this
      ensures store == states[|keys|]
      ensures trace == old(trace) + RouteEvents(keys, cfg.stagingPrefix)
    {
      var j := 0;
      while j < |keys|
        invariant 0 <= j <= |keys|
        invariant store == states[j]
        invariant trace == old(trace) + RouteEvents(keys[..j], cfg.stagingPrefix)
      {
        RouteEventsStep(keys, cfg.stagingPrefix, j);
        var _, _ := Route(keys[j], cfg.stagingPrefix);
        j := j + 1;
      }
      assert keys[..j] == keys;
    }

    /** Move each failed key under the quarantine prefix and publish one
        notification naming its new key. `states` as in StageAll. */
    method QuarantineAll(keys: seq<Key>, ghost states: seq<map<Key, Blob>>)
      requires |states| == |keys| + 1 && states[0] == store
      requires forall j :: 0 <= j < |keys| ==>
        keys[j] in states[j] && states[j + 1] == Moved(states[j], keys[j], cfg.quarantinePrefix + keys[j])
      modifies this
      ensures store == states[|keys|]
      ensures trace == old(trace) + QuarantineEvents(cfg, keys)
    {
      var j := 0;
      while j < |keys|
        invariant 0 <= j <= |keys|
        invariant store == states[j]
        invariant trace == old(trace) + QuarantineEvents(cfg, keys[..j])
      {
        QuarantineEventsStep(cfg, keys, j);
        var newKey, _ := Route(keys[j], cfg.quarantinePrefix);
        trace := trace + [Publish(cfg.snsTopic, "Data Quarantine", newKey + " failed validations")];
        j := j + 1;
      }
      assert keys[..j] == keys;
    }

    /** Both routing loops: passes to staging, then failures to quarantine
        with a notification each. `keys` and `oks` are the batch and its
        verdicts, from which the split was made. */
    method RouteBatch(ghost keys: seq<Key>, ghost oks: seq<bool>, passed: seq<Key>, failed: seq<Key>)
      requires |keys| == |oks| && SuffixFree(keys)
      requires forall i :: 0 <= i < |keys| ==> keys[i] in store
      requires passed == Select(keys, oks, true) && failed == Select(keys, oks, false)
      modifies this
      ensures Relocate(old(store), RoutePlan(cfg, passed, failed)) == Relocation(store, None)
      ensures trace == old(trace) + RouteEvents(passed, cfg.stagingPrefix) + QuarantineEvents(cfg, failed)
    {
      ghost var s1 := store;
      ghost var plan := RoutePlan(cfg, passed, failed);
      RoutePlanReady(cfg, s1, keys, oks);
      StagingStages(cfg, s1, passed, failed);
      StageAll(passed, Stages(s1, plan, 0, |passed|));
      QuarantineStages(cfg, s1, passed, failed);
      QuarantineAll(failed, Stages(s1, plan, |passed|, |failed|));
      RoutingEnd(cfg, s1, passed, failed);
    }

    /** Hand each passed key, with the staging prefix removed, to the
        transformer. */
    method TransformAll(passed: seq<Key>, timestamp: string)
      modifies this`trace
      ensures trace == old(trace) + TransformEvents(cfg, passed, timestamp)
    {
      var j := 0;
      while j < |passed|
        invariant 0 <= j <= |passed|
        invariant trace == old(trace) + TransformEvents(cfg, passed[..j], timestamp)
      {
        var rel := RemoveAll(passed[j], cfg.stagingPrefix);
        trace := trace + [Transform(rel, timestamp)];
        TransformEventsStep(cfg, passed, timestamp, j);
        j := j + 1;
      }
      assert passed[..j] == passed;
    }

    /** Write each passed key's enriched data to the curated zone and
        register the written path as a table. */
    method CurateAll(passed: seq<Key>, timestamp: string)
      modifies this`trace
      ensures trace == old(trace) + CurateEvents(cfg, passed, timestamp)
    {
      var j := 0;
      while j < |passed|
        invariant 0 <= j <= |passed|
        invariant trace == old(trace) + CurateEvents(cfg, passed[..j], timestamp)
      {
        var enrichedKey := cfg.enrichedPrefix + RemoveAll(passed[j], cfg.stagingPrefix);
        trace := trace + [WriteCurated(enrichedKey, timestamp)];
        var parquetPath := CuratedPath(cfg, timestamp);
        trace := trace + [RegisterTable(parquetPath)];
        CurateEventsStep(cfg, passed, timestamp, j);
        j := j + 1;
      }
      assert passed[..j] == passed;
    }

    /** One invocation: ingest, validate, route, notify, transform, curate,
        catalog, monitor. `rest`, `soap` and `graphql` are what the three
        API fetches returned; `check` answers the four validators. */
    method LambdaHandler(timestamp: string, rest: Blob, soap: Blob, graphql: Blob, check: Checker)
      returns (status: string, passed: seq<Key>, failed: seq<Key>)
      modifies this
      ensures status == "done"
      ensures var keys := IngestedKeys(timestamp);
              var s1 := AfterIngest(old(store), timestamp, rest, soap, graphql);
              var oks := Verdicts(check, keys, s1);
              && passed == Select(keys, oks, true)
              && failed == Select(keys, oks, false)
              && Relocate(s1, RoutePlan(cfg, passed, failed)) == Relocation(store, None)
      ensures trace == old(trace) + HandlerEvents(cfg, timestamp, passed, failed)
    {
      ghost var t0 := trace;
      var ingested := IngestAll(timestamp, rest, soap, graphql);
      passed, failed := ValidateAll(check, ingested);
      IngestedKeysSuffixFree(timestamp);
      RouteBatch(ingested, Verdicts(check, ingested, store), passed, failed);
      TransformAll(passed, timestamp);
      CurateAll(passed, timestamp);
      trace := trace + FinalEvents(cfg, passed);
      AppendSegments(t0, IngestEvents(ingested), RouteEvents(passed, cfg.stagingPrefix), QuarantineEvents(cfg, failed),
                     TransformEvents(cfg, passed, timestamp), CurateEvents(cfg, passed, timestamp), FinalEvents(cfg, passed));
      status := "done";
    }
  }

  // ---------------------------------------------------------------------
  // What the handler guarantees
  // ---------------------------------------------------------------------

  /** Moves whose sources are distinct members of a suffix-free set and
      whose destinations end with their own sources never collide. */
  lemma SuffixMovesIndependent(plan: seq<Move<Key>>, keys: seq<Key>)
    requires SuffixFree(keys)
    requires Distinct(Sources(plan))
    requires forall i :: 0 <= i < |plan| ==> plan[i].src in keys && IsSuffix(plan[i].src, plan[i].dst)
    ensures Independent(plan)
  {
    forall i, j | 0 <= i < |plan| && 0 <= j < |plan| && i != j
      ensures plan[i].src != plan[j].src && plan[i].dst != plan[j].dst && plan[i].src != plan[j].dst
    {
      var x, y := plan[i].src, plan[j].src;
      assert Sources(plan)[i] == x && Sources(plan)[j] == y;
      assert x != y;
      if plan[i].dst == plan[j].dst {
        SuffixesNest(x, y, plan[i].dst);
      }
      assert IsSuffix(y, plan[j].dst);
    }
  }

  /** The sources of a list of moves, in order. */
  function Sources(plan: seq<Move<Key>>): (srcs: seq<Key>)
    ensures |srcs| == |plan|
    ensures forall i :: 0 <= i < |plan| ==> srcs[i] == plan[i].src
  {
    seq(|plan|, i requires 0 <= i < |plan| => plan[i].src)
  }

  /** The route plan's moves never collide: every source is a distinct batch
      key, and each destination ends with its own source. */
  lemma PlanIndependent(keys: seq<Key>, oks: seq<bool>, cfg: Config)
    requires |keys| == |oks| && SuffixFree(keys)
    ensures var passed, failed := Select(keys, oks, true), Select(keys, oks, false);
            && Independent(RoutePlan(cfg, passed, failed))
            && forall i :: 0 <= i < |RoutePlan(cfg, passed, failed)| ==> RoutePlan(cfg, passed, failed)[i].src in keys
  {
    var passed, failed := Select(keys, oks, true), Select(keys, oks, false);
    var all := passed + failed;
    var plan := RoutePlan(cfg, passed, failed);
    SelectDistinct(keys, oks);
    SelectPartition(keys, oks);
    forall i | 0 <= i < |plan|
      ensures plan[i].src == all[i] && IsSuffix(all[i], plan[i].dst) && all[i] in keys
    {
      if i < |passed| {
        SuffixOfPrefixed(cfg.stagingPrefix, passed[i]);
      } else {
        SuffixOfPrefixed(cfg.quarantinePrefix, failed[i - |passed|]);
      }
      assert all[i] in passed || all[i] in failed;
    }
    assert Sources(plan) == all;
    SuffixMovesIndependent(plan, keys);
  }

  /** A run of stages starts where the run before it ended. */
  lemma StagesMeet(s1: map<Key, Blob>, plan: seq<Move<Key>>, from: nat, count: nat)
    requires from + count <= |plan|
    ensures Stages(s1, plan, from, count)[0] == Stages(s1, plan, 0, from)[from]
  {
    assert plan[..from + 0] == plan[..0 + from];
  }

  /** The last stage of a run that ends the plan is the whole plan's
      outcome, with no failed copy. */
  lemma StagesFinal(s1: map<Key, Blob>, plan: seq<Move<Key>>, from: nat, count: nat)
    requires Independent(plan)
    requires forall i :: 0 <= i < |plan| ==> plan[i].src in s1
    requires from + count == |plan|
    ensures Relocate(s1, plan) == Relocation(Stages(s1, plan, from, count)[count], None)
  {
    assert plan[..from + count] == plan;
    RelocateComplete(s1, plan);
  }

  /** The moves of `keys` under `prefix` sit at `from` in `plan`, so the
      stages there move each key in turn. */
  lemma KeyStages(s1: map<Key, Blob>, plan: seq<Move<Key>>, from: nat, keys: seq<Key>, prefix: string)
    requires Independent(plan)
    requires forall i :: 0 <= i < |plan| ==> plan[i].src in s1
    requires from + |keys| <= |plan|
    requires forall j :: 0 <= j < |keys| ==> plan[from + j] == Move(keys[j], prefix + keys[j])
    ensures var st := Stages(s1, plan, from, |keys|);
            forall j :: 0 <= j < |keys| ==> keys[j] in st[j] && st[j + 1] == Moved(st[j], keys[j], prefix + keys[j])
  {
    StagesMove(s1, plan, from, |keys|);
  }

  /** The route plan holds one move per pass and one per failure. */
  lemma RoutePlanLength(cfg: Config, passed: seq<Key>, failed: seq<Key>)
    ensures |RoutePlan(cfg, passed, failed)| == |passed| + |failed|
  {
  }

  /** The `j`-th move of the route plan takes the `j`-th pass to staging. */
  lemma RoutePlanStaged(cfg: Config, passed: seq<Key>, failed: seq<Key>, j: nat)
    requires j < |passed|
    ensures RoutePlan(cfg, passed, failed)[j] == Move(passed[j], cfg.stagingPrefix + passed[j])
  {
  }

  /** After the passes, the `j`-th move takes the `j`-th failure to quarantine. */
  lemma RoutePlanQuarantined(cfg: Config, passed: seq<Key>, failed: seq<Key>, j: nat)
    requires j < |failed|
    ensures |passed| + j < |RoutePlan(cfg, passed, failed)|
    ensures RoutePlan(cfg, passed, failed)[|passed| + j] == Move(failed[j], cfg.quarantinePrefix + failed[j])
  {
    var staged, quarantined := RouteMoves(passed, cfg.stagingPrefix), RouteMoves(failed, cfg.quarantinePrefix);
    assert (staged + quarantined)[|passed| + j] == quarantined[j];
  }

  /** The route plan of a batch is ready to run on the bucket that holds
      the batch: its moves never collide and every source is present. */
  ghost predicate PlanReady(s1: map<Key, Blob>, plan: seq<Move<Key>>)
  {
    && Independent(plan)
    && forall i :: 0 <= i < |plan| ==> plan[i].src in s1
  }

  lemma RoutePlanReady(cfg: Config, s1: map<Key, Blob>, keys: seq<Key>, oks: seq<bool>)
    requires |keys| == |oks| && SuffixFree(keys)
    requires forall i :: 0 <= i < |keys| ==> keys[i] in s1
    ensures PlanReady(s1, RoutePlan(cfg, Select(keys, oks, true), Select(keys, oks, false)))
  {
    var plan := RoutePlan(cfg, Select(keys, oks, true), Select(keys, oks, false));
    PlanIndependent(keys, oks, cfg);
    forall i | 0 <= i < |plan| ensures plan[i].src in s1 {
      assert plan[i].src in keys;
    }
  }

  /** The bucket states the staging loop passes through: it starts from the
      bucket after ingestion and every passed key is present when its turn
      comes. */
  lemma StagingStages(cfg: Config, s1: map<Key, Blob>, passed: seq<Key>, failed: seq<Key>)
    requires PlanReady(s1, RoutePlan(cfg, passed, failed))
    ensures var st := Stages(s1, RoutePlan(cfg, passed, failed), 0, |passed|);
            && st[0] == s1
            && forall j :: 0 <= j < |passed| ==>
                 passed[j] in st[j] && st[j + 1] == Moved(st[j], passed[j], cfg.stagingPrefix + passed[j])
  {
    var plan := RoutePlan(cfg, passed, failed);
    RoutePlanLength(cfg, passed, failed);
    forall j | 0 <= j < |passed| ensures plan[0 + j] == Move(passed[j], cfg.stagingPrefix + passed[j]) {
      RoutePlanStaged(cfg, passed, failed, j);
    }
    KeyStages(s1, plan, 0, passed, cfg.stagingPrefix);
    assert plan[..0] == [];
  }

  /** The bucket states the quarantine loop passes through: it starts where
      the staging loop ended and every failed key is present when its turn
      comes. */
  lemma QuarantineStages(cfg: Config, s1: map<Key, Blob>, passed: seq<Key>, failed: seq<Key>)
    requires PlanReady(s1, RoutePlan(cfg, passed, failed))
    ensures var plan := RoutePlan(cfg, passed, failed);
            var sq := Stages(s1, plan, |passed|, |failed|);
            && sq[0] == Stages(s1, plan, 0, |passed|)[|passed|]
            && forall j :: 0 <= j < |failed| ==>
                 failed[j] in sq[j] && sq[j + 1] == Moved(sq[j], failed[j], cfg.quarantinePrefix + failed[j])
  {
    var plan := RoutePlan(cfg, passed, failed);
    RoutePlanLength(cfg, passed, failed);
    forall j | 0 <= j < |failed| ensures plan[|passed| + j] == Move(failed[j], cfg.quarantinePrefix + failed[j]) {
      RoutePlanQuarantined(cfg, passed, failed, j);
    }
    KeyStages(s1, plan, |passed|, failed, cfg.quarantinePrefix);
    StagesMeet(s1, plan, |passed|, |failed|);
  }

  /** Where the quarantine loop ends is the whole plan applied without a
      failed copy. */
  lemma RoutingEnd(cfg: Config, s1: map<Key, Blob>, passed: seq<Key>, failed: seq<Key>)
    requires PlanReady(s1, RoutePlan(cfg, passed, failed))
    ensures var plan := RoutePlan(cfg, passed, failed);
            Relocate(s1, plan) == Relocation(Stages(s1, plan, |passed|, |failed|)[|failed|], None)
  {
    RoutePlanLength(cfg, passed, failed);
    StagesFinal(s1, RoutePlan(cfg, passed, failed), |passed|, |failed|);
  }
}
