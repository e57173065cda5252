/** The quality gate of the orchestration handler (handler.py): four checks
    run in a fixed order on each ingested object, stopping at the first that
    fails, and the split of the ingested keys into `passed` and `failed`. */
module QualityGate {
  import opened Strings
  import opened BlobStore
  import opened Validation

  type Key = string

  /** The four checks, named after what they test. */
  datatype Check = Schema | RecordRules | Deequ | Ge

  /** The order in which the handler calls them. */
  const Chain: seq<Check> := [Schema, RecordRules, Deequ, Ge]

  /** What each check answers for an object (its key and content). Opaque to
      the handler; `SourceChecker` below is the source's own choice. */
  type Checker = (Check, Key, Blob) -> bool

  /** An object passes the gate when every check accepts it. */
  predicate Passes(check: Checker, key: Key, blob: Blob)
  {
    forall c :: c in Chain ==> check(c, key, blob)
  }

  /** The checks that actually run: in order, up to and including the first
      one that answers false. */
  function RunUntilFailure(checks: seq<Check>, check: Checker, key: Key, blob: Blob): (run: seq<Check>)
    decreases |checks|
  {
    if checks == [] then []
    else if check(checks[0], key, blob) then [checks[0]] + RunUntilFailure(checks[1..], check, key, blob)
    else [checks[0]]
  }

  /** The run is a prefix of the checks; every check in it but the last
      accepted; it is empty only when there are no checks; and when it stops
      early, the last check run rejected. */
  lemma {:induction false} RunUntilFailureStops(checks: seq<Check>, check: Checker, key: Key, blob: Blob)
    ensures var run := RunUntilFailure(checks, check, key, blob);
            && |run| <= |checks| && run == checks[..|run|]
            && (forall i :: 0 <= i < |run| - 1 ==> check(run[i], key, blob))
            && (checks != [] ==> run != [])
            && (|run| < |checks| ==> !check(run[|run| - 1], key, blob))
    decreases |checks|
  {
    if checks != [] && check(checks[0], key, blob) {
      var tail := RunUntilFailure(checks[1..], check, key, blob);
      RunUntilFailureStops(checks[1..], check, key, blob);
      var run := [checks[0]] + tail;
      assert run == RunUntilFailure(checks, check, key, blob);
      assert run == checks[..|run|] by {
        assert tail == checks[1..][..|tail|];
      }
      forall i | 0 <= i < |run| - 1 ensures check(run[i], key, blob) {
        if i > 0 {
          assert run[i] == tail[i - 1];
        }
      }
      if |run| < |checks| {
        assert run[|run| - 1] == tail[|tail| - 1];
      }
    }
  }

  /** An object passes exactly when all four checks run and the last one
      accepts; otherwise the last check run is the first one that rejected. */
  lemma ChainVerdict(check: Checker, key: Key, blob: Blob)
    ensures var run := RunUntilFailure(Chain, check, key, blob);
            && (Passes(check, key, blob) <==> run == Chain && check(Ge, key, blob))
            && (!Passes(check, key, blob) ==> run != [] && !check(run[|run| - 1], key, blob))
  {
    var run := RunUntilFailure(Chain, check, key, blob);
    RunUntilFailureStops(Chain, check, key, blob);
    if |run| == |Chain| {
      assert run == Chain;
      assert forall c :: c in Chain ==> c == run[0] || c == run[1] || c == run[2] || c == run[3];
    } else {
      assert run[|run| - 1] in Chain;
    }
  }

  /** The checks that run on one object, case by case. */
  lemma ChainRun(check: Checker, key: Key, blob: Blob)
    ensures var run := RunUntilFailure(Chain, check, key, blob);
            var s, r, d := check(Schema, key, blob), check(RecordRules, key, blob), check(Deequ, key, blob);
            && (Passes(check, key, blob) <==> s && r && d && check(Ge, key, blob))
            && (!s ==> run == [Schema])
            && (s && !r ==> run == [Schema, RecordRules])
            && (s && r && !d ==> run == [Schema, RecordRules, Deequ])
            && (s && r && d ==> run == Chain)
  {
    var rest1, rest2, rest3 := Chain[1..], Chain[2..], Chain[3..];
    assert rest1 == [RecordRules, Deequ, Ge] && rest2 == [Deequ, Ge] && rest3 == [Ge];
    assert forall c :: c in Chain ==> c == Schema || c == RecordRules || c == Deequ || c == Ge;
    if check(Schema, key, blob) {
      assert RunUntilFailure(Chain, check, key, blob) == [Schema] + RunUntilFailure(rest1, check, key, blob);
      if check(RecordRules, key, blob) {
        assert RunUntilFailure(rest1, check, key, blob) == [RecordRules] + RunUntilFailure(rest2, check, key, blob);
        if check(Deequ, key, blob) {
          assert RunUntilFailure(rest2, check, key, blob) == [Deequ] + RunUntilFailure(rest3, check, key, blob);
        }
      }
    }
  }

  /** The handler's four `if not ...: continue` tests on one object: answers
      whether it passed, and which checks ran. */
  method Gate(check: Checker, key: Key, blob: Blob) returns (ok: bool, ran: seq<Check>)
    ensures ok == Passes(check, key, blob)
    ensures ran == RunUntilFailure(Chain, check, key, blob)
  {
    ChainRun(check, key, blob);
    ran := [Schema];
    if !check(Schema, key, blob) {
      return false, ran;
    }
    ran := ran + [RecordRules];
    if !check(RecordRules, key, blob) {
      return false, ran;
    }
    ran := ran + [Deequ];
    if !check(Deequ, key, blob) {
      return false, ran;
    }
    ran := ran + [Ge];
    ok := check(Ge, key, blob);
  }

  /** The gate with the source's own validators: schema always accepts, the
      record rules and Deequ read the object's rows, and the expectation
      suite gives its verdict. `rowsOf` stands for reading the JSON object
      and `suite` for running the expectation suite on it. */
  function SourceChecker(rowsOf: Blob -> seq<Row>, suite: (Key, Blob) -> SuiteResult, registry: string, schema: string, bucket: string): Checker
  {
    (c: Check, key: Key, blob: Blob) =>
      match c
      case Schema => ValidateSchemaGlue(bucket, key, registry, schema)
      case RecordRules => ValidateRecordRules(rowsOf(blob))
      case Deequ => ValidateDeequ(rowsOf(blob))
      case Ge => ValidateGe(suite(key, blob))
  }

  /** With the source's validators an object passes exactly when it has at
      least one row, every row is valid, and the expectation suite succeeds;
      and the schema check is never the one that rejects. */
  lemma SourceGate(rowsOf: Blob -> seq<Row>, suite: (Key, Blob) -> SuiteResult, registry: string, schema: string, bucket: string, key: Key, blob: Blob)
    ensures var check := SourceChecker(rowsOf, suite, registry, schema, bucket);
            && (Passes(check, key, blob) <==>
                 |rowsOf(blob)| > 0 && (forall i :: 0 <= i < |rowsOf(blob)| ==> RowValid(rowsOf(blob)[i])) && suite(key, blob).success)
            && RunUntilFailure(Chain, check, key, blob)[..1] == [Schema]
            && (!Passes(check, key, blob) ==> RunUntilFailure(Chain, check, key, blob)[|RunUntilFailure(Chain, check, key, blob)| - 1] != Schema)
  {
    var check := SourceChecker(rowsOf, suite, registry, schema, bucket);
    SourceAnswers(rowsOf, suite, registry, schema, bucket, key, blob);
    RecordsAndDeequ(rowsOf(blob));
    ChainRun(check, key, blob);
    var run := RunUntilFailure(Chain, check, key, blob);
    if !check(RecordRules, key, blob) {
      assert run == [Schema, RecordRules];
    } else if !check(Deequ, key, blob) {
      assert run == [Schema, RecordRules, Deequ];
    } else {
      assert run == [Schema, RecordRules, Deequ, Ge];
    }
  }

  /** What each of the source's validators answers. */
  lemma SourceAnswers(rowsOf: Blob -> seq<Row>, suite: (Key, Blob) -> SuiteResult, registry: string, schema: string, bucket: string, key: Key, blob: Blob)
    ensures var check := SourceChecker(rowsOf, suite, registry, schema, bucket);
            && check(Schema, key, blob)
            && check(RecordRules, key, blob) == ValidateRecordRules(rowsOf(blob))
            && check(Deequ, key, blob) == ValidateDeequ(rowsOf(blob))
            && check(Ge, key, blob) == suite(key, blob).success
  {
    var check := SourceChecker(rowsOf, suite, registry, schema, bucket);
    assert check(Schema, key, blob) == ValidateSchemaGlue(bucket, key, registry, schema);
  }

  // ---------------------------------------------------------------------
  // Splitting the batch
  // ---------------------------------------------------------------------

  /** Each key's verdict, key by key. */
  function Verdicts(check: Checker, keys: seq<Key>, s: map<Key, Blob>): (oks: seq<bool>)
    requires forall i :: 0 <= i < |keys| ==> keys[i] in s
    ensures |oks| == |keys|
    ensures forall i :: 0 <= i < |keys| ==> oks[i] == Passes(check, keys[i], s[keys[i]])
    decreases |keys|
  {
    if keys == [] then []
    else Verdicts(check, keys[..|keys| - 1], s) + [Passes(check, keys[|keys| - 1], s[keys[|keys| - 1]])]
  }

  /** The elements whose verdict is `want`, in their original order. */
  function Select<T>(xs: seq<T>, oks: seq<bool>, want: bool): (r: seq<T>)
    requires |xs| == |oks|
    decreases |xs|
  {
    if xs == [] then []
    else Select(xs[..|xs| - 1], oks[..|oks| - 1], want) + (if oks[|oks| - 1] == want then [xs[|xs| - 1]] else [])
  }

  /** Extending the input by one element extends the selection by that
      element exactly when its verdict is the wanted one. */
  lemma SelectStep<T>(xs: seq<T>, oks: seq<bool>, want: bool, i: nat)
    requires |xs| == |oks| && i < |xs|
    ensures Select(xs[..i + 1], oks[..i + 1], want)
         == Select(xs[..i], oks[..i], want) + (if oks[i] == want then [xs[i]] else [])
  {
    assert xs[..i + 1][..i] == xs[..i];
    assert oks[..i + 1][..i] == oks[..i];
  }

  /** An element is selected exactly when some position holds it with the wanted verdict. */
  lemma {:induction false} SelectMember<T>(xs: seq<T>, oks: seq<bool>, want: bool, x: T)
    requires |xs| == |oks|
    ensures x in Select(xs, oks, want) <==> exists i :: 0 <= i < |xs| && xs[i] == x && oks[i] == want
    decreases |xs|
  {
    if xs != [] {
      var n := |xs| - 1;
      SelectMember(xs[..n], oks[..n], want, x);
      if exists i :: 0 <= i < |xs| && xs[i] == x && oks[i] == want {
        var i :| 0 <= i < |xs| && xs[i] == x && oks[i] == want;
        if i < n {
          assert xs[..n][i] == x && oks[..n][i] == want;
        }
      }
      if exists i :: 0 <= i < n && xs[..n][i] == x && oks[..n][i] == want {
        var i :| 0 <= i < n && xs[..n][i] == x && oks[..n][i] == want;
        assert xs[i] == x && oks[i] == want;
      }
    }
  }

  /** Merge two lists back along a verdict sequence: take from `p` where the
      verdict is true and from `f` where it is false. */
  function Interleave<T>(oks: seq<bool>, p: seq<T>, f: seq<T>): seq<T>
    decreases |oks|
  {
    if oks == [] then []
    else if oks[|oks| - 1] then
      (if p == [] then [] else Interleave(oks[..|oks| - 1], p[..|p| - 1], f) + [p[|p| - 1]])
    else
      (if f == [] then [] else Interleave(oks[..|oks| - 1], p, f[..|f| - 1]) + [f[|f| - 1]])
  }

  /** The split loses nothing and keeps order: interleaving `passed` and
      `failed` along the verdicts gives back the ingested keys. */
  lemma {:induction false} SelectInterleave<T>(xs: seq<T>, oks: seq<bool>)
    requires |xs| == |oks|
    ensures Interleave(oks, Select(xs, oks, true), Select(xs, oks, false)) == xs
    decreases |xs|
  {
    if xs != [] {
      var n := |xs| - 1;
      SelectInterleave(xs[..n], oks[..n]);
      var p, f := Select(xs, oks, true), Select(xs, oks, false);
      var p', f' := Select(xs[..n], oks[..n], true), Select(xs[..n], oks[..n], false);
      if oks[n] {
        assert p == p' + [xs[n]] && f == f';
        assert p[..|p| - 1] == p';
      } else {
        assert f == f' + [xs[n]] && p == p';
        assert f[..|f| - 1] == f';
      }
      assert xs[..n] + [xs[n]] == xs;
    }
  }

  /** Every element of a distinct sequence is selected into exactly one side. */
  lemma SelectPartition<T>(xs: seq<T>, oks: seq<bool>)
    requires |xs| == |oks| && Distinct(xs)
    ensures forall x :: x in xs <==> x in Select(xs, oks, true) || x in Select(xs, oks, false)
    ensures forall x :: !(x in Select(xs, oks, true) && x in Select(xs, oks, false))
  {
    forall x
      ensures x in xs <==> x in Select(xs, oks, true) || x in Select(xs, oks, false)
      ensures !(x in Select(xs, oks, true) && x in Select(xs, oks, false))
    {
      SelectMember(xs, oks, true, x);
      SelectMember(xs, oks, false, x);
    }
  }

  /** Inserting a fresh element between two halves keeps a sequence distinct. */
  lemma DistinctInsert<T>(a: seq<T>, x: T, b: seq<T>)
    requires Distinct(a + b) && x !in a && x !in b
    ensures Distinct(a + [x] + b)
  {
    var s, t := a + [x] + b, a + b;
    forall i, j | 0 <= i < j < |s| ensures s[i] != s[j] {
      if j < |a| {
        assert s[i] == t[i] && s[j] == t[j];
      } else if j == |a| {
        assert s[i] == a[i];
      } else if i < |a| {
        assert s[i] == t[i] && s[j] == t[j - 1];
      } else if i == |a| {
        assert s[j] == b[j - |a| - 1];
      } else {
        assert s[i] == t[i - 1] && s[j] == t[j - 1];
      }
    }
  }

  /** `passed + failed` of distinct keys is itself distinct. */
  lemma {:induction false} SelectDistinct<T>(xs: seq<T>, oks: seq<bool>)
    requires |xs| == |oks| && Distinct(xs)
    ensures Distinct(Select(xs, oks, true) + Select(xs, oks, false))
    decreases |xs|
  {
    if xs != [] {
      var n := |xs| - 1;
      var x := xs[n];
      assert Distinct(xs[..n]);
      SelectDistinct(xs[..n], oks[..n]);
      var p, f := Select(xs[..n], oks[..n], true), Select(xs[..n], oks[..n], false);
      SelectMember(xs[..n], oks[..n], true, x);
      SelectMember(xs[..n], oks[..n], false, x);
      assert x !in xs[..n];
      if oks[n] {
        assert Select(xs, oks, true) == p + [x] && Select(xs, oks, false) == f;
        DistinctInsert(p, x, f);
      } else {
        assert Select(xs, oks, true) == p && Select(xs, oks, false) == f + [x];
        DistinctInsert(p + f, x, []);
        assert p + f + [x] + [] == p + (f + [x]);
      }
    }
  }
}
