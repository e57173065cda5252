/** The mini pipeline's entry point: six guarded blocks run in a fixed order,
    each logging its start, calling its steps, and logging (not propagating)
    the first exception a step raises; the run always ends by logging
    "Pipeline completed.". The steps themselves are opaque fallible actions. */
module PipelineMain {
  import opened Wrappers

  /** The actions the entry point calls. */
  datatype Step = IngestFtp | IngestApi | IngestKinesis | Validate | Transform | WriteCurated | RegisterMetadata | Monitor

  /** A guarded block: the message logged on entry, the steps it calls in
      order, and the activity its error message names. */
  datatype Block = Block(start: string, steps: seq<Step>, activity: string)

  /** A log record: an informational message, or an error logged with its exception. */
  datatype LogEntry = Info(message: string) | Exception(message: string)

  /** The six blocks, in the order the entry point runs them. */
  const Ingestion := Block("Starting data ingestion phase...", [IngestFtp, IngestApi, IngestKinesis], "ingestion")
  const Validation := Block("Running validation...", [Validate], "validation")
  const Transformation := Block("Applying transformation...", [Transform], "transformation")
  const Curation := Block("Writing to curated zone...", [WriteCurated], "curated zone write")
  const Registration := Block("Registering metadata...", [RegisterMetadata], "metadata registration")
  const Monitoring := Block("Monitoring pipeline...", [Monitor], "monitoring")

  const Completed: string := "Pipeline completed."

  /** The error message of a block, given the raised exception's text. */
  function ErrorMessage(activity: string, raised: string): string
  {
    "Error during " + activity + ": " + raised
  }

  /** The log the entry point writes to. */
  class Logger {
    var entries: seq<LogEntry>

    constructor ()
      ensures entries == []
    {
      entries := [];
    }

    method LogInfo(message: string)
      modifies this
      ensures entries == old(entries) + [Info(message)]
    {
      entries := entries + [Info(message)];
    }

    method LogException(message: string)
      modifies this
      ensures entries == old(entries) + [Exception(message)]
    {
      entries := entries + [Exception(message)];
    }
  }

  /** The number of steps that return before the first one that raises
      (`outcome(s)` is `None` when step `s` returns and `Some(text)` when it
      raises an exception with that text). */
  function FirstRaise(steps: seq<Step>, outcome: Step -> Option<string>): (f: nat)
    ensures f <= |steps|
    ensures forall i :: 0 <= i < f ==> outcome(steps[i]).None?
    ensures f < |steps| ==> outcome(steps[f]).Some?
    decreases |steps|
  {
    if steps == [] then 0
    else if outcome(steps[0]).Some? then 0
    else
      var rest := FirstRaise(steps[1..], outcome);
      assert forall i :: 1 <= i < 1 + rest ==> steps[i] == steps[1..][i - 1];
      1 + rest
  }

  /** Some step of the block raises. */
  predicate Raises(b: Block, outcome: Step -> Option<string>)
  {
    exists i :: 0 <= i < |b.steps| && outcome(b.steps[i]).Some?
  }

  /** The steps a block calls: up to and including the first that raises. */
  function BlockCalls(b: Block, outcome: Step -> Option<string>): seq<Step>
  {
    var f := FirstRaise(b.steps, outcome);
    if f < |b.steps| then b.steps[..f + 1] else b.steps
  }

  /** What a block logs: its start message, then the error of the first step that raised. */
  function BlockLog(b: Block, outcome: Step -> Option<string>): seq<LogEntry>
  {
    var f := FirstRaise(b.steps, outcome);
    [Info(b.start)] + if f < |b.steps| then [Exception(ErrorMessage(b.activity, outcome(b.steps[f]).value))] else []
  }

  /** The entry point's log: each block's entries in block order, then the
      completion message. */
  function PipelineLog(outcome: Step -> Option<string>): seq<LogEntry>
  {
    BlockLog(Ingestion, outcome) + BlockLog(Validation, outcome) + BlockLog(Transformation, outcome)
      + BlockLog(Curation, outcome) + BlockLog(Registration, outcome) + BlockLog(Monitoring, outcome)
      + [Info(Completed)]
  }

  /** The steps the entry point calls: each block's calls in block order. */
  function PipelineCalls(outcome: Step -> Option<string>): seq<Step>
  {
    BlockCalls(Ingestion, outcome) + BlockCalls(Validation, outcome) + BlockCalls(Transformation, outcome)
      + BlockCalls(Curation, outcome) + BlockCalls(Registration, outcome) + BlockCalls(Monitoring, outcome)
  }

  /** The number of blocks in which some step raises. */
  function FailingBlocks(outcome: Step -> Option<string>): nat
  {
    (if Raises(Ingestion, outcome) then 1 else 0) + (if Raises(Validation, outcome) then 1 else 0)
      + (if Raises(Transformation, outcome) then 1 else 0) + (if Raises(Curation, outcome) then 1 else 0)
      + (if Raises(Registration, outcome) then 1 else 0) + (if Raises(Monitoring, outcome) then 1 else 0)
  }

  /** The messages of the informational entries, in order. */
  function InfoMessages(log: seq<LogEntry>): seq<string>
    decreases |log|
  {
    if log == [] then []
    else InfoMessages(log[..|log| - 1]) + if log[|log| - 1].Info? then [log[|log| - 1].message] else []
  }

  /** The number of exception entries. */
  function ExceptionCount(log: seq<LogEntry>): nat
    decreases |log|
  {
    if log == [] then 0
    else ExceptionCount(log[..|log| - 1]) + if log[|log| - 1].Exception? then 1 else 0
  }

  lemma {:induction false} InfoMessagesConcat(a: seq<LogEntry>, b: seq<LogEntry>)
    ensures InfoMessages(a + b) == InfoMessages(a) + InfoMessages(b)
    ensures ExceptionCount(a + b) == ExceptionCount(a) + ExceptionCount(b)
    decreases |b|
  {
    if b == [] {
      assert a + b == a;
    } else {
      var n := |b| - 1;
      InfoMessagesConcat(a, b[..n]);
      assert (a + b)[..|a + b| - 1] == a + b[..n];
    }
  }

  /** A block logs its start message, then exactly one exception when one of
      its steps raises and none otherwise. */
  lemma BlockLogCounts(b: Block, outcome: Step -> Option<string>)
    ensures InfoMessages(BlockLog(b, outcome)) == [b.start]
    ensures ExceptionCount(BlockLog(b, outcome)) == if Raises(b, outcome) then 1 else 0
  {
    var f := FirstRaise(b.steps, outcome);
    var log := BlockLog(b, outcome);
    assert [Info(b.start)][..0] == [];
    if f < |b.steps| {
      var e := Exception(ErrorMessage(b.activity, outcome(b.steps[f]).value));
      assert outcome(b.steps[f]).Some?;
      assert [e][..0] == [];
      InfoMessagesConcat([Info(b.start)], [e]);
    } else {
      assert log[..0] == [];
    }
  }

  /** The log of six blocks run one after the other: their start messages in
      order, and one exception per failing block. */
  lemma SixBlockLog(b1: Block, b2: Block, b3: Block, b4: Block, b5: Block, b6: Block,
                    outcome: Step -> Option<string>)
    ensures var log := BlockLog(b1, outcome) + BlockLog(b2, outcome) + BlockLog(b3, outcome)
                       + BlockLog(b4, outcome) + BlockLog(b5, outcome) + BlockLog(b6, outcome);
            && InfoMessages(log) == [b1.start] + [b2.start] + [b3.start] + [b4.start] + [b5.start] + [b6.start]
            && ExceptionCount(log) == (if Raises(b1, outcome) then 1 else 0) + (if Raises(b2, outcome) then 1 else 0)
                                      + (if Raises(b3, outcome) then 1 else 0) + (if Raises(b4, outcome) then 1 else 0)
                                      + (if Raises(b5, outcome) then 1 else 0) + (if Raises(b6, outcome) then 1 else 0)
  {
    BlockLogCounts(b1, outcome);
    BlockLogCounts(b2, outcome);
    BlockLogCounts(b3, outcome);
    BlockLogCounts(b4, outcome);
    BlockLogCounts(b5, outcome);
    BlockLogCounts(b6, outcome);
    CountChain(BlockLog(b1, outcome), BlockLog(b2, outcome), BlockLog(b3, outcome),
               BlockLog(b4, outcome), BlockLog(b5, outcome), BlockLog(b6, outcome));
  }

  /** The messages and exception count of six logs joined together. */
  lemma CountChain(l1: seq<LogEntry>, l2: seq<LogEntry>, l3: seq<LogEntry>,
                   l4: seq<LogEntry>, l5: seq<LogEntry>, l6: seq<LogEntry>)
    ensures InfoMessages(l1 + l2 + l3 + l4 + l5 + l6)
              == InfoMessages(l1) + InfoMessages(l2) + InfoMessages(l3)
                 + InfoMessages(l4) + InfoMessages(l5) + InfoMessages(l6)
    ensures ExceptionCount(l1 + l2 + l3 + l4 + l5 + l6)
              == ExceptionCount(l1) + ExceptionCount(l2) + ExceptionCount(l3)
                 + ExceptionCount(l4) + ExceptionCount(l5) + ExceptionCount(l6)
  {
    InfoMessagesConcat(l1, l2);
    InfoMessagesConcat(l1 + l2, l3);
    InfoMessagesConcat(l1 + l2 + l3, l4);
    InfoMessagesConcat(l1 + l2 + l3 + l4, l5);
    InfoMessagesConcat(l1 + l2 + l3 + l4 + l5, l6);
  }

  /** The entry point's log: the six start messages and the completion
      message are its informational entries, in this order; it holds one
      exception entry per failing block, so at most six; and the completion
      message comes last. */
  lemma PipelineLogFacts(outcome: Step -> Option<string>)
    ensures var log := PipelineLog(outcome);
            && InfoMessages(log) == [Ingestion.start] + [Validation.start] + [Transformation.start]
                                    + [Curation.start] + [Registration.start] + [Monitoring.start] + [Completed]
            && ExceptionCount(log) == FailingBlocks(outcome) <= 6
            && log[|log| - 1] == Info(Completed)
  {
    var log := PipelineLog(outcome);
    var blocks := BlockLog(Ingestion, outcome) + BlockLog(Validation, outcome) + BlockLog(Transformation, outcome)
                  + BlockLog(Curation, outcome) + BlockLog(Registration, outcome) + BlockLog(Monitoring, outcome);
    SixBlockLog(Ingestion, Validation, Transformation, Curation, Registration, Monitoring, outcome);
    InfoMessagesConcat(blocks, [Info(Completed)]);
    assert [Info(Completed)][..0] == [];
  }

  /** The ingestion block calls the FTP ingest always, the API ingest only
      when the FTP ingest returned, and the stream ingest only when both returned. */
  lemma IngestionCalls(outcome: Step -> Option<string>)
    ensures BlockCalls(Ingestion, outcome)
              == [IngestFtp] + if outcome(IngestFtp).Some? then []
                               else [IngestApi] + if outcome(IngestApi).Some? then [] else [IngestKinesis]
  {
    var st := Ingestion.steps;
    assert st[1..] == [IngestApi, IngestKinesis];
    assert st[1..][1..] == [IngestKinesis];
    assert st[1..][1..][1..] == [];
    assert st[..1] == [IngestFtp];
    assert st[..2] == [IngestFtp, IngestApi];
    assert st[..3] == st;
  }

  /** A one-step block calls its step whatever it does. */
  lemma SingleStepCalls(b: Block, outcome: Step -> Option<string>)
    requires |b.steps| == 1
    ensures BlockCalls(b, outcome) == b.steps
  {
    assert b.steps[..1] == b.steps;
  }

  /** The steps called, whatever the outcomes: the FTP ingest always; the API
      ingest only when the FTP ingest returned; the stream ingest only when
      both returned; then every later block's step, in order: a failure never
      stops a later block. */
  lemma PipelineCallsFacts(outcome: Step -> Option<string>)
    ensures PipelineCalls(outcome)
              == [IngestFtp]
                 + (if outcome(IngestFtp).Some? then []
                    else [IngestApi] + if outcome(IngestApi).Some? then [] else [IngestKinesis])
                 + [Validate, Transform, WriteCurated, RegisterMetadata, Monitor]
  {
    IngestionCalls(outcome);
    SingleStepCalls(Validation, outcome);
    SingleStepCalls(Transformation, outcome);
    SingleStepCalls(Curation, outcome);
    SingleStepCalls(Registration, outcome);
    SingleStepCalls(Monitoring, outcome);
    var front := BlockCalls(Ingestion, outcome);
    assert PipelineCalls(outcome) == front + [Validate] + [Transform] + [WriteCurated] + [RegisterMetadata] + [Monitor];
  }

  /** One guarded block: log its start, call its steps in order, and on the
      first step that raises, log the error and leave the block. */
  method RunBlock(logger: Logger, b: Block, outcome: Step -> Option<string>) returns (called: seq<Step>)
    modifies logger
    ensures logger.entries == old(logger.entries) + BlockLog(b, outcome)
    ensures called == BlockCalls(b, outcome)
  {
    logger.LogInfo(b.start);
    called := [];
    var j := 0;
    while j < |b.steps|
      invariant j <= FirstRaise(b.steps, outcome)
      invariant called == b.steps[..j]
      invariant logger.entries == old(logger.entries) + [Info(b.start)]
    {
      var step := b.steps[j];
      called := called + [step];
      var raised := outcome(step);
      if raised.Some? {
        logger.LogException(ErrorMessage(b.activity, raised.value));
        return;
      }
      j := j + 1;
    }
    assert b.steps[..j] == b.steps;
  }

  lemma Regroup<T>(t: seq<T>, a: seq<T>, b: seq<T>, c: seq<T>, d: seq<T>, e: seq<T>, f: seq<T>, g: seq<T>)
    ensures t + a + b + c + d + e + f + g == t + (a + b + c + d + e + f + g)
  {
  }

  /** The entry point: the six blocks in order, each isolated from the
      others' failures, then the completion message. */
  method RunPipeline(logger: Logger, outcome: Step -> Option<string>) returns (called: seq<Step>)
    modifies logger
    ensures logger.entries == old(logger.entries) + PipelineLog(outcome)
    ensures called == PipelineCalls(outcome)
  {
    ghost var start := logger.entries;
    var c1 := RunBlock(logger, Ingestion, outcome);
    var c2 := RunBlock(logger, Validation, outcome);
    var c3 := RunBlock(logger, Transformation, outcome);
    var c4 := RunBlock(logger, Curation, outcome);
    var c5 := RunBlock(logger, Registration, outcome);
    var c6 := RunBlock(logger, Monitoring, outcome);
    logger.LogInfo(Completed);
    called := c1 + c2 + c3 + c4 + c5 + c6;
    Regroup(start, BlockLog(Ingestion, outcome), BlockLog(Validation, outcome), BlockLog(Transformation, outcome),
            BlockLog(Curation, outcome), BlockLog(Registration, outcome), BlockLog(Monitoring, outcome), [Info(Completed)]);
  }
}
