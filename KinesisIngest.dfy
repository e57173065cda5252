/** The stream-ingest handler of the mini pipeline: every stream record's data
    is base64-decoded and written to the raw bucket under
    "kinesis/<date>/<sequence number>.json", one put per record, in order. */
module KinesisIngest {
  import opened Wrappers
  import opened BlobStore

  /** One stream record: its base64 text and its sequence number. */
  datatype StreamRecord = StreamRecord(data: string, sequenceNumber: string)

  /** The handler's answer when every record was written. */
  datatype Summary = Summary(status: string, count: nat)

  /** The object key of a record read on a given date ("YYYY/MM/DD"). */
  function ObjectKey(datePrefix: string, sequenceNumber: string): string
  {
    "kinesis/" + datePrefix + "/" + sequenceNumber + ".json"
  }

  /** The key of record `i`; `today(i)` is the date the clock gave while
      record `i` was handled. */
  function KeyAt(records: seq<StreamRecord>, today: nat -> string, i: nat): string
    requires i < |records|
  {
    ObjectKey(today(i), records[i].sequenceNumber)
  }

  /** The number of records handled before the first one whose data does not
      decode (all of them when every record decodes). */
  function FirstUndecodable(records: seq<StreamRecord>, decode: string -> Option<Blob>): (f: nat)
    ensures f <= |records|
    ensures forall i :: 0 <= i < f ==> decode(records[i].data).Some?
    ensures f < |records| ==> decode(records[f].data).None?
    decreases |records|
  {
    if records == [] then 0
    else if decode(records[0].data).None? then 0
    else
      var rest := FirstUndecodable(records[1..], decode);
      assert forall i :: 1 <= i < 1 + rest ==> records[i] == records[1..][i - 1];
      1 + rest
  }

  /** The raw bucket after the puts of the first `n` records. */
  function Stored(m: map<ObjectRef, Blob>, bucket: string, records: seq<StreamRecord>,
                  today: nat -> string, decode: string -> Option<Blob>, n: nat): map<ObjectRef, Blob>
    requires n <= FirstUndecodable(records, decode)
    decreases n
  {
    if n == 0 then m
    else Stored(m, bucket, records, today, decode, n - 1)
           [ObjectRef(bucket, KeyAt(records, today, n - 1)) := decode(records[n - 1].data).value]
  }

  /** The put calls of the first `n` records. */
  function PutCalls(bucket: string, records: seq<StreamRecord>, today: nat -> string, n: nat): seq<StoreCall>
    requires n <= |records|
    decreases n
  {
    if n == 0 then []
    else PutCalls(bucket, records, today, n - 1) + [Put(ObjectRef(bucket, KeyAt(records, today, n - 1)))]
  }

  /** The last of the first `n` records written under `key`, if any. */
  function LastWriter(records: seq<StreamRecord>, today: nat -> string, key: string, n: nat): (w: Option<nat>)
    requires n <= |records|
    ensures w.Some? ==> w.value < n && KeyAt(records, today, w.value) == key
                        && forall j :: w.value < j < n ==> KeyAt(records, today, j) != key
    ensures w.None? ==> forall j :: 0 <= j < n ==> KeyAt(records, today, j) != key
    decreases n
  {
    if n == 0 then None
    else if KeyAt(records, today, n - 1) == key then Some(n - 1)
    else LastWriter(records, today, key, n - 1)
  }

  /** One put per handled record, in record order, each at that record's key. */
  lemma {:induction false} PutCallsSpec(bucket: string, records: seq<StreamRecord>, today: nat -> string, n: nat)
    requires n <= |records|
    ensures |PutCalls(bucket, records, today, n)| == n
    ensures forall i :: 0 <= i < n ==>
              PutCalls(bucket, records, today, n)[i] == Put(ObjectRef(bucket, KeyAt(records, today, i)))
    decreases n
  {
    if n > 0 {
      PutCallsSpec(bucket, records, today, n - 1);
    }
  }

  /** What the bucket holds after the puts: under a record key, the payload of
      the LAST record written there (a repeated sequence number on one date
      overwrites); every other object is as it was. */
  lemma {:induction false} StoredAt(m: map<ObjectRef, Blob>, bucket: string, records: seq<StreamRecord>,
                                    today: nat -> string, decode: string -> Option<Blob>, n: nat, r: ObjectRef)
    requires n <= FirstUndecodable(records, decode)
    ensures var out := Stored(m, bucket, records, today, decode, n);
            var w := LastWriter(records, today, r.key, n);
            && (r.bucket == bucket && w.Some? ==> r in out && out[r] == decode(records[w.value].data).value)
            && (r.bucket != bucket || w.None? ==> (r in out <==> r in m) && (r in m ==> out[r] == m[r]))
    decreases n
  {
    if n > 0 {
      StoredAt(m, bucket, records, today, decode, n - 1, r);
    }
  }

  /** Keys of one date length are unique per (date, sequence number): the key
      gives back both. */
  lemma ObjectKeyInjective(d1: string, s1: string, d2: string, s2: string)
    requires |d1| == |d2|
    requires ObjectKey(d1, s1) == ObjectKey(d2, s2)
    ensures d1 == d2 && s1 == s2
  {
    var k := ObjectKey(d1, s1);
    assert d1 == k[8..8 + |d1|];
    assert d2 == ObjectKey(d2, s2)[8..8 + |d2|];
    assert s1 == k[9 + |d1|..|k| - 5];
    assert s2 == ObjectKey(d2, s2)[9 + |d2|..|k| - 5];
  }

  /** The handler: decode each record, read the clock, and put the payload at
      the record's key in `bucket`. A record whose data does not decode raises
      and ends the invocation (reported as `Err` with its index), after the
      earlier records' puts; otherwise it answers "processed" with the number
      of records. */
  method Handler(s3: ObjectStore, bucket: string, records: seq<StreamRecord>,
                 today: nat -> string, decode: string -> Option<Blob>)
    returns (result: Result<Summary, nat>)
    modifies s3
    ensures var f := FirstUndecodable(records, decode);
            && s3.objects == Stored(old(s3.objects), bucket, records, today, decode, f)
            && s3.calls == old(s3.calls) + PutCalls(bucket, records, today, f)
            && result == if f == |records| then Ok(Summary("processed", |records|)) else Err(f)
  {
    ghost var m0 := s3.objects;
    ghost var c0 := s3.calls;
    var i := 0;
    while i < |records|
      invariant i <= FirstUndecodable(records, decode)
      invariant s3.objects == Stored(m0, bucket, records, today, decode, i)
      invariant s3.calls == c0 + PutCalls(bucket, records, today, i)
    {
      var payload := decode(records[i].data);
      if payload.None? {
        return Err(i);
      }
      var datePrefix := today(i);
      var key := ObjectKey(datePrefix, records[i].sequenceNumber);
      s3.PutObject(ObjectRef(bucket, key), payload.value);
      i := i + 1;
    }
    result := Ok(Summary("processed", |records|));
  }
}
