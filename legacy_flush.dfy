/** The send path of the first generation of the C plugin: sending one
    record synchronously while keeping the success, failure and total
    counters and an occasional progress line, and the flush callback that
    sends the records of a chunk one after another. The msgpack decoder and
    `flb_msgpack_to_json` are outside the model: what they produce for a
    chunk is given as a sequence of frames. */
module LegacyFlush {
  import opened Common
  import opened PulsarApi
  import opened LegacyContext

  /** `total_number`, `success_number` and `failed_number`. */
  datatype Counters = Counters(total: nat, success: nat, failed: nat)

  /** Every attempt so far has been counted as exactly one of a success or a failure. */
  predicate Balanced(c: Counters) {
    c.success + c.failed == c.total
  }

  function CountersOf(ctx: LegacyContextState): Counters
    reads ctx
  {
    Counters(ctx.totalNumber, ctx.successNumber, ctx.failedNumber)
  }

  /** The counters after one call of `flb_pulsar_send_msg` with the JSON text
      `json` (empty when the conversion returned a length below 1) and the
      producer's answer `reply`. */
  function Count(c: Counters, json: Bytes, reply: PulsarResult): (r: Counters)
    ensures json == [] ==> r == c
    ensures json != [] ==> r.total == c.total + 1
    ensures r.success == c.success + (if json != [] && reply.ResultOk? then 1 else 0)
    ensures r.failed == c.failed + (if json != [] && !reply.ResultOk? then 1 else 0)
  {
    if json == [] then c
    else if reply.ResultOk? then Counters(c.total + 1, c.success + 1, c.failed)
    else Counters(c.total + 1, c.success, c.failed + 1)
  }

  /** One call keeps the counters balanced. */
  lemma CountKeepsBalance(c: Counters, json: Bytes, reply: PulsarResult)
    requires Balanced(c)
    ensures Balanced(Count(c, json, reply))
  {
  }

  /** The "publish progress" line: the counters and the last message. */
  datatype Progress = Progress(total: nat, success: nat, failed: nat, last: Bytes)

  /** The progress line written after an attempt that left the counters at
      `c`: one exactly when the total is a multiple of the show interval. */
  function ProgressLine(c: Counters, interval: nat, json: Bytes): (p: Option<Progress>)
    requires interval > 0
    ensures p.Some? <==> json != [] && c.total % interval == 0
    ensures p.Some? ==> p.value == Progress(c.total, c.success, c.failed, json)
  {
    if json != [] && c.total % interval == 0 then Some(Progress(c.total, c.success, c.failed, json)) else None
  }

  /** Lines 14-51: convert, send, free, count, report. The message is freed
      right after the send, so nothing outlives the call; what the producer
      was given is recorded in `sent`. */
  method SendMsg(ctx: LegacyContextState, json: Bytes, reply: PulsarResult) returns (ok: bool, progress: Option<Progress>)
    requires ctx.showInterval > 0
    modifies ctx`totalNumber, ctx`successNumber, ctx`failedNumber, ctx`sent
    ensures ok <==> json != [] && reply.ResultOk?
    ensures CountersOf(ctx) == Count(old(CountersOf(ctx)), json, reply)
    ensures ctx.sent == old(ctx.sent) + (if json == [] then [] else [json])
    ensures progress == ProgressLine(CountersOf(ctx), ctx.showInterval, json)
  {
    if |json| < 1 {
      return false, None;
    }
    var message := new Message(json);
    ctx.sent := ctx.sent + [message.content];
    if reply == ResultOk {
      ctx.successNumber := ctx.successNumber + 1;
    } else {
      ctx.failedNumber := ctx.failedNumber + 1;
    }
    ctx.totalNumber := ctx.totalNumber + 1;
    if ctx.totalNumber % ctx.showInterval == 0 {
      progress := Some(Progress(ctx.totalNumber, ctx.successNumber, ctx.failedNumber, json));
    } else {
      progress := None;
    }
    ok := reply == ResultOk;
  }

  /** What `msgpack_unpack_next` yields, one frame per call: a record, with
      its JSON text and the producer's answer for it, or a failure, at which
      the loop stops. */
  datatype Frame = Decoded(json: Bytes, reply: PulsarResult) | UnpackFailed

  /** The counters after the flush loop has gone through `frames`. */
  function Batch(c: Counters, frames: seq<Frame>): Counters
    decreases |frames|
  {
    if frames == [] || frames[0].UnpackFailed? then c
    else Batch(Count(c, frames[0].json, frames[0].reply), frames[1..])
  }

  /** The progress lines the flush loop writes, in order. */
  function Reports(c: Counters, interval: nat, frames: seq<Frame>): seq<Progress>
    requires interval > 0
    decreases |frames|
  {
    if frames == [] || frames[0].UnpackFailed? then []
    else
      var next := Count(c, frames[0].json, frames[0].reply);
      var line := ProgressLine(next, interval, frames[0].json);
      (if line.Some? then [line.value] else []) + Reports(next, interval, frames[1..])
  }

  /** The send attempts the flush loop makes: the decoded records before the
      first failure whose JSON text is not empty, in chunk order. */
  function Attempts(frames: seq<Frame>): (a: seq<(Bytes, PulsarResult)>)
    ensures |a| <= |frames|
    ensures forall i :: 0 <= i < |a| ==> a[i].0 != []
    decreases |frames|
  {
    if frames == [] || frames[0].UnpackFailed? then []
    else if frames[0].json == [] then Attempts(frames[1..])
    else [(frames[0].json, frames[0].reply)] + Attempts(frames[1..])
  }

  /** The texts of some attempts, in order. */
  function Jsons(a: seq<(Bytes, PulsarResult)>): (s: seq<Bytes>)
    ensures |s| == |a|
    ensures forall i :: 0 <= i < |a| ==> s[i] == a[i].0
  {
    if a == [] then [] else [a[0].0] + Jsons(a[1..])
  }

  /** The number of attempts the producer accepted. */
  function OkCount(a: seq<(Bytes, PulsarResult)>): (n: nat)
    ensures n <= |a|
  {
    if a == [] then 0 else (if a[0].1.ResultOk? then 1 else 0) + OkCount(a[1..])
  }

  /** One turn of the flush loop, on the decoded record at `i`. */
  lemma FlushStep(c: Counters, k: nat, frames: seq<Frame>, i: nat)
    requires k > 0 && i < |frames| && frames[i].Decoded?
    ensures var next := Count(c, frames[i].json, frames[i].reply);
      var line := ProgressLine(next, k, frames[i].json);
      Batch(c, frames[i..]) == Batch(next, frames[i + 1..]) &&
      Reports(c, k, frames[i..]) == (if line.Some? then [line.value] else []) + Reports(next, k, frames[i + 1..]) &&
      Jsons(Attempts(frames[i..])) == (if frames[i].json == [] then [] else [frames[i].json]) + Jsons(Attempts(frames[i + 1..]))
  {
    assert frames[i..][0] == frames[i] && frames[i..][1..] == frames[i + 1..];
    if frames[i].json != [] {
      var a := Attempts(frames[i..]);
      assert a[1..] == Attempts(frames[i + 1..]);
    }
  }

  /** Where the flush loop stops, nothing is left to do. */
  lemma FlushEnd(c: Counters, k: nat, frames: seq<Frame>, i: nat)
    requires k > 0 && i <= |frames| && (i == |frames| || frames[i].UnpackFailed?)
    ensures Batch(c, frames[i..]) == c
    ensures Reports(c, k, frames[i..]) == []
    ensures Attempts(frames[i..]) == []
  {
    if i < |frames| {
      assert frames[i..][0] == frames[i];
    }
  }

  /** Lines 80-107: send every decoded record in turn, whatever the outcome
      of the previous one, until the decoder fails; the callback always
      reports success to the host. */
  method Flush(ctx: LegacyContextState, frames: seq<Frame>) returns (status: FlushResult, reports: seq<Progress>)
    requires ctx.showInterval > 0
    modifies ctx`totalNumber, ctx`successNumber, ctx`failedNumber, ctx`sent
    ensures status == FlbOk
    ensures CountersOf(ctx) == Batch(old(CountersOf(ctx)), frames)
    ensures ctx.sent == old(ctx.sent) + Jsons(Attempts(frames))
    ensures reports == Reports(old(CountersOf(ctx)), ctx.showInterval, frames)
  {
    ghost var c0 := CountersOf(ctx);
    ghost var s0 := ctx.sent;
    ghost var k := ctx.showInterval;
    reports := [];
    var i := 0;
    while i < |frames| && frames[i].Decoded?
      invariant 0 <= i <= |frames| && ctx.showInterval == k
      invariant Batch(CountersOf(ctx), frames[i..]) == Batch(c0, frames)
      invariant reports + Reports(CountersOf(ctx), k, frames[i..]) == Reports(c0, k, frames)
      invariant ctx.sent + Jsons(Attempts(frames[i..])) == s0 + Jsons(Attempts(frames))
    {
      ghost var c := CountersOf(ctx);
      ghost var r0 := reports;
      ghost var sent0 := ctx.sent;
      FlushStep(c, k, frames, i);
      var ok, progress := SendMsg(ctx, frames[i].json, frames[i].reply);
      if progress.Some? {
        reports := reports + [progress.value];
      }
      ghost var next := CountersOf(ctx);
      ghost var shown := if progress.Some? then [progress.value] else [];
      ghost var line := if frames[i].json == [] then [] else [frames[i].json];
      Reassociate(r0, shown, Reports(next, k, frames[i + 1..]));
      Reassociate(sent0, line, Jsons(Attempts(frames[i + 1..])));
      i := i + 1;
    }
    FlushEnd(CountersOf(ctx), k, frames, i);
    status := FlbOk;
  }

  /** Counting a batch: one attempt per decoded record with a non-empty text
      before the first failure, each a success exactly when the producer
      accepted it. */
  lemma {:induction false} BatchCounts(c: Counters, frames: seq<Frame>)
    ensures Batch(c, frames).total == c.total + |Attempts(frames)|
    ensures Batch(c, frames).success == c.success + OkCount(Attempts(frames))
    ensures Batch(c, frames).failed == c.failed + |Attempts(frames)| - OkCount(Attempts(frames))
    decreases |frames|
  {
    if frames != [] && frames[0].Decoded? {
      var a := Attempts(frames);
      BatchCounts(Count(c, frames[0].json, frames[0].reply), frames[1..]);
      if frames[0].json != [] {
        assert a[1..] == Attempts(frames[1..]);
      }
    }
  }

  /** A flush keeps `success + failed == total`. */
  lemma {:induction false} BatchKeepsBalance(c: Counters, frames: seq<Frame>)
    requires Balanced(c)
    ensures Balanced(Batch(c, frames))
  {
    BatchCounts(c, frames);
  }

  /** A flush writes one progress line for each multiple of the show
      interval its total passes. */
  lemma {:induction false} ReportsCount(c: Counters, k: nat, frames: seq<Frame>)
    requires k > 0
    ensures |Reports(c, k, frames)| == Batch(c, frames).total / k - c.total / k
    decreases |frames|
  {
    if frames != [] && frames[0].Decoded? {
      var next := Count(c, frames[0].json, frames[0].reply);
      ReportsCount(next, k, frames[1..]);
      if frames[0].json != [] {
        DivStep(c.total, k);
      }
    }
  }

  /** Each progress line of a flush shows a total reached during the flush
      that is a multiple of the show interval, and shows balanced counters
      when they were balanced before. */
  lemma {:induction false} ReportsAtMultiples(c: Counters, k: nat, frames: seq<Frame>)
    requires k > 0
    ensures forall i :: 0 <= i < |Reports(c, k, frames)| ==>
      Reports(c, k, frames)[i].total % k == 0 &&
      c.total < Reports(c, k, frames)[i].total <= Batch(c, frames).total
    ensures Balanced(c) ==> forall i :: 0 <= i < |Reports(c, k, frames)| ==>
      Reports(c, k, frames)[i].success + Reports(c, k, frames)[i].failed == Reports(c, k, frames)[i].total
    decreases |frames|
  {
    if frames != [] && frames[0].Decoded? {
      var next := Count(c, frames[0].json, frames[0].reply);
      var line := ProgressLine(next, k, frames[0].json);
      var rest := Reports(next, k, frames[1..]);
      ReportsAtMultiples(next, k, frames[1..]);
      BatchTotalGrows(next, frames[1..]);
      var all := Reports(c, k, frames);
      assert all == (if line.Some? then [line.value] else []) + rest;
      if line.Some? {
        assert forall i :: 1 <= i < |all| ==> all[i] == rest[i - 1];
      }
    }
  }

  /** The progress lines of a flush come in increasing order of total. */
  lemma {:induction false} ReportsIncrease(c: Counters, k: nat, frames: seq<Frame>)
    requires k > 0
    ensures forall i, j :: 0 <= i < j < |Reports(c, k, frames)| ==>
      Reports(c, k, frames)[i].total < Reports(c, k, frames)[j].total
    decreases |frames|
  {
    if frames != [] && frames[0].Decoded? {
      var next := Count(c, frames[0].json, frames[0].reply);
      var line := ProgressLine(next, k, frames[0].json);
      var rest := Reports(next, k, frames[1..]);
      ReportsIncrease(next, k, frames[1..]);
      if line.Some? {
        ReportsAtMultiples(next, k, frames[1..]);
        var all := Reports(c, k, frames);
        assert all == [line.value] + rest;
        assert forall i :: 1 <= i < |all| ==> all[i] == rest[i - 1];
      }
    }
  }

  /** A flush never lowers the total. */
  lemma {:induction false} BatchTotalGrows(c: Counters, frames: seq<Frame>)
    ensures c.total <= Batch(c, frames).total
    decreases |frames|
  {
    if frames != [] && frames[0].Decoded? {
      BatchTotalGrows(Count(c, frames[0].json, frames[0].reply), frames[1..]);
    }
  }

  /** Whatever follows the first unpack failure of a chunk is neither
      counted, nor sent, nor reported. */
  lemma {:induction false} TailIgnored(c: Counters, k: nat, a: seq<Frame>, b: seq<Frame>)
    requires k > 0
    requires forall i :: 0 <= i < |a| ==> a[i].Decoded?
    ensures Batch(c, a + [UnpackFailed] + b) == Batch(c, a)
    ensures Reports(c, k, a + [UnpackFailed] + b) == Reports(c, k, a)
    ensures Attempts(a + [UnpackFailed] + b) == Attempts(a)
    decreases |a|
  {
    var f := a + [UnpackFailed] + b;
    if a == [] {
      assert f[0] == UnpackFailed;
    } else {
      assert f[0] == a[0] && f[1..] == a[1..] + [UnpackFailed] + b;
      TailIgnored(Count(c, a[0].json, a[0].reply), k, a[1..], b);
    }
  }

  /** Records are sent in chunk order: those of a prefix of decoded records
      go out before those of the rest. */
  lemma {:induction false} AttemptsInOrder(a: seq<Frame>, b: seq<Frame>)
    requires forall i :: 0 <= i < |a| ==> a[i].Decoded?
    ensures Attempts(a + b) == Attempts(a) + Attempts(b)
    decreases |a|
  {
    if a != [] {
      assert (a + b)[0] == a[0] && (a + b)[1..] == a[1..] + b;
      AttemptsInOrder(a[1..], b);
    } else {
      assert a + b == b;
    }
  }
}
