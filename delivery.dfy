/**
 * The delivery side of out_cloudwatch_logs.go as values: the request `Put`
 * builds, the token taken from its response, and `Run`, the outcome of
 * `FLBPluginFlush` over a batch (token, file system, requests sent, return
 * code), which `OutputPlugin.Flush` is proved to compute. The lemmas state the
 * ordering-token protocol of a batch.
 *
 * `PutLogEvents`, the JSON encoder and the wall clock are the oracles of
 * `Services`.
 */
module Delivery {
  import opened Wrappers
  import opened GoText
  import opened Records
  import opened StateToken

  /** The codes returned to fluent-bit. */
  datatype FlbStatus = FlbOk | FlbError | FlbRetry

  /** `cloudWatchLogsConf`, the configuration a flush reads. */
  datatype PluginConf = PluginConf(
    logGroupName: string,
    logStreamName: string,
    autoCreateStream: bool,
    stateFile: string)

  /** One `InputLogEvent`. */
  datatype LogEvent = LogEvent(message: string, timestamp: int)

  /** A `PutLogEventsInput`; `sequenceToken` is None when the field is left unset. */
  datatype PutRequest = PutRequest(
    logGroupName: string,
    logStreamName: string,
    logEvents: seq<LogEvent>,
    sequenceToken: Option<string>)

  /**
   * What `PutLogEvents` answered: an error, or a response; `None` stands for a
   * nil response, and a non-nil response always carries its next sequence token.
   */
  datatype PutReply = PutFailed | PutDone(response: Option<string>)

  /** The oracles of a flush: the JSON encoder, the n-th `PutLogEvents` call, the wall clock at the i-th record. */
  datatype Services = Services(
    marshal: map<string, Value> -> Option<string>,
    put: (nat, PutRequest) -> PutReply,
    clock: nat -> Time)

  /** The token a request carries; an unset field reads as the empty token. */
  function SentToken(req: PutRequest): string {
    req.sequenceToken.GetOr("")
  }

  /** A request never carries a token field that is set to the empty token. */
  predicate NoEmptyToken(req: PutRequest) {
    req.sequenceToken.None? || req.sequenceToken.value != ""
  }

  /**
   * The request `Put` sends for one line: one event stamped in milliseconds, for
   * the configured group and stream, with the sequence token set only when it is
   * not empty.
   */
  function PutLogEventsInput(conf: PluginConf, timestamp: Time, line: string, sequenceToken: string): (req: PutRequest)
    ensures req.sequenceToken.None? <==> sequenceToken == ""
    ensures SentToken(req) == sequenceToken
    ensures req.logGroupName == conf.logGroupName && req.logStreamName == conf.logStreamName
    ensures req.logEvents == [LogEvent(line, timestamp.unixMilli)]
  {
    var params := PutRequest(conf.logGroupName, conf.logStreamName, [LogEvent(line, timestamp.unixMilli)], None);
    if sequenceToken != "" then params.(sequenceToken := Some(sequenceToken)) else params
  }

  /** `nextSequenceToken`: the response's token, or the empty token for a nil response. */
  function NextSequenceToken(response: Option<string>): (token: string)
    ensures response.Some? ==> token == response.value
    ensures response.None? ==> token == ""
  {
    match response
    case Some(token) => token
    case None => ""
  }

  /** The outcome of a flush: return code, token held afterwards, file system afterwards, requests sent. */
  datatype FlushResult = FlushResult(status: FlbStatus, token: string, files: FileSystem, puts: seq<PutRequest>)

  /** `r` with the requests `sent` before it. */
  function Prepend(sent: seq<PutRequest>, r: FlushResult): FlushResult {
    r.(puts := sent + r.puts)
  }

  lemma PrependTwice(first: seq<PutRequest>, second: seq<PutRequest>, r: FlushResult)
    ensures Prepend(first, Prepend(second, r)) == Prepend(first + second, r)
  {
    assert first + (second + r.puts) == (first + second) + r.puts;
  }

  /** How many requests of a flush were answered without an error. */
  function Delivered(r: FlushResult): nat {
    if r.status == FlbRetry && |r.puts| > 0 then |r.puts| - 1 else |r.puts|
  }

  /** The file system after a successful `Put`: the state file is rewritten only when a state path is configured. */
  function Persist(conf: PluginConf, files: FileSystem, token: string): FileSystem {
    if conf.stateFile != "" then AfterStore(files, conf.stateFile, conf.logStreamName, token) else files
  }

  /** A line ready to be sent: the record's time and its JSON text. */
  datatype Line = Line(timestamp: Time, text: string)

  /**
   * The lines a batch yields from its i-th entry on, in order: one per record
   * before the first non-zero status whose encoding succeeds; a record that does
   * not encode is skipped.
   */
  function Outgoing(entries: seq<Entry>, i: nat, s: Services): seq<Line>
    requires i <= |entries|
    decreases |entries| - i
  {
    if i == |entries| || entries[i].status != 0 then []
    else
      match s.marshal(ConvertRecord(entries[i].record))
      case None => Outgoing(entries, i + 1, s)
      case Some(text) => [Line(TimestampOf(entries[i].ts, s.clock(i)), text)] + Outgoing(entries, i + 1, s)
  }

  /**
   * Sending `lines` one `Put` each, holding `token`, over `files`, after n calls
   * to `PutLogEvents`: stop with FLB_RETRY at the first failed call; after each
   * successful call take the response's token and persist it; FLB_OK once all
   * lines are sent.
   */
  function Deliver(conf: PluginConf, lines: seq<Line>, token: string, files: FileSystem,
                   n: nat, put: (nat, PutRequest) -> PutReply): FlushResult
    decreases |lines|
  {
    if lines == [] then FlushResult(FlbOk, token, files, [])
    else
      var req := PutLogEventsInput(conf, lines[0].timestamp, lines[0].text, token);
      match put(n, req)
      case PutFailed => FlushResult(FlbRetry, token, files, [req])
      case PutDone(response) =>
        var next := NextSequenceToken(response);
        Prepend([req], Deliver(conf, lines[1..], next, Persist(conf, files, next), n + 1, put))
  }

  /**
   * `FLBPluginFlush` on a batch, holding `token`, over `files`: the lines of
   * the batch, delivered in order. (Encoding a record has no effect, so
   * preparing all lines first and then sending them gives what the record-by-
   * record loop gives.)
   */
  function Run(conf: PluginConf, entries: seq<Entry>, token: string, files: FileSystem, s: Services): FlushResult {
    Deliver(conf, Outgoing(entries, 0, s), token, files, 0, s.put)
  }

  /**
   * Each request carries exactly one line, the next one, for the configured
   * group and stream, with the time in milliseconds; a delivery that ends with
   * FLB_OK has sent all lines, one that ends with FLB_RETRY a non-empty prefix.
   */
  lemma {:induction false} RequestsFollowLines(conf: PluginConf, lines: seq<Line>, token: string, files: FileSystem,
                                               n: nat, put: (nat, PutRequest) -> PutReply)
    ensures var r := Deliver(conf, lines, token, files, n, put);
      && |r.puts| <= |lines|
      && (forall k :: 0 <= k < |r.puts| ==>
            r.puts[k].logEvents == [LogEvent(lines[k].text, lines[k].timestamp.unixMilli)]
            && r.puts[k].logGroupName == conf.logGroupName
            && r.puts[k].logStreamName == conf.logStreamName)
      && (r.status == FlbOk ==> |r.puts| == |lines|)
      && (r.status == FlbRetry ==> |r.puts| > 0)
    decreases |lines|
  {
    if lines != [] {
      var req := PutLogEventsInput(conf, lines[0].timestamp, lines[0].text, token);
      match put(n, req)
      case PutFailed =>
      case PutDone(response) =>
        var next := NextSequenceToken(response);
        var rest := Deliver(conf, lines[1..], next, Persist(conf, files, next), n + 1, put);
        RequestsFollowLines(conf, lines[1..], next, Persist(conf, files, next), n + 1, put);
        var r := Deliver(conf, lines, token, files, n, put);
        assert r.puts == [req] + rest.puts;
        forall k | 0 < k < |r.puts|
          ensures r.puts[k].logEvents == [LogEvent(lines[k].text, lines[k].timestamp.unixMilli)]
        {
          assert r.puts[k] == rest.puts[k - 1] && lines[k] == lines[1..][k - 1];
        }
    }
  }

  /**
   * The ordering-token protocol: the first request carries the token held when
   * the batch started, and every later one the token returned by the call
   * before it, which succeeded.
   */
  lemma {:induction false} TokensAreThreaded(conf: PluginConf, lines: seq<Line>, token: string, files: FileSystem,
                                             n: nat, put: (nat, PutRequest) -> PutReply)
    ensures var r := Deliver(conf, lines, token, files, n, put);
      && (|r.puts| > 0 ==> SentToken(r.puts[0]) == token)
      && (forall k :: 0 <= k < |r.puts| - 1 ==>
            put(n + k, r.puts[k]).PutDone?
            && SentToken(r.puts[k + 1]) == NextSequenceToken(put(n + k, r.puts[k]).response))
      && (forall k :: 0 <= k < |r.puts| ==> NoEmptyToken(r.puts[k]))
    decreases |lines|
  {
    NoRequestHasEmptyToken(conf, lines, token, files, n, put);
    if lines != [] {
      var req := PutLogEventsInput(conf, lines[0].timestamp, lines[0].text, token);
      match put(n, req)
      case PutFailed =>
      case PutDone(response) =>
        var next := NextSequenceToken(response);
        var rest := Deliver(conf, lines[1..], next, Persist(conf, files, next), n + 1, put);
        TokensAreThreaded(conf, lines[1..], next, Persist(conf, files, next), n + 1, put);
        var r := Deliver(conf, lines, token, files, n, put);
        assert r.puts == [req] + rest.puts;
        forall k | 0 <= k < |r.puts| - 1
          ensures put(n + k, r.puts[k]).PutDone?
          ensures SentToken(r.puts[k + 1]) == NextSequenceToken(put(n + k, r.puts[k]).response)
        {
          if k > 0 {
            assert r.puts[k + 1] == rest.puts[k] && r.puts[k] == rest.puts[k - 1];
          }
        }
    }
  }

  /** No request of a delivery has its token field set to the empty token. */
  lemma {:induction false} NoRequestHasEmptyToken(conf: PluginConf, lines: seq<Line>, token: string,
                                                  files: FileSystem, n: nat, put: (nat, PutRequest) -> PutReply)
    ensures forall k :: 0 <= k < |Deliver(conf, lines, token, files, n, put).puts| ==>
      NoEmptyToken(Deliver(conf, lines, token, files, n, put).puts[k])
    decreases |lines|
  {
    if lines != [] {
      var req := PutLogEventsInput(conf, lines[0].timestamp, lines[0].text, token);
      match put(n, req)
      case PutFailed =>
      case PutDone(response) =>
        var next := NextSequenceToken(response);
        var rest := Deliver(conf, lines[1..], next, Persist(conf, files, next), n + 1, put);
        NoRequestHasEmptyToken(conf, lines[1..], next, Persist(conf, files, next), n + 1, put);
        var r := Deliver(conf, lines, token, files, n, put);
        assert r.puts == [req] + rest.puts;
        forall k | 0 < k < |r.puts|
          ensures NoEmptyToken(r.puts[k])
        {
          assert r.puts[k] == rest.puts[k - 1];
        }
    }
  }

  /**
   * A delivery never returns FLB_ERROR, and returns FLB_RETRY exactly when its
   * last call failed: nothing is sent after a failed call.
   */
  lemma {:induction false} RetryExactlyAfterFailedCall(conf: PluginConf, lines: seq<Line>, token: string,
                                                       files: FileSystem, n: nat, put: (nat, PutRequest) -> PutReply)
    ensures var r := Deliver(conf, lines, token, files, n, put);
      && r.status != FlbError
      && (r.status == FlbRetry <==> |r.puts| > 0 && put(n + |r.puts| - 1, r.puts[|r.puts| - 1]).PutFailed?)
    decreases |lines|
  {
    if lines != [] {
      var req := PutLogEventsInput(conf, lines[0].timestamp, lines[0].text, token);
      match put(n, req)
      case PutFailed =>
      case PutDone(response) =>
        var next := NextSequenceToken(response);
        var rest := Deliver(conf, lines[1..], next, Persist(conf, files, next), n + 1, put);
        RetryExactlyAfterFailedCall(conf, lines[1..], next, Persist(conf, files, next), n + 1, put);
        var r := Deliver(conf, lines, token, files, n, put);
        assert r.puts == [req] + rest.puts && r.status == rest.status;
        if |rest.puts| > 0 {
          assert r.puts[|r.puts| - 1] == rest.puts[|rest.puts| - 1];
        }
    }
  }

  /**
   * The token held after a delivery is the token of the last successful call,
   * or the starting token when no call succeeded; a failed call leaves it as it
   * was.
   */
  lemma {:induction false} TokenAfterFlush(conf: PluginConf, lines: seq<Line>, token: string, files: FileSystem,
                                           n: nat, put: (nat, PutRequest) -> PutReply)
    ensures var r := Deliver(conf, lines, token, files, n, put);
      && (r.status == FlbRetry ==> |r.puts| > 0)
      && (Delivered(r) == 0 ==> r.token == token)
      && (Delivered(r) > 0 ==>
            put(n + Delivered(r) - 1, r.puts[Delivered(r) - 1]).PutDone?
            && r.token == NextSequenceToken(put(n + Delivered(r) - 1, r.puts[Delivered(r) - 1]).response))
    decreases |lines|
  {
    if lines != [] {
      var req := PutLogEventsInput(conf, lines[0].timestamp, lines[0].text, token);
      match put(n, req)
      case PutFailed =>
      case PutDone(response) =>
        var next := NextSequenceToken(response);
        var rest := Deliver(conf, lines[1..], next, Persist(conf, files, next), n + 1, put);
        TokenAfterFlush(conf, lines[1..], next, Persist(conf, files, next), n + 1, put);
        var r := Deliver(conf, lines, token, files, n, put);
        assert r == Prepend([req], rest);
        assert Delivered(r) == Delivered(rest) + 1;
        if Delivered(rest) > 0 {
          assert r.puts[Delivered(r) - 1] == rest.puts[Delivered(rest) - 1];
        }
    }
  }

  /** Persisting twice under one configuration keeps only the second token. */
  lemma PersistOverwrites(conf: PluginConf, files: FileSystem, token1: string, token2: string)
    ensures Persist(conf, Persist(conf, files, token1), token2) == Persist(conf, files, token2)
  {
    if conf.stateFile != "" {
      StoreOverwrites(files, conf.stateFile, conf.logStreamName, token1, token2);
    }
  }

  /**
   * The state file holds the token the plugin ends the delivery with when a
   * state path is configured and some call succeeded; no file changes
   * otherwise.
   */
  lemma {:induction false} StateAfterFlush(conf: PluginConf, lines: seq<Line>, token: string, files: FileSystem,
                                           n: nat, put: (nat, PutRequest) -> PutReply)
    ensures var r := Deliver(conf, lines, token, files, n, put);
      && (Delivered(r) == 0 ==> r.files == files)
      && (Delivered(r) > 0 ==> r.files == Persist(conf, files, r.token))
    decreases |lines|
  {
    if lines != [] {
      var req := PutLogEventsInput(conf, lines[0].timestamp, lines[0].text, token);
      match put(n, req)
      case PutFailed =>
      case PutDone(response) =>
        var next := NextSequenceToken(response);
        var persisted := Persist(conf, files, next);
        var rest := Deliver(conf, lines[1..], next, persisted, n + 1, put);
        StateAfterFlush(conf, lines[1..], next, persisted, n + 1, put);
        TokenAfterFlush(conf, lines[1..], next, persisted, n + 1, put);
        var r := Deliver(conf, lines, token, files, n, put);
        assert r == Prepend([req], rest);
        assert Delivered(r) == Delivered(rest) + 1;
        PersistOverwrites(conf, files, next, rest.token);
    }
  }

  /** A service that never fails gets every line, and the delivery returns FLB_OK. */
  lemma {:induction false} AllSentWhenNoCallFails(conf: PluginConf, lines: seq<Line>, token: string, files: FileSystem,
                                                  n: nat, put: (nat, PutRequest) -> PutReply)
    requires forall k: nat, req: PutRequest :: put(k, req).PutDone?
    ensures Deliver(conf, lines, token, files, n, put).status == FlbOk
    ensures |Deliver(conf, lines, token, files, n, put).puts| == |lines|
    decreases |lines|
  {
    if lines != [] {
      var req := PutLogEventsInput(conf, lines[0].timestamp, lines[0].text, token);
      var next := NextSequenceToken(put(n, req).response);
      AllSentWhenNoCallFails(conf, lines[1..], next, Persist(conf, files, next), n + 1, put);
    }
  }

  /**
   * A batch whose entries all have status 0 and all encode yields one line per
   * record, in order, each the record's encoding at the record's time.
   */
  lemma {:induction false} OneLinePerRecord(entries: seq<Entry>, i: nat, s: Services)
    requires i <= |entries|
    requires forall j :: i <= j < |entries| ==> entries[j].status == 0
    requires forall j :: i <= j < |entries| ==> s.marshal(ConvertRecord(entries[j].record)).Some?
    ensures |Outgoing(entries, i, s)| == |entries| - i
    ensures forall k :: 0 <= k < |entries| - i ==>
      Outgoing(entries, i, s)[k] == Line(TimestampOf(entries[i + k].ts, s.clock(i + k)),
                                         s.marshal(ConvertRecord(entries[i + k].record)).value)
    decreases |entries| - i
  {
    if i < |entries| {
      OneLinePerRecord(entries, i + 1, s);
      var out := Outgoing(entries, i, s);
      forall k | 0 < k < |entries| - i
        ensures out[k] == Line(TimestampOf(entries[i + k].ts, s.clock(i + k)),
                               s.marshal(ConvertRecord(entries[i + k].record)).value)
      {
        assert out[k] == Outgoing(entries, i + 1, s)[k - 1];
      }
    }
  }

  /** A batch never yields more lines than it has entries. */
  lemma {:induction false} AtMostOneLinePerRecord(entries: seq<Entry>, i: nat, s: Services)
    requires i <= |entries|
    ensures |Outgoing(entries, i, s)| <= |entries| - i
    decreases |entries| - i
  {
    if i < |entries| {
      AtMostOneLinePerRecord(entries, i + 1, s);
    }
  }

  /**
   * Where the record loop stops from the i-th entry on: the first entry whose
   * status is not 0, or the end of the batch.
   */
  function StopIndex(entries: seq<Entry>, i: nat): (k: nat)
    requires i <= |entries|
    ensures i <= k <= |entries|
    ensures forall j :: i <= j < k ==> entries[j].status == 0
    ensures k < |entries| ==> entries[k].status != 0
    decreases |entries| - i
  {
    if i < |entries| && entries[i].status == 0 then StopIndex(entries, i + 1) else i
  }

  /** The j-th record encodes. */
  predicate Encodes(entries: seq<Entry>, j: nat, s: Services)
    requires j < |entries|
  {
    s.marshal(ConvertRecord(entries[j].record)).Some?
  }

  /** The line the j-th record is sent as, when it encodes. */
  function LineOf(entries: seq<Entry>, j: nat, s: Services): Line
    requires j < |entries| && Encodes(entries, j, s)
  {
    Line(TimestampOf(entries[j].ts, s.clock(j)), s.marshal(ConvertRecord(entries[j].record)).value)
  }

  /** Entries from a non-zero status on contribute nothing: the batch cut there yields the same lines. */
  lemma {:induction false} OutgoingStopsAtStatus(entries: seq<Entry>, i: nat, k: nat, s: Services)
    requires i <= k < |entries|
    requires entries[k].status != 0
    ensures Outgoing(entries, i, s) == Outgoing(entries[..k], i, s)
    decreases k - i
  {
    if i < k {
      assert entries[..k][i] == entries[i];
      OutgoingStopsAtStatus(entries, i + 1, k, s);
    }
  }

  /**
   * The positions of the records a batch sends from the i-th entry on: the
   * records that encode, before the first non-zero status.
   */
  function SentIndices(entries: seq<Entry>, i: nat, s: Services): (idx: seq<nat>)
    requires i <= |entries|
    ensures forall n :: 0 <= n < |idx| ==> i <= idx[n] < StopIndex(entries, i) && Encodes(entries, idx[n], s)
    decreases |entries| - i
  {
    if i == |entries| || entries[i].status != 0 then []
    else if Encodes(entries, i, s) then [i] + SentIndices(entries, i + 1, s)
    else SentIndices(entries, i + 1, s)
  }

  predicate Increasing(xs: seq<nat>) {
    forall a, b :: 0 <= a < b < |xs| ==> xs[a] < xs[b]
  }

  /** The sent positions are in increasing order. */
  lemma {:induction false} SentIndicesIncrease(entries: seq<Entry>, i: nat, s: Services)
    requires i <= |entries|
    ensures Increasing(SentIndices(entries, i, s))
    decreases |entries| - i
  {
    if i < |entries| && entries[i].status == 0 {
      SentIndicesIncrease(entries, i + 1, s);
      if Encodes(entries, i, s) {
        var idx, rest := SentIndices(entries, i, s), SentIndices(entries, i + 1, s);
        assert idx == [i] + rest;
        forall a, b | 0 <= a < b < |idx|
          ensures idx[a] < idx[b]
        {
          assert idx[b] == rest[b - 1] && i + 1 <= rest[b - 1];
          if a > 0 {
            assert idx[a] == rest[a - 1];
          }
        }
      }
    }
  }

  /** Every record that encodes before the first non-zero status is sent: a record that does not encode does not end the batch. */
  lemma {:induction false} SentIndicesComplete(entries: seq<Entry>, i: nat, s: Services)
    requires i <= |entries|
    ensures forall j :: i <= j < StopIndex(entries, i) && Encodes(entries, j, s) ==> j in SentIndices(entries, i, s)
    decreases |entries| - i
  {
    if i < |entries| && entries[i].status == 0 {
      SentIndicesComplete(entries, i + 1, s);
      assert StopIndex(entries, i) == StopIndex(entries, i + 1);
    }
  }

  /** Line n of a batch is the line of its n-th sent record, and there are no other lines. */
  lemma {:induction false} OutgoingIsFilter(entries: seq<Entry>, i: nat, s: Services)
    requires i <= |entries|
    ensures |Outgoing(entries, i, s)| == |SentIndices(entries, i, s)|
    ensures forall n :: 0 <= n < |SentIndices(entries, i, s)| ==>
      Outgoing(entries, i, s)[n] == LineOf(entries, SentIndices(entries, i, s)[n], s)
    decreases |entries| - i
  {
    if i < |entries| && entries[i].status == 0 {
      OutgoingIsFilter(entries, i + 1, s);
      if Encodes(entries, i, s) {
        var out, tail := Outgoing(entries, i, s), Outgoing(entries, i + 1, s);
        var idx, rest := SentIndices(entries, i, s), SentIndices(entries, i + 1, s);
        assert out == [LineOf(entries, i, s)] + tail;
        forall n | 0 < n < |idx|
          ensures out[n] == LineOf(entries, idx[n], s)
        {
          assert idx[n] == rest[n - 1] && out[n] == tail[n - 1];
        }
      }
    }
  }

  /**
   * After a flush with a state path in which some call succeeded, reading the
   * state file gives back the token the plugin holds (without surrounding line
   * breaks), which is what the next start-up would resume from.
   */
  lemma StateFileMirrorsToken(conf: PluginConf, entries: seq<Entry>, token: string, files: FileSystem, s: Services)
    requires conf.stateFile != ""
    ensures var r := Run(conf, entries, token, files, s);
      Delivered(r) > 0 ==> ReadStateToken(r.files, conf.stateFile, conf.logStreamName) == Trim(r.token)
  {
    var r := Run(conf, entries, token, files, s);
    StateAfterFlush(conf, Outgoing(entries, 0, s), token, files, 0, s.put);
    if Delivered(r) > 0 {
      assert r.files == AfterStore(files, conf.stateFile, conf.logStreamName, r.token);
      StoreThenReadTrims(files, conf.stateFile, conf.logStreamName, r.token);
    }
  }
}
