/** The job-output session of lager_cli/status.py: decoded frames dispatched to a matcher or to
    the downloader, the close decision, the bounded connect retry and the final outcome. The
    WebSocket is an ordered trace of events. */
module CliStatus {
  import opened Wrappers
  import opened Text
  import opened Terminal
  import opened Matchers
  import opened Protocol

  /** What the session observes next. `Silence` is `message_timeout` passing without a frame,
      `OverallDeadline` the outer `fail_after(overall_timeout)` expiring, `PongOverdue` the
      heartbeat's ping going unanswered within its timeout. */
  datatype Event =
    | Frame(envelope: Envelope)
    | Silence
    | OverallDeadline
    | PongOverdue
    | Closed(reason: Option<CloseReason>)

  /** Feeding chunks to a matcher, in order. */
  function FeedChunks(m: MatcherModel, chunks: seq<string>): (r: (MatcherModel, seq<Piece>))
    ensures r.0.UnityModel? == m.UnityModel?
  {
    if chunks == [] then (m, [])
    else
      var prev := FeedChunks(m, chunks[..|chunks| - 1]);
      var step := FeedModel(prev.0, chunks[|chunks| - 1]);
      (step.0, prev.1 + step.1)
  }

  /** What one message does: the matcher afterwards, what reaches the terminal, which URLs are
      requested and the status that raised, if any. */
  datatype Step = Step(model: MatcherModel, out: seq<Piece>, requested: seq<string>, failed: Option<int>)

  /** `handle_message`: `data` first, then `urls`, otherwise nothing. */
  function MessageStep(m: MatcherModel, env: Envelope, server: string -> Response): Step
  {
    if env.data.Some? then
      var fed := FeedChunks(m, Payloads(env.data.value));
      Step(fed.0, fed.1, [], None)
    else if env.urls.Some? then
      var urls := env.urls.value;
      var k := FirstFailing(urls, server);
      Step(m, EchoChunks(Bodies(urls[..k], server)),
           if k < |urls| then urls[..k + 1] else urls,
           if k < |urls| then Some(server(urls[k]).status) else None)
    else Step(m, [], [], None)
  }

  /** How `read_from_websocket` leaves its loop; `Waiting` is a trace that ran out first. */
  datatype LoopEnd =
    | CleanEnd
    | RaisedInterMessage
    | RaisedTooSlow
    | RaisedClosed(reason: CloseReason)
    | RaisedHttp(status: int)
    | Waiting

  datatype Run = Run(end: LoopEnd, model: MatcherModel, out: seq<Piece>, requested: seq<string>)

  /** Prefix a run with output and requests that happened before it. */
  function After(out: seq<Piece>, requested: seq<string>, run: Run): Run
  {
    run.(out := out + run.out, requested := requested + run.requested)
  }

  /** How an event that is not a frame ends the loop. */
  function StopOf(e: Event): (r: LoopEnd)
    requires !e.Frame?
    ensures r != Waiting
  {
    match e
    case Silence => RaisedInterMessage
    case OverallDeadline => RaisedTooSlow
    case PongOverdue => RaisedTooSlow
    case Closed(reason) => if IsCleanClose(reason) then CleanEnd else RaisedClosed(reason.value)
  }

  /** What one event does to the matcher, the terminal and the requests. */
  function TurnStep(m: MatcherModel, e: Event, server: string -> Response): Step
  {
    if e.Frame? then MessageStep(m, e.envelope, server) else Step(m, [], [], None)
  }

  /** Whether one event ends the loop, and how; `Waiting` means it goes on. */
  function TurnEnd(m: MatcherModel, e: Event, server: string -> Response): LoopEnd
  {
    if e.Frame? then
      var failed := MessageStep(m, e.envelope, server).failed;
      if failed.Some? then RaisedHttp(failed.value) else Waiting
    else StopOf(e)
  }

  /** The receive loop over a trace: frames handled one at a time in arrival order until the
      first event that ends the loop. */
  function ReadLoop(m: MatcherModel, trace: seq<Event>, server: string -> Response): Run
    decreases |trace|
  {
    if trace == [] then Run(Waiting, m, [], [])
    else
      var st := TurnStep(m, trace[0], server);
      var end := TurnEnd(m, trace[0], server);
      if end != Waiting then Run(end, st.model, st.out, st.requested)
      else After(st.out, st.requested, ReadLoop(st.model, trace[1..], server))
  }

  lemma FeedChunksSnoc(m: MatcherModel, chunks: seq<string>, c: string)
    ensures FeedChunks(m, chunks + [c]) ==
      (FeedModel(FeedChunks(m, chunks).0, c).0, FeedChunks(m, chunks).1 + FeedModel(FeedChunks(m, chunks).0, c).1)
  {
    assert (chunks + [c])[..|chunks|] == chunks;
  }

  lemma PayloadsSnoc(items: seq<Item>, e: Item)
    ensures Payloads(items + [e]) == Payloads(items) + (if e.payload.Some? then [e.payload.value] else [])
  {
    assert (items + [e])[..|items|] == items;
  }

  /** The receive loop's bookkeeping across one event. */
  lemma Advance(total: Run, out: seq<Piece>, req: seq<string>, m: MatcherModel, e: Event,
                rest: seq<Event>, server: string -> Response)
    requires total == After(out, req, ReadLoop(m, [e] + rest, server))
    ensures var st := TurnStep(m, e, server);
      var end := TurnEnd(m, e, server);
      if end != Waiting then total == Run(end, st.model, out + st.out, req + st.requested)
      else total == After(out + st.out, req + st.requested, ReadLoop(st.model, rest, server))
  {
    assert ([e] + rest)[0] == e && ([e] + rest)[1..] == rest;
  }

  /** `handle_data_message`: the payloads, in entry order, fed to the matcher. */
  method HandleDataMessage(m: Matcher, items: seq<Item>, console: Console)
    modifies Footprint(m), console
    ensures ModelOf(m) == FeedChunks(old(ModelOf(m)), Payloads(items)).0
    ensures console.out == old(console.out) + FeedChunks(old(ModelOf(m)), Payloads(items)).1
    ensures DoneCalls(m) == old(DoneCalls(m))
  {
    ghost var m0, out0 := ModelOf(m), console.out;
    ghost var chunks: seq<string> := [];
    ghost var outSoFar: seq<Piece> := [];
    var i := 0;
    while i < |items|
      invariant 0 <= i <= |items|
      invariant chunks == Payloads(items[..i])
      invariant FeedChunks(m0, chunks) == (ModelOf(m), outSoFar)
      invariant console.out == out0 + outSoFar
      invariant DoneCalls(m) == old(DoneCalls(m))
    {
      var entry := items[i];
      assert items[..i + 1] == items[..i] + [entry];
      PayloadsSnoc(items[..i], entry);
      if entry.payload.Some? {
        FeedChunksSnoc(m0, chunks, entry.payload.value);
        ghost var step := FeedModel(ModelOf(m), entry.payload.value);
        Feed(m, entry.payload.value, console);
        AppendAssoc(out0, outSoFar, step.1);
        chunks, outSoFar := chunks + [entry.payload.value], outSoFar + step.1;
      }
      i := i + 1;
    }
    assert items[..i] == items;
  }

  /** `handle_message` */
  method HandleMessage(m: Matcher, env: Envelope, http: HttpClient, console: Console) returns (failed: Option<int>)
    modifies Footprint(m), http, console
    ensures ModelOf(m) == MessageStep(old(ModelOf(m)), env, http.server).model
    ensures console.out == old(console.out) + MessageStep(old(ModelOf(m)), env, http.server).out
    ensures http.requested == old(http.requested) + MessageStep(old(ModelOf(m)), env, http.server).requested
    ensures failed == MessageStep(old(ModelOf(m)), env, http.server).failed
    ensures DoneCalls(m) == old(DoneCalls(m))
  {
    if env.data.Some? {
      HandleDataMessage(m, env.data.value, console);
      return None;
    }
    if env.urls.Some? {
      failed := HandleUrlMessage(env.urls.value, http, console);
      return;
    }
    return None;
  }

  /** The close decision of the loop for one event that is not a frame. */
  method Stop(e: Event) returns (end: LoopEnd)
    requires !e.Frame?
    ensures end == StopOf(e)
  {
    match e {
      case Silence => end := RaisedInterMessage;
      case OverallDeadline => end := RaisedTooSlow;
      case PongOverdue => end := RaisedTooSlow;
      case Closed(reason) =>
        if reason.None? {
          end := CleanEnd;
        } else if reason.value.code != NormalClosure || reason.value.reason != Some("EOF") {
          end := RaisedClosed(reason.value);
        } else {
          end := CleanEnd;
        }
    }
  }

  /** One turn of the receive loop: a frame is handled, any other event decides the end. */
  method Turn(m: Matcher, e: Event, http: HttpClient, console: Console) returns (end: LoopEnd)
    modifies Footprint(m), http, console
    ensures var st := TurnStep(old(ModelOf(m)), e, http.server);
      && ModelOf(m) == st.model
      && console.out == old(console.out) + st.out
      && http.requested == old(http.requested) + st.requested
    ensures end == TurnEnd(old(ModelOf(m)), e, http.server)
    ensures DoneCalls(m) == old(DoneCalls(m))
  {
    if e.Frame? {
      var failed := HandleMessage(m, e.envelope, http, console);
      end := if failed.Some? then RaisedHttp(failed.value) else Waiting;
    } else {
      end := Stop(e);
    }
  }

  /** The `async for` of `read_from_websocket`: frames are handled until an event ends the loop. */
  method ReceiveLoop(m: Matcher, trace: seq<Event>, http: HttpClient, console: Console) returns (end: LoopEnd)
    modifies Footprint(m), http, console
    ensures var run := ReadLoop(old(ModelOf(m)), trace, http.server);
      && end == run.end
      && ModelOf(m) == run.model
      && console.out == old(console.out) + run.out
      && http.requested == old(http.requested) + run.requested
    ensures DoneCalls(m) == old(DoneCalls(m))
  {
    ghost var server := http.server;
    ghost var out0, req0 := console.out, http.requested;
    ghost var total := ReadLoop(ModelOf(m), trace, server);
    ghost var doneReq: seq<string> := [];
    ghost var outSoFar: seq<Piece> := [];
    ghost var model := ModelOf(m);
    var i := 0;
    while i < |trace|
      invariant 0 <= i <= |trace|
      invariant ModelOf(m) == model
      invariant console.out == out0 + outSoFar && http.requested == req0 + doneReq
      invariant total == After(outSoFar, doneReq, ReadLoop(model, trace[i..], server))
      invariant DoneCalls(m) == old(DoneCalls(m))
    {
      ghost var rest := trace[i + 1..];
      assert trace[i..] == [trace[i]] + rest;
      Advance(total, outSoFar, doneReq, model, trace[i], rest, server);
      ghost var st := TurnStep(model, trace[i], server);
      ghost var outPrev, reqPrev := outSoFar, doneReq;
      outSoFar, doneReq := outSoFar + st.out, doneReq + st.requested;
      end := Turn(m, trace[i], http, console);
      model := ModelOf(m);
      AppendAssoc(out0, outPrev, st.out);
      AppendAssoc(req0, reqPrev, st.requested);
      if end != Waiting {
        return;
      }
      i := i + 1;
    }
    assert trace[i..] == [];
    return Waiting;
  }

  /** `read_from_websocket`: `done` runs on every exit from the loop. */
  method ReadFromWebsocket(m: Matcher, trace: seq<Event>, http: HttpClient, console: Console) returns (end: LoopEnd)
    modifies Footprint(m), http, console
    ensures var run := ReadLoop(old(ModelOf(m)), trace, http.server);
      && end == run.end
      && ModelOf(m) == run.model
      && console.out == old(console.out) + run.out
      && http.requested == old(http.requested) + run.requested
    ensures DoneCalls(m) == old(DoneCalls(m)) + (if end == Waiting then 0 else 1)
  {
    end := ReceiveLoop(m, trace, http, console);
    if end != Waiting {
      Done(m);
    }
  }

  /** `tenacity.retry` on `display_job_output`: at most four attempts, two seconds apart, retried
      only while the server rejects the WebSocket. */
  const MaxAttempts: nat := 4
  const RetryWaitSeconds: nat := 2

  /** `str(t)` of the float timeouts the commands pass (`click.FLOAT`, default `math.inf`). */
  function FloatText(t: Timeout): (r: string)
    ensures r == "inf" <==> t.Infinite?
    ensures t.Finite? ==> r == IntToString(t.seconds) + ".0"
  {
    if t.Infinite? then "inf"
    else
      var r := IntToString(t.seconds) + ".0";
      assert r[|r| - 1] != "inf"[2];
      r
  }

  /** The connection, retried: `connect(j)` is how attempt `j` (from 0) of opening the WebSocket
      ends. */
  method ConnectWithRetry(connect: nat -> ConnectResult) returns (result: ConnectResult, attempts: nat, slept: nat)
    ensures 1 <= attempts <= MaxAttempts
    ensures result == connect(attempts - 1)
    ensures forall j :: 0 <= j < attempts - 1 ==> connect(j).Rejected?
    ensures result.Rejected? ==> attempts == MaxAttempts
    ensures slept == RetryWaitSeconds * (attempts - 1)
  {
    attempts, slept := 1, 0;
    result := connect(0);
    while result.Rejected? && attempts < MaxAttempts
      invariant 1 <= attempts <= MaxAttempts
      invariant result == connect(attempts - 1)
      invariant forall j :: 0 <= j < attempts - 1 ==> connect(j).Rejected?
      invariant slept == RetryWaitSeconds * (attempts - 1)
      decreases MaxAttempts - attempts
    {
      slept := slept + RetryWaitSeconds;
      result := connect(attempts);
      attempts := attempts + 1;
    }
  }

  /** The matcher model a fresh matcher of the given class starts from. */
  function InitialModel(kind: MatcherKind): (m: MatcherModel)
    ensures m.UnityModel? <==> kind == UnityKind
  {
    if kind == UnityKind then UnityModel(Initial) else EmptyModel
  }

  /** The exception a loop end raises out of `display_job_output`. */
  function EndRaised(end: LoopEnd): Raised
    requires end != CleanEnd && end != Waiting
  {
    match end
    case RaisedInterMessage => InterMessageTimeout
    case RaisedTooSlow => TooSlow
    case RaisedClosed(reason) => ConnectionClosed(Some(reason))
    case RaisedHttp(status) => HttpError(status)
  }

  /** What `run_job_output` reports once the connection has ended as `c` and, if it opened, the
      receive loop has run over `trace`: a clean end exits with the matcher's exit code, an error
      as the `except` clauses say. `None` when the trace ends with the session still open. */
  function SessionReport(c: ConnectResult, trace: seq<Event>, testRunner: Option<string>,
                         overall: Timeout, message: Timeout, debug: bool, server: string -> Response): Option<Report>
  {
    if !c.Connected? then
      Some(ErrorReport(ConnectRaised(c), overall, FloatText(overall), message, FloatText(message), debug))
    else
      var run := ReadLoop(InitialModel(TestMatcherFactory(testRunner)), trace, server);
      if run.end == Waiting then None
      else if run.end == CleanEnd then Some(Report([], Some(ModelExitCode(run.model)), false))
      else Some(ErrorReport(EndRaised(run.end), overall, FloatText(overall), message, FloatText(message), debug))
  }

  /** What the session puts on the terminal. */
  function SessionOutput(c: ConnectResult, trace: seq<Event>, testRunner: Option<string>, server: string -> Response): seq<Piece>
  {
    if c.Connected? then ReadLoop(InitialModel(TestMatcherFactory(testRunner)), trace, server).out else []
  }

  /** `run_job_output` around `display_job_output`: connect with retry, build the matcher the
      factory picks, run the receive loop and turn its end into a report. */
  method RunJobOutput(connect: nat -> ConnectResult, trace: seq<Event>, testRunner: Option<string>,
                      overall: Timeout, message: Timeout, debug: bool, http: HttpClient, console: Console)
    returns (report: Option<Report>, attempts: nat)
    modifies http, console
    ensures 1 <= attempts <= MaxAttempts
    ensures forall j :: 0 <= j < attempts - 1 ==> connect(j).Rejected?
    ensures connect(attempts - 1).Rejected? ==> attempts == MaxAttempts
    ensures report == SessionReport(connect(attempts - 1), trace, testRunner, overall, message, debug, http.server)
    ensures console.out == old(console.out) + SessionOutput(connect(attempts - 1), trace, testRunner, http.server)
  {
    var c, n, slept := ConnectWithRetry(connect);
    attempts := n;
    if !c.Connected? {
      report := Some(ErrorReport(ConnectRaised(c), overall, FloatText(overall), message, FloatText(message), debug));
      return;
    }
    var kind := TestMatcherFactory(testRunner);
    var m := NewMatcher(kind);
    var end := ReadFromWebsocket(m, trace, http, console);
    if end == Waiting {
      report := None;
    } else if end == CleanEnd {
      var code := match m case UnityObj(u) => u.ExitCode() case EmptyObj(e) => e.ExitCode();
      report := Some(Report([], Some(code), false));
    } else {
      report := Some(ErrorReport(EndRaised(end), overall, FloatText(overall), message, FloatText(message), debug));
    }
  }

  /** Every payload of the data frames of a trace, in order. */
  function AllPayloads(trace: seq<Event>): seq<string>
  {
    if trace == [] then []
    else
      (if trace[0].Frame? && trace[0].envelope.data.Some? then Payloads(trace[0].envelope.data.value) else [])
      + AllPayloads(trace[1..])
  }

  predicate DataFramesOnly(trace: seq<Event>)
  {
    forall i :: 0 <= i < |trace| ==> trace[i].Frame? && trace[i].envelope.data.Some?
  }

  /** The passthrough matcher echoes everything it is fed. */
  lemma {:induction false} FeedChunksEmpty(chunks: seq<string>)
    ensures FeedChunks(EmptyModel, chunks).0 == EmptyModel
    ensures FeedChunks(EmptyModel, chunks).1 == EchoChunks(chunks)
    ensures Render(FeedChunks(EmptyModel, chunks).1) == Concat(chunks)
  {
    if chunks != [] {
      FeedChunksEmpty(chunks[..|chunks| - 1]);
    }
    EchoChunksRender(chunks);
  }

  /** Data frames through the passthrough matcher: the terminal shows the payloads, in order,
      and the loop goes on to whatever follows them. */
  lemma {:induction false} StreamedPayloads(trace: seq<Event>, tail: seq<Event>, server: string -> Response)
    requires DataFramesOnly(trace)
    ensures var run := ReadLoop(EmptyModel, trace + tail, server);
      var rest := ReadLoop(EmptyModel, tail, server);
      && run.end == rest.end && run.model == rest.model && run.requested == rest.requested
      && Render(run.out) == Concat(AllPayloads(trace)) + Render(rest.out)
  {
    if trace == [] {
      assert trace + tail == tail;
    } else {
      var later := trace[1..] + tail;
      assert trace + tail == [trace[0]] + later;
      DataFramesOnlyTail(trace);
      StreamedPayloads(trace[1..], tail, server);
      DataFrameStep(trace[0], later, server);
      var first := Payloads(trace[0].envelope.data.value);
      assert AllPayloads(trace) == first + AllPayloads(trace[1..]);
      ConcatAppend(first, AllPayloads(trace[1..]));
      AppendAssoc(Concat(first), Concat(AllPayloads(trace[1..])), Render(ReadLoop(EmptyModel, tail, server).out));
    }
  }

  lemma DataFramesOnlyTail(trace: seq<Event>)
    requires trace != [] && DataFramesOnly(trace)
    ensures DataFramesOnly(trace[1..]) && trace[0].Frame? && trace[0].envelope.data.Some?
  {
    assert forall i :: 0 <= i < |trace| - 1 ==> trace[1..][i] == trace[i + 1];
  }

  /** One data frame through the passthrough matcher. */
  lemma DataFrameStep(e: Event, rest: seq<Event>, server: string -> Response)
    requires e.Frame? && e.envelope.data.Some?
    ensures var r := ReadLoop(EmptyModel, [e] + rest, server);
      var later := ReadLoop(EmptyModel, rest, server);
      && r.end == later.end && r.model == later.model && r.requested == later.requested
      && Render(r.out) == Concat(Payloads(e.envelope.data.value)) + Render(later.out)
  {
    var chunks := Payloads(e.envelope.data.value);
    FeedChunksEmpty(chunks);
    assert ([e] + rest)[0] == e && ([e] + rest)[1..] == rest;
    RenderAppend(FeedChunks(EmptyModel, chunks).1, ReadLoop(EmptyModel, rest, server).out);
  }

  /** A job that streams data frames and then closes cleanly, watched without a test runner:
      the terminal shows exactly the concatenated payloads and the command exits with 0. */
  lemma StreamingSession(trace: seq<Event>, reason: Option<CloseReason>, testRunner: Option<string>,
                         overall: Timeout, message: Timeout, debug: bool, server: string -> Response)
    requires testRunner != Some("unity")
    requires DataFramesOnly(trace) && IsCleanClose(reason)
    ensures SessionReport(Connected, trace + [Closed(reason)], testRunner, overall, message, debug, server)
      == Some(Report([], Some(0), false))
    ensures Render(SessionOutput(Connected, trace + [Closed(reason)], testRunner, server)) == Concat(AllPayloads(trace))
  {
    StreamedPayloads(trace, [Closed(reason)], server);
    assert [Closed(reason)][1..] == [];
  }

  /** A frame of URLs that all answer 200 with the same body: every URL is requested once, in
      order, nothing fails, and the terminal shows the body once per URL. */
  lemma DownloadFrame(m: MatcherModel, urls: seq<string>, content: string, server: string -> Response)
    requires forall i :: 0 <= i < |urls| ==> server(urls[i]) == Response(200, [content])
    ensures var st := MessageStep(m, Envelope(None, Some(urls)), server);
      && st.model == m && st.requested == urls && st.failed == None
      && Render(st.out) == Repeat(content, |urls|)
  {
    AllSucceed(urls, server);
    assert urls[..|urls|] == urls;
    UniformBodies(urls, server, content);
    BodiesRender(urls, server);
  }

  /** A clean end with the Unity matcher exits with 1 exactly when some complete line of the
      streamed payloads, before the summary separator, holds the failure marker. */
  lemma UnityCleanExit(chunks: seq<string>)
    ensures var lines := Split(Concat(chunks), '\n');
      ModelExitCode(FeedChunks(UnityModel(Initial), chunks).0) == 1 <==> FailsBeforeSummary(lines[..|lines| - 1])
  {
    FeedChunksUnity(Initial, chunks);
    ExitCodeIffFailLine(chunks);
  }

  /** Through the Unity matcher, feeding chunks is the matcher's own stream of `feed` calls. */
  lemma {:induction false} FeedChunksUnity(s: UnityState, chunks: seq<string>)
    ensures FeedChunks(UnityModel(s), chunks) == (UnityModel(FeedAll(s, chunks).0), FeedAll(s, chunks).1)
  {
    if chunks != [] {
      FeedChunksUnity(s, chunks[..|chunks| - 1]);
    }
  }
}
