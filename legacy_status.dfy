/** The job-output session of lager/status.py, the older package: payloads are echoed directly,
    there is no matcher, no heartbeat and no retry, and every `ConnectionClosed` escapes the
    receive loop to the `except` table. */
module LegacyStatus {
  import opened Wrappers
  import opened Text
  import opened Terminal
  import opened Protocol
  import Matchers
  import CliStatus

  /** What the receive loop observes next. */
  datatype Event =
    | Frame(envelope: Envelope)
    | Silence
    | OverallDeadline
    | Closed(reason: Option<CloseReason>)

  /** What one message does to the terminal and the requests, and the status that raised. */
  datatype Step = Step(out: seq<Piece>, requested: seq<string>, failed: Option<int>)

  /** `handle_message`: payloads echoed without a newline, otherwise the URLs downloaded. */
  function MessageStep(env: Envelope, server: string -> Response): Step
  {
    if env.data.Some? then Step(EchoChunks(Payloads(env.data.value)), [], None)
    else if env.urls.Some? then
      var urls := env.urls.value;
      var k := FirstFailing(urls, server);
      Step(EchoChunks(Bodies(urls[..k], server)),
           if k < |urls| then urls[..k + 1] else urls,
           if k < |urls| then Some(server(urls[k]).status) else None)
    else Step([], [], None)
  }

  /** The exception an event that is not a frame raises out of the loop. */
  function StopOf(e: Event): Raised
    requires !e.Frame?
  {
    match e
    case Silence => InterMessageTimeout
    case OverallDeadline => TooSlow
    case Closed(reason) => ConnectionClosed(reason)
  }

  /** How far the loop got: the exception that ended it (`None` while the trace ran out first),
      the terminal output and the requests. */
  datatype Run = Run(raised: Option<Raised>, out: seq<Piece>, requested: seq<string>)

  /** The `while True` loop of `display_job_output` over a trace. */
  function ReadLoop(trace: seq<Event>, server: string -> Response): Run
    decreases |trace|
  {
    if trace == [] then Run(None, [], [])
    else if trace[0].Frame? then
      var st := MessageStep(trace[0].envelope, server);
      if st.failed.Some? then Run(Some(HttpError(st.failed.value)), st.out, st.requested)
      else
        var rest := ReadLoop(trace[1..], server);
        Run(rest.raised, st.out + rest.out, st.requested + rest.requested)
    else Run(Some(StopOf(trace[0])), [], [])
  }

  /** `handle_data_message` */
  method HandleDataMessage(items: seq<Item>, console: Console)
    modifies console
    ensures console.out == old(console.out) + EchoChunks(Payloads(items))
  {
    ghost var out0 := console.out;
    ghost var chunks: seq<string> := [];
    var i := 0;
    while i < |items|
      invariant 0 <= i <= |items|
      invariant chunks == Payloads(items[..i])
      invariant console.out == out0 + EchoChunks(chunks)
    {
      var entry := items[i];
      assert items[..i + 1] == items[..i] + [entry];
      assert (items[..i] + [entry])[..i] == items[..i];
      if entry.payload.Some? {
        console.Echo(entry.payload.value, Plain, false);
        EchoChunksAppend(chunks, [entry.payload.value]);
        assert EchoChunks([entry.payload.value]) == [Piece(entry.payload.value, Plain, false)];
        AppendAssoc(out0, EchoChunks(chunks), [Piece(entry.payload.value, Plain, false)]);
        chunks := chunks + [entry.payload.value];
      }
      i := i + 1;
    }
    assert items[..i] == items;
  }

  /** `handle_message` */
  method HandleMessage(env: Envelope, http: HttpClient, console: Console) returns (failed: Option<int>)
    modifies http, console
    ensures console.out == old(console.out) + MessageStep(env, http.server).out
    ensures http.requested == old(http.requested) + MessageStep(env, http.server).requested
    ensures failed == MessageStep(env, http.server).failed
  {
    if env.data.Some? {
      HandleDataMessage(env.data.value, console);
      return None;
    }
    if env.urls.Some? {
      failed := HandleUrlMessage(env.urls.value, http, console);
      return;
    }
    return None;
  }

  /** The receive loop's bookkeeping across one frame that does not raise. */
  lemma Advance(total: Run, out: seq<Piece>, req: seq<string>, env: Envelope, rest: seq<Event>, server: string -> Response)
    requires MessageStep(env, server).failed.None?
    requires total == Run(ReadLoop([Frame(env)] + rest, server).raised,
                          out + ReadLoop([Frame(env)] + rest, server).out,
                          req + ReadLoop([Frame(env)] + rest, server).requested)
    ensures var st := MessageStep(env, server);
      total == Run(ReadLoop(rest, server).raised,
                   (out + st.out) + ReadLoop(rest, server).out,
                   (req + st.requested) + ReadLoop(rest, server).requested)
  {
    assert ([Frame(env)] + rest)[0] == Frame(env) && ([Frame(env)] + rest)[1..] == rest;
    var st := MessageStep(env, server);
    AppendAssoc(out, st.out, ReadLoop(rest, server).out);
    AppendAssoc(req, st.requested, ReadLoop(rest, server).requested);
  }

  /** `display_job_output` once connected: handle frames in arrival order until an event or a
      failed download raises. */
  method DisplayJobOutput(trace: seq<Event>, http: HttpClient, console: Console) returns (raised: Option<Raised>)
    modifies http, console
    ensures var run := ReadLoop(trace, http.server);
      && raised == run.raised
      && console.out == old(console.out) + run.out
      && http.requested == old(http.requested) + run.requested
  {
    ghost var server := http.server;
    ghost var out0, req0 := console.out, http.requested;
    ghost var total := Run(ReadLoop(trace, server).raised, out0 + ReadLoop(trace, server).out,
                           req0 + ReadLoop(trace, server).requested);
    var i := 0;
    while i < |trace|
      invariant 0 <= i <= |trace|
      invariant total == Run(ReadLoop(trace[i..], server).raised, console.out + ReadLoop(trace[i..], server).out,
                             http.requested + ReadLoop(trace[i..], server).requested)
    {
      assert trace[i..] == [trace[i]] + trace[i + 1..];
      assert ([trace[i]] + trace[i + 1..])[0] == trace[i] && ([trace[i]] + trace[i + 1..])[1..] == trace[i + 1..];
      if !trace[i].Frame? {
        assert console.out + [] == console.out && http.requested + [] == http.requested;
        match trace[i] {
          case Silence => return Some(InterMessageTimeout);
          case OverallDeadline => return Some(TooSlow);
          case Closed(reason) => return Some(ConnectionClosed(reason));
        }
      }
      ghost var outPrev, reqPrev := console.out, http.requested;
      var failed := HandleMessage(trace[i].envelope, http, console);
      if failed.Some? {
        assert console.out + [] == console.out && http.requested + [] == http.requested;
        return Some(HttpError(failed.value));
      }
      Advance(total, outPrev, reqPrev, trace[i].envelope, trace[i + 1..], server);
      i := i + 1;
    }
    assert console.out + [] == console.out && http.requested + [] == http.requested;
    return None;
  }

  /** `str(t)` of the integer timeouts the commands pass (`click.INT`, `None` becoming
      `math.inf`). */
  function IntText(t: Timeout): (r: string)
    ensures r == "inf" <==> t.Infinite?
    ensures t.Finite? ==> r == IntToString(t.seconds)
  {
    if t.Infinite? then "inf"
    else
      var r := IntToString(t.seconds);
      assert r[0] != 'i';
      r
  }

  /** What `run_job_output` reports: every end of the loop is an exception handled by the
      `except` table; `None` while the session is still open. */
  function SessionReport(c: ConnectResult, trace: seq<Event>, overall: Timeout, message: Timeout, debug: bool,
                         server: string -> Response): Option<Report>
  {
    if !c.Connected? then Some(ErrorReport(ConnectRaised(c), overall, IntText(overall), message, IntText(message), debug))
    else
      var raised := ReadLoop(trace, server).raised;
      if raised.None? then None
      else Some(ErrorReport(raised.value, overall, IntText(overall), message, IntText(message), debug))
  }

  /** `run_job_output` */
  method RunJobOutput(c: ConnectResult, trace: seq<Event>, overall: Timeout, message: Timeout, debug: bool,
                      http: HttpClient, console: Console) returns (report: Option<Report>)
    modifies http, console
    ensures report == SessionReport(c, trace, overall, message, debug, http.server)
    ensures console.out == old(console.out) + (if c.Connected? then ReadLoop(trace, http.server).out else [])
  {
    if !c.Connected? {
      return Some(ErrorReport(ConnectRaised(c), overall, IntText(overall), message, IntText(message), debug));
    }
    var raised := DisplayJobOutput(trace, http, console);
    if raised.None? {
      return None;
    }
    report := Some(ErrorReport(raised.value, overall, IntText(overall), message, IntText(message), debug));
  }

  /** Every payload of the data frames of a trace, in order. */
  function AllPayloads(trace: seq<Event>): seq<string>
  {
    if trace == [] then []
    else
      (if trace[0].Frame? && trace[0].envelope.data.Some? then Payloads(trace[0].envelope.data.value) else [])
      + AllPayloads(trace[1..])
  }

  predicate DataFramesOnly(trace: seq<Event>)
  {
    forall i :: 0 <= i < |trace| ==> trace[i].Frame? && trace[i].envelope.data.Some?
  }

  lemma DataFramesOnlyTail(trace: seq<Event>)
    requires trace != [] && DataFramesOnly(trace)
    ensures DataFramesOnly(trace[1..]) && trace[0].Frame? && trace[0].envelope.data.Some?
  {
    assert forall i :: 0 <= i < |trace| - 1 ==> trace[1..][i] == trace[i + 1];
  }

  /** Data frames are echoed payload by payload, and the loop goes on to whatever follows. */
  lemma {:induction false} StreamedPayloads(trace: seq<Event>, tail: seq<Event>, server: string -> Response)
    requires DataFramesOnly(trace)
    ensures var run := ReadLoop(trace + tail, server);
      var rest := ReadLoop(tail, server);
      && run.raised == rest.raised && run.requested == rest.requested
      && run.out == EchoChunks(AllPayloads(trace)) + rest.out
  {
    if trace == [] {
      assert trace + tail == tail;
      assert EchoChunks([]) + ReadLoop(tail, server).out == ReadLoop(tail, server).out;
    } else {
      var later := trace[1..] + tail;
      assert trace + tail == [trace[0]] + later;
      assert ([trace[0]] + later)[0] == trace[0] && ([trace[0]] + later)[1..] == later;
      DataFramesOnlyTail(trace);
      StreamedPayloads(trace[1..], tail, server);
      var first := Payloads(trace[0].envelope.data.value);
      assert AllPayloads(trace) == first + AllPayloads(trace[1..]);
      EchoChunksAppend(first, AllPayloads(trace[1..]));
      AppendAssoc(EchoChunks(first), EchoChunks(AllPayloads(trace[1..])), ReadLoop(tail, server).out);
    }
  }

  /** A normal `EOF` close is handled without a message or an exit call. */
  lemma EofCloseIsQuiet(reason: CloseReason, overall: Timeout, message: Timeout, debug: bool)
    requires IsNormalEof(reason)
    ensures ErrorReport(ConnectionClosed(Some(reason)), overall, IntText(overall), message, IntText(message), debug)
      == Report([], None, false)
  {
    ErrorReportExit(ConnectionClosed(Some(reason)), overall, IntText(overall), message, IntText(message), debug,
                    ErrorReport(ConnectionClosed(Some(reason)), overall, IntText(overall), message, IntText(message), debug));
  }

  /** The streaming case of the repository's own status tests: data frames and then the
      server's normal `EOF` close put the concatenated payloads on the terminal and end without
      an error message or an exit call. */
  lemma StreamingSession(trace: seq<Event>, reason: CloseReason, overall: Timeout, message: Timeout, debug: bool,
                         server: string -> Response)
    requires DataFramesOnly(trace) && IsNormalEof(reason)
    ensures SessionReport(Connected, trace + [Closed(Some(reason))], overall, message, debug, server)
      == Some(Report([], None, false))
    ensures Render(ReadLoop(trace + [Closed(Some(reason))], server).out) == Concat(AllPayloads(trace))
  {
    StreamedPayloads(trace, [Closed(Some(reason))], server);
    assert ReadLoop([Closed(Some(reason))], server) == Run(Some(ConnectionClosed(Some(reason))), [], []);
    EchoChunksRender(AllPayloads(trace));
    assert EchoChunks(AllPayloads(trace)) + [] == EchoChunks(AllPayloads(trace));
    EofCloseIsQuiet(reason, overall, message, debug);
  }

  /** A frame of URLs that all answer 200 with the same body: every URL is requested, in order,
      nothing fails, and the terminal shows the body once per URL. */
  lemma DownloadFrame(urls: seq<string>, content: string, server: string -> Response)
    requires forall i :: 0 <= i < |urls| ==> server(urls[i]) == Response(200, [content])
    ensures var st := MessageStep(Envelope(None, Some(urls)), server);
      && st.requested == urls && st.failed == None && Render(st.out) == Repeat(content, |urls|)
  {
    AllSucceed(urls, server);
    assert urls[..|urls|] == urls;
    UniformBodies(urls, server, content);
    BodiesRender(urls, server);
  }

  /** The download case of the same tests: one frame of URLs that all answer with the same body,
      then the normal close, shows the body once per URL. */
  lemma DownloadSession(urls: seq<string>, content: string, reason: CloseReason, overall: Timeout, message: Timeout,
                        debug: bool, server: string -> Response)
    requires forall i :: 0 <= i < |urls| ==> server(urls[i]) == Response(200, [content])
    requires IsNormalEof(reason)
    ensures var trace := [Frame(Envelope(None, Some(urls))), Closed(Some(reason))];
      && SessionReport(Connected, trace, overall, message, debug, server) == Some(Report([], None, false))
      && Render(ReadLoop(trace, server).out) == Repeat(content, |urls|)
      && ReadLoop(trace, server).requested == urls
  {
    var trace := [Frame(Envelope(None, Some(urls))), Closed(Some(reason))];
    DownloadFrame(urls, content, server);
    var st := MessageStep(Envelope(None, Some(urls)), server);
    assert trace[1..] == [Closed(Some(reason))];
    assert ReadLoop(trace[1..], server) == Run(Some(ConnectionClosed(Some(reason))), [], []);
    assert st.out + [] == st.out && st.requested + [] == st.requested;
    EofCloseIsQuiet(reason, overall, message, debug);
  }

  /** The same event in the newer session's terms. */
  function ToCli(e: Event): CliStatus.Event
  {
    match e
    case Frame(env) => CliStatus.Frame(env)
    case Silence => CliStatus.Silence
    case OverallDeadline => CliStatus.OverallDeadline
    case Closed(reason) => CliStatus.Closed(reason)
  }

  function ToCliTrace(trace: seq<Event>): (r: seq<CliStatus.Event>)
    ensures |r| == |trace|
  {
    if trace == [] then [] else [ToCli(trace[0])] + ToCliTrace(trace[1..])
  }

  /** How the newer session's loop ends where this one raises. */
  function CliEnd(raised: Option<Raised>): CliStatus.LoopEnd
  {
    if raised.None? then CliStatus.Waiting
    else match raised.value
      case InterMessageTimeout => CliStatus.RaisedInterMessage
      case HttpError(status) => CliStatus.RaisedHttp(status)
      case ConnectionClosed(reason) =>
        if IsCleanClose(reason) then CliStatus.CleanEnd else CliStatus.RaisedClosed(reason.value)
      case _ => CliStatus.RaisedTooSlow
  }

  /** Without a test runner the newer session shows the same output and makes the same requests
      as this one on every trace; they part only in how the loop ends, a clean close being a
      normal end there and an exception here. */
  lemma {:induction false} AgreesWithCli(trace: seq<Event>, server: string -> Response)
    ensures var legacy := ReadLoop(trace, server);
      var cli := CliStatus.ReadLoop(Matchers.EmptyModel, ToCliTrace(trace), server);
      && cli.out == legacy.out && cli.requested == legacy.requested
      && cli.model == Matchers.EmptyModel && cli.end == CliEnd(legacy.raised)
  {
    if trace != [] {
      AgreesWithCli(trace[1..], server);
      if trace[0].Frame? && trace[0].envelope.data.Some? {
        CliStatus.FeedChunksEmpty(Payloads(trace[0].envelope.data.value));
      }
    }
  }

  /** A close without a reason: the newer session ends normally with the matcher's exit code,
      while here `exc.reason.code` fails and the `AttributeError` escapes. */
  lemma CloseWithoutReason(overall: Timeout, message: Timeout, debug: bool, server: string -> Response)
    ensures SessionReport(Connected, [Closed(None)], overall, message, debug, server) == Some(Report([], None, true))
    ensures CliStatus.SessionReport(Connected, [CliStatus.Closed(None)], None, overall, message, debug, server)
      == Some(Report([], Some(0), false))
  {
  }
}
