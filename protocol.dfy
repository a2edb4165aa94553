/** What the job-output sessions of lager_cli/status.py and lager/status.py share: the decoded
    message envelope, WebSocket close reasons, timeouts, and HTTP downloads of referenced
    content. */
module Protocol {
  import opened Wrappers
  import opened Text
  import opened Terminal

  /** One element of a `data` list: `{'entry': {'payload': ...}}`, the payload optional. */
  datatype Item = Item(payload: Option<string>)

  /** A decoded frame: the `data` and `urls` keys, either of which may be missing. */
  datatype Envelope = Envelope(data: Option<seq<Item>>, urls: Option<seq<string>>)

  /** Close code 1000, normal closure (section 7.4.1 of RFC 6455). */
  const NormalClosure: int := 1000

  /** The reason a `ConnectionClosed` carries: a close code and an optional reason text. */
  datatype CloseReason = CloseReason(code: int, reason: Option<string>)

  /** A timeout option: whole seconds (the options accept negative values), or the default
      `math.inf`. */
  datatype Timeout = Finite(seconds: int) | Infinite

  /** The payloads of a `data` list, in order, skipping entries without one. */
  function Payloads(items: seq<Item>): (r: seq<string>)
    ensures |r| <= |items|
  {
    if items == [] then []
    else
      var last := items[|items| - 1];
      Payloads(items[..|items| - 1]) + (if last.payload.Some? then [last.payload.value] else [])
  }

  /** An HTTP response: its status code and the chunks `iter_content` yields. */
  datatype Response = Response(status: int, body: seq<string>)

  /** Whether `raise_for_status` raises: a 4xx or 5xx status. */
  predicate RaisesForStatus(r: Response)
  {
    400 <= r.status < 600
  }

  /** An HTTP client for plain GET requests, logging every URL it was asked for. */
  class HttpClient {
    /** What the server answers for each URL. */
    const server: string -> Response
    var requested: seq<string>

    constructor (server: string -> Response)
      ensures this.server == server && requested == []
    {
      this.server := server;
      requested := [];
    }

    method Get(url: string) returns (r: Response)
      modifies this
      ensures r == server(url) && requested == old(requested) + [url]
    {
      r := server(url);
      requested := requested + [url];
    }
  }

  /** The number of URLs whose responses do not raise before the first one that does. */
  function FirstFailing(urls: seq<string>, server: string -> Response): (k: nat)
    ensures k <= |urls|
    ensures k < |urls| ==> RaisesForStatus(server(urls[k]))
  {
    if urls == [] then 0
    else if RaisesForStatus(server(urls[0])) then 0
    else 1 + FirstFailing(urls[1..], server)
  }

  /** Every response before the first failing one succeeds. */
  lemma {:induction false} BeforeFirstFailing(urls: seq<string>, server: string -> Response, j: nat)
    requires j < FirstFailing(urls, server)
    ensures !RaisesForStatus(server(urls[j]))
  {
    if j > 0 {
      BeforeFirstFailing(urls[1..], server, j - 1);
    }
  }

  /** The body chunks of the given URLs' responses, in URL order. */
  function Bodies(urls: seq<string>, server: string -> Response): seq<string>
  {
    if urls == [] then [] else Bodies(urls[..|urls| - 1], server) + server(urls[|urls| - 1]).body
  }

  /** `stream_response`: every chunk of the body echoed in order without a newline. */
  method StreamResponse(response: Response, console: Console)
    modifies console
    ensures console.out == old(console.out) + EchoChunks(response.body)
  {
    var i := 0;
    while i < |response.body|
      invariant 0 <= i <= |response.body|
      invariant console.out == old(console.out) + EchoChunks(response.body[..i])
    {
      assert response.body[..i + 1][..i] == response.body[..i];
      console.Echo(response.body[i], Plain, false);
      i := i + 1;
    }
    assert response.body[..i] == response.body;
  }

  /** `handle_url_message`: fetch the URLs strictly one after another and stream each body to
      the terminal, bypassing any matcher; the first response that raises stops the loop, so no
      later URL is requested. Returns the failing status, if any. */
  method HandleUrlMessage(urls: seq<string>, http: HttpClient, console: Console) returns (failed: Option<int>)
    modifies http, console
    ensures var k := FirstFailing(urls, http.server);
      && http.requested == old(http.requested) + (if k < |urls| then urls[..k + 1] else urls)
      && console.out == old(console.out) + EchoChunks(Bodies(urls[..k], http.server))
      && failed == (if k < |urls| then Some(http.server(urls[k]).status) else None)
  {
    ghost var server := http.server;
    ghost var k := FirstFailing(urls, server);
    ghost var out0, req0 := console.out, http.requested;
    ghost var bodies: seq<string> := [];
    var i := 0;
    while i < |urls|
      invariant 0 <= i <= k
      invariant http.server == server
      invariant http.requested == req0 + urls[..i]
      invariant bodies == Bodies(urls[..i], server)
      invariant console.out == out0 + EchoChunks(bodies)
    {
      var response := http.Get(urls[i]);
      assert urls[..i + 1] == urls[..i] + [urls[i]];
      AppendAssoc(req0, urls[..i], [urls[i]]);
      if RaisesForStatus(response) {
        if i < k {
          BeforeFirstFailing(urls, server, i);
        }
        return Some(response.status);
      }
      StreamResponse(response, console);
      BodiesSnoc(urls, i, server);
      EchoChunksAppend(bodies, response.body);
      AppendAssoc(out0, EchoChunks(bodies), EchoChunks(response.body));
      bodies := bodies + response.body;
      i := i + 1;
    }
    assert urls[..i] == urls;
    return None;
  }

  lemma BodiesSnoc(urls: seq<string>, i: nat, server: string -> Response)
    requires i < |urls|
    ensures Bodies(urls[..i + 1], server) == Bodies(urls[..i], server) + server(urls[i]).body
  {
    assert urls[..i + 1][..i] == urls[..i];
  }

  /** Downloads that all succeed put exactly the concatenated bodies on the terminal. */
  lemma {:induction false} BodiesRender(urls: seq<string>, server: string -> Response)
    ensures Render(EchoChunks(Bodies(urls, server))) == Concat(Bodies(urls, server))
  {
    EchoChunksRender(Bodies(urls, server));
  }

  /** When no response raises, every URL is downloaded. */
  lemma {:induction false} AllSucceed(urls: seq<string>, server: string -> Response)
    requires forall i :: 0 <= i < |urls| ==> !RaisesForStatus(server(urls[i]))
    ensures FirstFailing(urls, server) == |urls|
  {
    if urls != [] {
      assert forall i :: 0 <= i < |urls| - 1 ==> urls[1..][i] == urls[i + 1];
      AllSucceed(urls[1..], server);
    }
  }

  /** `s * n` */
  function Repeat(s: string, n: nat): string
  {
    if n == 0 then [] else Repeat(s, n - 1) + s
  }

  /** URLs that all answer with the same one-chunk body give that body once per URL. */
  lemma {:induction false} UniformBodies(urls: seq<string>, server: string -> Response, content: string)
    requires forall i :: 0 <= i < |urls| ==> server(urls[i]).body == [content]
    ensures Concat(Bodies(urls, server)) == Repeat(content, |urls|)
  {
    if urls != [] {
      var init := urls[..|urls| - 1];
      assert forall i :: 0 <= i < |init| ==> init[i] == urls[i];
      UniformBodies(init, server, content);
      ConcatAppend(Bodies(init, server), [content]);
      assert Concat([content]) == content by {
        assert [content][..0] == [];
      }
    }
  }

  /** How opening the WebSocket ended: connected, a handshake that timed out (trio-websocket's
      `ConnectionTimeout`, which carries no status code), a refused connection, or a rejection
      with the server's HTTP status. */
  datatype ConnectResult = Connected | HandshakeTimedOut | Refused | Rejected(status: int)

  /** The exceptions that reach `run_job_output`. */
  datatype Raised =
    | TooSlow                                       // trio.TooSlowError
    | InterMessageTimeout
    | HttpError(status: int)                        // requests.exceptions.HTTPError
    | HandshakeTimeout                              // a HandshakeError without a status code
    | ConnectionClosed(reason: Option<CloseReason>)
    | ConnectionRefused
    | ConnectionRejected(status: int)

  function ConnectRaised(c: ConnectResult): (e: Raised)
    requires !c.Connected?
  {
    match c
    case HandshakeTimedOut => HandshakeTimeout
    case Refused => ConnectionRefused
    case Rejected(s) => ConnectionRejected(s)
  }

  /** The fixed messages `run_job_output` prints. */
  const RefusedText := "Lager API websocket connection refused!"
  const ClosedUnexpectedlyText := "API websocket closed unexpectedly"
  const ClosedAbnormallyText := "API websocket closed abnormally"
  const CannotConnectText := "Could not connect to API websocket"
  const JobNotFoundText := "Job not found"
  const RetrieveErrorText := "Error retrieving test run content"
  const ContentNotFoundText := "Test run content not found"

  /** What `run_job_output` does with an outcome: the red lines it writes to stderr, the code it
      passes to `ctx.exit` (if it gets that far), and whether an exception leaves it. */
  datatype Report = Report(stderr: seq<string>, exit: Option<int>, propagates: bool)

  predicate IsNormalEof(reason: CloseReason)
  {
    reason.code == NormalClosure && reason.reason == Some("EOF")
  }

  /** The test `heartbeat` and `read_from_websocket` apply to a `ConnectionClosed`: no reason,
      or normal closure with reason `EOF`, is a clean end; anything else is re-raised. */
  predicate IsCleanClose(reason: Option<CloseReason>)
  {
    reason.None? || IsNormalEof(reason.value)
  }

  /** What one ping of the heartbeat meets: a pong in time, no pong within the timeout, or a
      closed connection. */
  datatype Ping = Pong | PongLate | PingClosed(reason: Option<CloseReason>)

  /** How the heartbeat ends; `StillBeating` is a sequence of pings that ran out first (the task
      runs until cancelled). */
  datatype BeatEnd = StillBeating | BeatReturned | BeatTooSlow | BeatRaisedClosed(reason: CloseReason)

  /** The timeout and interval `display_job_output` starts the heartbeat with. */
  const HeartbeatTimeout: nat := 30
  const HeartbeatInterval: nat := 30

  /** The number of pongs before the first ping that does not get one in time. */
  function FirstNonPong(pings: seq<Ping>): (k: nat)
    ensures k <= |pings|
    ensures k < |pings| ==> !pings[k].Pong?
  {
    if pings == [] || !pings[0].Pong? then 0 else 1 + FirstNonPong(pings[1..])
  }

  lemma {:induction false} BeforeFirstNonPong(pings: seq<Ping>, j: nat)
    requires j < FirstNonPong(pings)
    ensures pings[j].Pong?
  {
    if j > 0 {
      BeforeFirstNonPong(pings[1..], j - 1);
    }
  }

  /** How a ping that is not answered in time ends the heartbeat. */
  function BeatOutcome(p: Ping): (r: BeatEnd)
    requires !p.Pong?
    ensures r == BeatReturned <==> p.PingClosed? && IsCleanClose(p.reason)
    ensures r == BeatTooSlow <==> p.PongLate?
  {
    if p.PongLate? then BeatTooSlow
    else if p.reason.None? then BeatReturned
    else if p.reason.value.code != NormalClosure || p.reason.value.reason != Some("EOF") then BeatRaisedClosed(p.reason.value)
    else BeatReturned
  }

  /** `heartbeat`: ping, wait `interval` after every pong, and stop at the first ping that is
      late (raising `TooSlowError`) or meets a closed connection (returning on a clean close,
      re-raising otherwise). `slept` is the time spent waiting between pings. */
  method Heartbeat(pings: seq<Ping>, interval: nat) returns (end: BeatEnd, slept: nat)
    ensures var k := FirstNonPong(pings);
      && end == (if k == |pings| then StillBeating else BeatOutcome(pings[k]))
      && slept == interval * k
  {
    slept := 0;
    var i := 0;
    while i < |pings|
      invariant 0 <= i <= FirstNonPong(pings)
      invariant slept == interval * i
    {
      match pings[i] {
        case Pong =>
          if i == FirstNonPong(pings) {
            assert false;
          }
          slept := slept + interval;
        case PongLate =>
          if i < FirstNonPong(pings) {
            BeforeFirstNonPong(pings, i);
          }
          return BeatTooSlow, slept;
        case PingClosed(reason) =>
          if i < FirstNonPong(pings) {
            BeforeFirstNonPong(pings, i);
          }
          if reason.None? {
            return BeatReturned, slept;
          }
          if reason.value.code != NormalClosure || reason.value.reason != Some("EOF") {
            return BeatRaisedClosed(reason.value), slept;
          }
          return BeatReturned, slept;
      }
      i := i + 1;
    }
    return StillBeating, slept;
  }

  /** "second" or "seconds": singular only for a timeout of exactly 1. */
  function SecondsWord(t: Timeout): (w: string)
    ensures w == "second" <==> t == Finite(1)
  {
    if t == Finite(1) then "second" else "seconds"
  }

  /** The `except` clauses of `run_job_output`, with each timeout as the text its f-string gives
      it. A `ConnectionClosed` without a reason fails on `exc.reason.code` with an
      `AttributeError`, which escapes. `ConnectionRejected` is a subclass of `HandshakeError`, so
      the `HandshakeError` clause catches every rejection and the later `ConnectionRejected`
      clause never runs; a handshake error without a status code fails on `exc.status_code`
      with an `AttributeError`, which escapes before anything is printed. */
  function ErrorReport(e: Raised, overall: Timeout, overallText: string, message: Timeout, messageText: string, debug: bool): Report
  {
    var stop := if debug then None else Some(1);
    match e
    case TooSlow =>
      Report(["Job status timed out after " + overallText + " " + SecondsWord(overall)], Some(1), false)
    case InterMessageTimeout =>
      Report(["Timed out after no messages received for " + messageText + " " + SecondsWord(message)], Some(1), false)
    case HttpError(status) =>
      Report([if status == 404 then ContentNotFoundText else RetrieveErrorText], None, debug)
    case HandshakeTimeout =>
      Report([], None, true)
    case ConnectionClosed(reason) =>
      if reason.None? then Report([], None, true)
      else if reason.value.code != NormalClosure then Report([ClosedAbnormallyText], stop, debug)
      else if reason.value.reason != Some("EOF") then Report([ClosedUnexpectedlyText], stop, debug)
      else Report([], None, false)
    case ConnectionRefused =>
      Report([RefusedText], stop, debug)
    case ConnectionRejected(status) =>
      Report([if status == 404 then JobNotFoundText else CannotConnectText], stop, debug)
  }

  /** The exit side of the outcome table of `run_job_output`: an escaping `AttributeError` (a
      close without a reason, a handshake error without a status code), a clean end, a failed
      download that only prints, both timeouts exiting with status 1 even under `--debug`, and
      every other error exiting with status 1 (or propagating under `--debug`). */
  lemma ErrorReportExit(e: Raised, overall: Timeout, overallText: string, message: Timeout, messageText: string, debug: bool, r: Report)
    requires r == ErrorReport(e, overall, overallText, message, messageText, debug)
    ensures e.ConnectionClosed? && e.reason.None? ==> r == Report([], None, true)
    ensures e.HandshakeTimeout? ==> r == Report([], None, true)
    ensures e.ConnectionClosed? && e.reason.Some? && IsNormalEof(e.reason.value) ==> r == Report([], None, false)
    ensures e.HttpError? ==> r.exit == None && r.propagates == debug
    ensures e.TooSlow? || e.InterMessageTimeout? ==> r.exit == Some(1) && !r.propagates
    ensures !e.HttpError? && !e.TooSlow? && !e.InterMessageTimeout? && !e.HandshakeTimeout? && !(e.ConnectionClosed? && (e.reason.None? || IsNormalEof(e.reason.value))) ==>
      r.propagates == debug && r.exit == (if debug then None else Some(1))
  {
    match e {
      case TooSlow =>
      case InterMessageTimeout =>
      case HttpError(_) =>
      case HandshakeTimeout =>
      case ConnectionClosed(_) =>
      case ConnectionRefused =>
      case ConnectionRejected(_) =>
    }
  }

  /** The message side of the table: exactly the clean closes and the escaping `AttributeError`s
      print nothing; everything else, every rejection included, prints one line. */
  lemma ErrorReportSilent(e: Raised, overall: Timeout, overallText: string, message: Timeout, messageText: string, debug: bool, r: Report)
    requires r == ErrorReport(e, overall, overallText, message, messageText, debug)
    ensures |r.stderr| ==
      if (e.ConnectionClosed? && (e.reason.None? || IsNormalEof(e.reason.value))) || e.HandshakeTimeout?
      then 0 else 1
  {
    match e {
      case TooSlow =>
      case InterMessageTimeout =>
      case HttpError(_) =>
      case HandshakeTimeout =>
      case ConnectionClosed(_) =>
      case ConnectionRefused =>
      case ConnectionRejected(_) =>
    }
  }

  /** The two timeouts name their own limit; a rejection with 404 means the job is unknown, and
      any other rejection, a server error included, is "Could not connect". */
  lemma ErrorReportMessages(e: Raised, overall: Timeout, overallText: string, message: Timeout, messageText: string, debug: bool, r: Report)
    requires r == ErrorReport(e, overall, overallText, message, messageText, debug)
    ensures e.TooSlow? ==> r.stderr == ["Job status timed out after " + overallText + " " + SecondsWord(overall)]
    ensures e.InterMessageTimeout? ==> r.stderr == ["Timed out after no messages received for " + messageText + " " + SecondsWord(message)]
    ensures e.ConnectionRejected? && e.status == 404 ==> r.stderr == [JobNotFoundText]
    ensures e.ConnectionRejected? && e.status != 404 ==> r.stderr == [CannotConnectText]
  {
    match e {
      case TooSlow =>
      case InterMessageTimeout =>
      case HttpError(_) =>
      case HandshakeTimeout =>
      case ConnectionClosed(_) =>
      case ConnectionRefused =>
      case ConnectionRejected(_) =>
    }
  }
}
