/** The newer client's API context: how HTTP error statuses are reported, the openocd log
    filter, the WebSocket endpoint and its authorization header, and the choice of the default
    gateway. */
module Context {
  import opened Wrappers
  import opened Text
  import opened Terminal

  const DefaultHost := "https://lagerdata.com"
  const DefaultWebsocketHost := "wss://ws.lagerdata.com"
  const ApiPath := "/api/v1/"
  const HostVariable := "LAGER_HOST"
  const WebsocketHostVariable := "LAGER_WS_HOST"
  const GatewayKey := "gateway_id"

  /** The error codes whose description is an openocd log. */
  const OpenocdErrorCodes: set<string> := {"openocd_start_failed"}
  const ErrorMarker := "Error: "

  const CheckCredentialsText := "Please double check your login credentials and gateway id"
  const ServerErrorText := "Something went wrong with the Lager API"
  const NoGatewaysText := "No gateways found! Please contact support@lagerdata.com"

  // ---------------------------------------------------------------------------------------
  // Openocd error logs

  /** The lines that report an error, in their original order. */
  function ErrorLines(lines: seq<string>): (r: seq<string>)
    ensures |r| <= |lines|
    ensures forall x {:trigger x in r} :: x in r <==> x in lines && Contains(x, ErrorMarker)
  {
    if lines == [] then []
    else ErrorLines(lines[..|lines| - 1]) +
         (if Contains(lines[|lines| - 1], ErrorMarker) then [lines[|lines| - 1]] else [])
  }

  /** The filter keeps the error lines in order: filtering a concatenation filters each part. */
  lemma {:induction false} ErrorLinesAppend(a: seq<string>, b: seq<string>)
    ensures ErrorLines(a + b) == ErrorLines(a) + ErrorLines(b)
    decreases |b|
  {
    if b != [] {
      assert (a + b)[..|a + b| - 1] == a + b[..|b| - 1];
      ErrorLinesAppend(a, b[..|b| - 1]);
    } else {
      assert a + b == a;
    }
  }

  /** Each text as a red line on stderr. */
  function RedLines(lines: seq<string>): (r: seq<Piece>)
    ensures |r| == |lines| && forall i :: 0 <= i < |r| ==> r[i] == Piece(lines[i], Red, true)
  {
    seq(|lines|, i requires 0 <= i < |lines| => Piece(lines[i], Red, true))
  }

  /** What an openocd error prints: nothing for an empty description or an empty log,
      otherwise the log's error lines. `logfileOf` stands for decoding the description (JSON)
      and reading its `logfile` field; `None` is a `logfile` that is JSON null, which prints
      nothing too. A description that is not JSON, or one without a `logfile` key, raises in
      the source and is not modelled. */
  function OpenocdPieces(error: string, logfileOf: string -> Option<string>): seq<Piece>
  {
    if error == [] then []
    else if logfileOf(error).None? || logfileOf(error).value == [] then []
    else RedLines(ErrorLines(SplitLines(logfileOf(error).value)))
  }

  lemma ErrorLinesSnoc(lines: seq<string>, i: nat)
    requires i < |lines|
    ensures ErrorLines(lines[..i + 1]) ==
            ErrorLines(lines[..i]) + (if Contains(lines[i], ErrorMarker) then [lines[i]] else [])
  {
    assert lines[..i + 1][..i] == lines[..i];
  }

  lemma RedLinesSnoc(lines: seq<string>, x: string)
    ensures RedLines(lines + [x]) == RedLines(lines) + [Piece(x, Red, true)]
  {
  }

  /** Prints the error lines of the openocd log an error description carries. */
  method PrintOpenocdError(error: string, logfileOf: string -> Option<string>, stderr: Console)
    modifies stderr
    ensures stderr.out == old(stderr.out) + OpenocdPieces(error, logfileOf)
  {
    if error == [] {
      return;
    }
    var logfile := logfileOf(error);
    if logfile.None? || logfile.value == [] {
      return;
    }
    EchoErrorLines(SplitLines(logfile.value), stderr);
  }

  /** Prints, in red and in order, the lines that report an error. */
  method EchoErrorLines(lines: seq<string>, stderr: Console)
    modifies stderr
    ensures stderr.out == old(stderr.out) + RedLines(ErrorLines(lines))
  {
    var i := 0;
    while i < |lines|
      invariant 0 <= i <= |lines|
      invariant stderr.out == old(stderr.out) + RedLines(ErrorLines(lines[..i]))
    {
      ErrorLinesSnoc(lines, i);
      if Contains(lines[i], ErrorMarker) {
        RedLinesSnoc(ErrorLines(lines[..i]), lines[i]);
        stderr.Echo(lines[i], Red, true);
      }
      i := i + 1;
    }
    assert lines[..i] == lines;
  }

  // ---------------------------------------------------------------------------------------
  // HTTP error statuses

  /** The `error` object of a 422 reply. */
  datatype ApiError = ApiError(code: string, description: string)

  /** How a reply leaves the response hook: the process exits, `raise_for_status` raises, or
      the reply is handed back. */
  datatype Handled = Exited(code: int) | RaisesHttpError | Passes

  /** The gateway a 404 is reported for: the `--gateway` argument when it is non-empty, else
      the default gateway. */
  function ReportedGateway(param: Option<string>, default: Option<string>): Option<string>
  {
    if param.Some? && param.value != [] then param else default
  }

  /** The outcome and stderr lines of the response hook, checking 404, then 422, then 5xx. */
  function ErrorResponse(status: int, error: ApiError, param: Option<string>, default: Option<string>,
                         logfileOf: string -> Option<string>): (Handled, seq<Piece>)
  {
    if status == 404 then
      (Exited(1), [Piece("You don't have a gateway with id `" + Str(ReportedGateway(param, default)) + "`", Red, true),
                   Piece(CheckCredentialsText, Red, true)])
    else if status == 422 then
      (Exited(1), if error.code in OpenocdErrorCodes then OpenocdPieces(error.description, logfileOf)
                  else [Piece(error.description, Red, true)])
    else if status >= 500 then (Exited(1), [Piece(ServerErrorText, Red, true)])
    else if 400 <= status then (RaisesHttpError, [])
    else (Passes, [])
  }

  /** The response hook's table: 404, 422 and every 5xx status exit with 1, with exactly their
      messages; any other error status raises without printing; the rest pass silently. */
  lemma ErrorResponseTable(status: int, error: ApiError, param: Option<string>, default: Option<string>,
                           logfileOf: string -> Option<string>, r: (Handled, seq<Piece>))
    requires r == ErrorResponse(status, error, param, default, logfileOf)
    ensures r.0 == Exited(1) <==> status == 404 || status == 422 || status >= 500
    ensures r.0 == RaisesHttpError <==> 400 <= status < 500 && status != 404 && status != 422
    ensures r.0 == Passes <==> status < 400
    ensures r.0 != Exited(1) ==> r.1 == []
    ensures status == 404 ==> |r.1| == 2 && r.1[1] == Piece(CheckCredentialsText, Red, true)
    ensures status == 422 && error.code !in OpenocdErrorCodes ==> r.1 == [Piece(error.description, Red, true)]
    ensures status == 422 && error.code in OpenocdErrorCodes ==>
              forall p :: p in r.1 ==> p.style == Red && Contains(p.text, ErrorMarker)
    ensures status >= 500 ==> r.1 == [Piece(ServerErrorText, Red, true)]
  {
    if status == 422 && error.code in OpenocdErrorCodes {
      var lines := OpenocdPieces(error.description, logfileOf);
      forall p | p in lines
        ensures p.style == Red && Contains(p.text, ErrorMarker)
      {
        var logfile := logfileOf(error.description).value;
        var kept := ErrorLines(SplitLines(logfile));
        var i :| 0 <= i < |lines| && lines[i] == p;
        assert kept[i] in kept;
      }
    }
  }

  /** The response hook: reports the error statuses and exits, or raises for the remaining
      error statuses. */
  method HandleErrors(status: int, error: ApiError, param: Option<string>, default: Option<string>,
                      logfileOf: string -> Option<string>, stderr: Console) returns (h: Handled)
    modifies stderr
    ensures h == ErrorResponse(status, error, param, default, logfileOf).0
    ensures stderr.out == old(stderr.out) + ErrorResponse(status, error, param, default, logfileOf).1
  {
    if status == 404 {
      var name := if param.Some? && param.value != [] then param else default;
      stderr.Echo("You don't have a gateway with id `" + Str(name) + "`", Red, true);
      stderr.Echo(CheckCredentialsText, Red, true);
      return Exited(1);
    }
    if status == 422 {
      if error.code in OpenocdErrorCodes {
        PrintOpenocdError(error.description, logfileOf, stderr);
      } else {
        stderr.Echo(error.description, Red, true);
      }
      return Exited(1);
    }
    if status >= 500 {
      stderr.Echo(ServerErrorText, Red, true);
      return Exited(1);
    }
    if 400 <= status {
      return RaisesHttpError;
    }
    return Passes;
  }

  // ---------------------------------------------------------------------------------------
  // Authorization and the WebSocket endpoint

  /** The `Authorization` header value: the token type, a space, the token. */
  function AuthHeader(tokenType: string, token: string): string
  {
    tokenType + " " + token
  }

  /** The header gives back its token type and token (for a type without spaces). */
  lemma AuthHeaderParts(tokenType: string, token: string)
    requires ' ' !in tokenType
    ensures AfterFirst(AuthHeader(tokenType, token), ' ') == token
    ensures StartsWith(AuthHeader(tokenType, token), tokenType + " ")
  {
    assert AuthHeader(tokenType, token) == tokenType + [' '] + token;
    AfterFirstPrefix(tokenType, token, ' ');
  }

  /** Why no endpoint could be built: an unknown kind, or a missing keyword argument. */
  datatype WsError = InvalidType(message: string) | MissingArgument(name: string)

  /** The WebSocket path for a connection kind. */
  function WebsocketPath(socktype: string, jobId: Option<string>, gatewayId: Option<string>): (r: Result<string, WsError>)
    ensures socktype == "job" && jobId.Some? ==> r == Ok("/ws/job/" + jobId.value)
    ensures socktype == "gdb-tunnel" && gatewayId.Some? ==> r == Ok("/ws/gateway/" + gatewayId.value + "/gdb-tunnel")
    ensures socktype != "job" && socktype != "gdb-tunnel" ==> r == Err(InvalidType("Invalid websocket type: " + socktype))
    ensures r.Ok? ==> StartsWith(r.value, "/ws/")
  {
    if socktype == "job" then
      if jobId.None? then Err(MissingArgument("job_id")) else Ok("/ws/job/" + jobId.value)
    else if socktype == "gdb-tunnel" then
      if gatewayId.None? then Err(MissingArgument("gateway_id")) else Ok("/ws/gateway/" + gatewayId.value + "/gdb-tunnel")
    else Err(InvalidType("Invalid websocket type: " + socktype))
  }

  /** The index of the first character of `s` in `stops`, or `|s|`. */
  function FirstOf(s: string, stops: set<char>): (i: nat)
    ensures i <= |s| && (i < |s| ==> s[i] in stops)
    ensures forall k :: 0 <= k < i ==> s[k] !in stops
  {
    if s == [] || s[0] in stops then 0 else 1 + FirstOf(s[1..], stops)
  }

  /** The scheme and host part of a URL (`scheme://netloc`), which an absolute path is joined
      onto; empty when the URL has neither. */
  function Origin(url: string): (r: string)
    ensures StartsWith(url, r)
  {
    var colon := FirstOf(url, {':'});
    if colon + 3 <= |url| && url[colon..colon + 3] == "://" then
      var rest := url[colon + 3..];
      url[..colon + 3 + FirstOf(rest, {'/', '?', '#'})]
    else []
  }

  lemma {:induction false} FirstOfPrefix(x: string, y: string, stops: set<char>)
    requires forall k :: 0 <= k < |x| ==> x[k] !in stops
    requires y == [] || y[0] in stops
    ensures FirstOf(x + y, stops) == |x|
    decreases |x|
  {
    if x != [] {
      assert (x + y)[1..] == x[1..] + y;
      FirstOfPrefix(x[1..], y, stops);
    } else {
      assert x + y == y;
    }
  }

  /** Joining an absolute path keeps the scheme and host of the URL and drops the rest. */
  lemma OriginOf(scheme: string, host: string, tail: string)
    requires ':' !in scheme
    requires forall k :: 0 <= k < |host| ==> host[k] !in {'/', '?', '#'}
    requires tail == [] || tail[0] in {'/', '?', '#'}
    ensures Origin(scheme + "://" + host + tail) == scheme + "://" + host
  {
    var url := scheme + "://" + host + tail;
    assert url == scheme + ("://" + host + tail);
    FirstOfPrefix(scheme, "://" + host + tail, {':'});
    assert url[|scheme|..|scheme| + 3] == "://";
    assert url[|scheme| + 3..] == host + tail;
    FirstOfPrefix(host, tail, {'/', '?', '#'});
    assert url[..|scheme| + 3 + |host|] == scheme + "://" + host;
  }

  /** The endpoint of a WebSocket connection: its URI and the authorization header it sends. */
  function WebsocketConnectionParams(wsHost: string, authorization: string, socktype: string,
                                     jobId: Option<string>, gatewayId: Option<string>): (r: Result<(string, seq<(string, string)>), WsError>)
    ensures r.Ok? <==> WebsocketPath(socktype, jobId, gatewayId).Ok?
    ensures r.Ok? ==> r.value.0 == Origin(wsHost) + WebsocketPath(socktype, jobId, gatewayId).value
    ensures r.Ok? ==> r.value.1 == [("authorization", authorization)]
  {
    var path := WebsocketPath(socktype, jobId, gatewayId);
    if path.Err? then Err(path.error)
    else Ok((Origin(wsHost) + path.value, [("authorization", authorization)]))
  }

  // ---------------------------------------------------------------------------------------
  // The context object and the default gateway

  /** A gateway id as the API returns it: a number or a text. */
  datatype GatewayId = IntId(n: int) | StrId(s: string)

  /** Python's `str()` of a gateway id. */
  function IdText(id: GatewayId): string
  {
    if id.IntId? then IntToString(id.n) else id.s
  }

  /** The value of an environment variable, or a default. */
  function Getenv(env: map<string, string>, name: string, default: string): string
  {
    if name in env then env[name] else default
  }

  /** The CLI context: the API hosts, the authorization header, and the user's defaults (a
      config section, edited in place). */
  class LagerContext {
    const baseUrl: string
    const wsHost: string
    const authorization: string
    const authToken: string
    const debug: bool
    var defaults: map<string, string>

    constructor (tokenType: string, token: string, defaults: map<string, string>, debug: bool, env: map<string, string>)
      ensures baseUrl == Getenv(env, HostVariable, DefaultHost) + ApiPath
      ensures wsHost == Getenv(env, WebsocketHostVariable, DefaultWebsocketHost)
      ensures authorization == AuthHeader(tokenType, token) && authToken == token
      ensures this.defaults == defaults && this.debug == debug
    {
      baseUrl := Getenv(env, HostVariable, DefaultHost) + ApiPath;
      wsHost := Getenv(env, WebsocketHostVariable, DefaultWebsocketHost);
      authorization := tokenType + " " + token;
      authToken := token;
      this.defaults := defaults;
      this.debug := debug;
    }

    /** The default gateway, if one is configured. */
    function DefaultGateway(): (r: Option<string>)
      reads this
      ensures r.Some? <==> GatewayKey in defaults
      ensures r.Some? ==> r.value == defaults[GatewayKey]
    {
      if GatewayKey in defaults then Some(defaults[GatewayKey]) else None
    }

    /** Stores a gateway id, as text, as the default. */
    method SetDefaultGateway(id: GatewayId)
      modifies this
      ensures defaults == old(defaults)[GatewayKey := IdText(id)]
      ensures DefaultGateway() == Some(IdText(id))
    {
      defaults := defaults[GatewayKey := IdText(id)];
    }
  }

  /** The result of choosing a gateway: one id, none at all (exit 1), or several (a missing
      parameter error). */
  datatype GatewayChoice = Chosen(id: GatewayId) | NoGateways | Ambiguous

  /** The gateway to use: the configured default without any request; else, from the user's
      gateways (`gateways`, the ids the list request returns), the only one, which also becomes
      the default. */
  method GetDefaultGateway(ctx: LagerContext, gateways: seq<GatewayId>, stdout: Console)
    returns (choice: GatewayChoice, requested: bool)
    modifies ctx, stdout
    ensures old(ctx.DefaultGateway()).Some? ==>
              choice == Chosen(StrId(old(ctx.DefaultGateway()).value)) && !requested &&
              ctx.defaults == old(ctx.defaults) && stdout.out == old(stdout.out)
    ensures old(ctx.DefaultGateway()).None? ==> requested
    ensures old(ctx.DefaultGateway()).None? && gateways == [] ==>
              choice == NoGateways && ctx.defaults == old(ctx.defaults) &&
              stdout.out == old(stdout.out) + [Piece(NoGatewaysText, Red, true)]
    ensures old(ctx.DefaultGateway()).None? && |gateways| == 1 ==>
              choice == Chosen(gateways[0]) && ctx.defaults == old(ctx.defaults)[GatewayKey := IdText(gateways[0])] &&
              stdout.out == old(stdout.out)
    ensures old(ctx.DefaultGateway()).None? && |gateways| > 1 ==>
              choice == Ambiguous && ctx.defaults == old(ctx.defaults) && stdout.out == old(stdout.out)
  {
    var name := ctx.DefaultGateway();
    if name.Some? {
      return Chosen(StrId(name.value)), false;
    }
    if gateways == [] {
      stdout.Echo(NoGatewaysText, Red, true);
      return NoGateways, true;
    }
    if |gateways| == 1 {
      ctx.SetDefaultGateway(gateways[0]);
      return Chosen(gateways[0]), true;
    }
    return Ambiguous, true;
  }
}
