/** Utilities of the newer client: echoing a byte stream, the version gate and exit-code
    diagnostics of python script output, and the one-shot SIGINT forwarder. */
module Util {
  import opened Wrappers
  import opened Text
  import opened Terminal

  /** Exit codes the gateway reports for a python script that did not finish normally. */
  const FailedToRetrieveExitCode: int := -1
  const SigtermExitCode: int := 124
  const SigkillExitCode: int := 137

  const FailedToRetrieveText := "Failed to retrieve script exit code."
  const TerminatedText := "Gateway script terminated due to timeout."
  const KilledText := "Gateway script forcibly killed due to timeout."
  const UnsupportedText := "Response format not supported. Please upgrade lager-cli"

  const VersionHeader := "Lager-Output-Version"
  const SeparatorHeader := "Lager-Separator"

  /** The signal number of SIGINT. */
  const SIGINT: int := 2

  /** Response headers: the `(name, value)` fields the case-insensitive header dictionary was
      filled with, in order. */
  type Headers = seq<(string, string)>

  /** ASCII lower case of one character. */
  function LowerChar(c: char): char
  {
    if 'A' <= c <= 'Z' then (c as int + 32) as char else c
  }

  /** ASCII lower case of a header name. */
  function Lower(s: string): (r: string)
    ensures |r| == |s| && forall i :: 0 <= i < |s| ==> r[i] == LowerChar(s[i])
  {
    seq(|s|, i requires 0 <= i < |s| => LowerChar(s[i]))
  }

  /** Header names are the same when they differ at most in the case of their letters. */
  predicate SameName(a: string, b: string)
  {
    Lower(a) == Lower(b)
  }

  /** `response.headers.get(name)`: the value of the last field whose name is `name` in any
      case, and `None` when there is no such field. */
  function Header(headers: Headers, name: string): (r: Option<string>)
    ensures r.None? <==> forall i :: 0 <= i < |headers| ==> !SameName(headers[i].0, name)
  {
    if headers == [] then None
    else if SameName(headers[|headers| - 1].0, name) then Some(headers[|headers| - 1].1)
    else Header(headers[..|headers| - 1], name)
  }

  /** The last field with the name, in any case, gives the value. */
  lemma {:induction false} HeaderLast(headers: Headers, name: string, i: nat)
    requires i < |headers| && SameName(headers[i].0, name)
    requires forall j :: i < j < |headers| ==> !SameName(headers[j].0, name)
    ensures Header(headers, name) == Some(headers[i].1)
  {
    if i < |headers| - 1 {
      HeaderLast(headers[..|headers| - 1], name, i);
    }
  }

  /** The lookup does not depend on the case in which the name is asked for. */
  lemma {:induction false} HeaderIgnoresCase(headers: Headers, a: string, b: string)
    requires SameName(a, b)
    ensures Header(headers, a) == Header(headers, b)
  {
    if headers != [] {
      HeaderIgnoresCase(headers[..|headers| - 1], a, b);
    }
  }

  /** Writes every chunk of a response to the terminal as it arrives, unchanged and without a
      newline. */
  method StreamOutput(chunks: seq<string>, console: Console)
    modifies console
    ensures console.out == old(console.out) + EchoChunks(chunks)
  {
    var i := 0;
    while i < |chunks|
      invariant 0 <= i <= |chunks|
      invariant console.out == old(console.out) + EchoChunks(chunks[..i])
    {
      assert chunks[..i + 1][..i] == chunks[..i];
      console.Echo(chunks[i], Plain, false);
      i := i + 1;
    }
    assert chunks[..i] == chunks;
  }

  /** The version gate: only version "1" of the python output format is understood. */
  predicate IsVersionOne(headers: Headers)
  {
    Header(headers, VersionHeader) == Some("1")
  }

  /** The separator handed to the python matcher: absent unless the response names one, in
      any case, and otherwise the header's value. */
  function Separator(headers: Headers): (r: Option<string>)
    ensures r.None? <==> forall i :: 0 <= i < |headers| ==> !SameName(headers[i].0, SeparatorHeader)
    ensures r == Header(headers, SeparatorHeader)
  {
    Header(headers, SeparatorHeader)
  }

  /** Header names are matched without regard to case: a response whose fields are spelt in
      lower or upper case takes the v1 path, with its separator. */
  lemma HeaderCaseAccepted(version: string, separator: string, value: string)
    requires SameName(version, VersionHeader) && SameName(separator, SeparatorHeader)
    ensures IsVersionOne([(version, "1"), (separator, value)])
    ensures Separator([(version, "1"), (separator, value)]) == Some(value)
  {
    var headers := [(version, "1"), (separator, value)];
    assert !SameName(version, SeparatorHeader) by {
      assert Lower(version)[9] != Lower(SeparatorHeader)[9];
    }
    assert !SameName(separator, VersionHeader) by {
      assert Lower(separator)[9] != Lower(VersionHeader)[9];
    }
    assert headers[..1] == [(version, "1")];
  }

  /** The diagnostic printed for a script exit code, if any. */
  function ExitDiagnostic(code: int): (r: Option<string>)
    ensures r == Some(FailedToRetrieveText) <==> code == FailedToRetrieveExitCode
    ensures r == Some(TerminatedText) <==> code == SigtermExitCode
    ensures r == Some(KilledText) <==> code == SigkillExitCode
    ensures r.None? <==> code !in {FailedToRetrieveExitCode, SigtermExitCode, SigkillExitCode}
  {
    if code == FailedToRetrieveExitCode then Some(FailedToRetrieveText)
    else if code == SigtermExitCode then Some(TerminatedText)
    else if code == SigkillExitCode then Some(KilledText)
    else None
  }

  /** The pieces written to stderr for a diagnostic: one red line, or nothing. */
  function DiagnosticPieces(d: Option<string>): seq<Piece>
  {
    if d.None? then [] else [Piece(d.value, Red, true)]
  }

  /** The python output matcher. Its parsing is not part of this model: it records the chunks it
      is fed, and its exit code is an arbitrary function of the separator and of those chunks. */
  class PythonMatcherV1 {
    const separator: Option<string>
    const exitOf: (Option<string>, seq<string>) -> int
    var fed: seq<string>

    constructor (separator: Option<string>, exitOf: (Option<string>, seq<string>) -> int)
      ensures this.separator == separator && this.exitOf == exitOf && fed == []
    {
      this.separator := separator;
      this.exitOf := exitOf;
      fed := [];
    }

    method Feed(chunk: string)
      modifies this
      ensures fed == old(fed) + [chunk]
    {
      fed := fed + [chunk];
    }

    function ExitCode(): int
      reads this
    {
      exitOf(separator, fed)
    }
  }

  /** What SIGINT is bound to: the interpreter's original handler, or the forwarder that kills
      the remote script. */
  datatype Handler = Original | Forward

  /** The process's SIGINT binding, with a record of what signals have done so far. */
  class Signals {
    var sigint: Handler
    /** The signals passed to `kill_python`, in order. */
    var kills: seq<int>
    /** How many SIGINTs reached the original handler. */
    var interrupts: nat

    constructor ()
      ensures sigint == Original && kills == [] && interrupts == 0
    {
      sigint := Original;
      kills := [];
      interrupts := 0;
    }

    /** Binds SIGINT to the forwarder. */
    method Install()
      modifies this
      ensures sigint == Forward && kills == old(kills) && interrupts == old(interrupts)
    {
      sigint := Forward;
    }

    /** The forwarder: rebinds the original handler first, then forwards SIGINT once. */
    method SigintHandler()
      modifies this
      ensures sigint == Original
      ensures kills == old(kills) + [SIGINT] && interrupts == old(interrupts)
    {
      sigint := Original;
      kills := kills + [SIGINT];
    }

    /** Delivers one SIGINT to whatever it is bound to. */
    method Deliver()
      modifies this
      ensures sigint == Final(old(sigint), 1)
      ensures kills == old(kills) + Kills(Forwarded(old(sigint), 1))
      ensures interrupts == old(interrupts) + Interrupted(old(sigint), 1)
    {
      if sigint == Forward {
        SigintHandler();
        assert Kills(1) == [SIGINT];
      } else {
        interrupts := interrupts + 1;
        assert Kills(0) == [];
      }
    }

    /** Delivers `n` SIGINTs in a row. */
    method DeliverMany(n: nat)
      modifies this
      ensures sigint == Final(old(sigint), n)
      ensures kills == old(kills) + Kills(Forwarded(old(sigint), n))
      ensures interrupts == old(interrupts) + Interrupted(old(sigint), n)
    {
      var i := 0;
      while i < n
        invariant 0 <= i <= n
        invariant sigint == Final(old(sigint), i)
        invariant kills == old(kills) + Kills(Forwarded(old(sigint), i))
        invariant interrupts == old(interrupts) + Interrupted(old(sigint), i)
      {
        DeliveriesSnoc(old(sigint), i);
        KillsAdd(Forwarded(old(sigint), i), Forwarded(sigint, 1));
        Deliver();
        i := i + 1;
      }
    }
  }

  /** `n` copies of SIGINT. */
  function Kills(n: nat): (r: seq<int>)
    ensures |r| == n && forall k :: 0 <= k < n ==> r[k] == SIGINT
  {
    seq(n, _ => SIGINT)
  }

  lemma KillsAdd(a: nat, b: nat)
    ensures Kills(a) + Kills(b) == Kills(a + b)
  {
  }

  /** How many of `n` SIGINTs reach the forwarder, starting from binding `h`. */
  function Forwarded(h: Handler, n: nat): nat
    decreases n
  {
    if n == 0 then 0 else (if h == Forward then 1 else 0) + Forwarded(Original, n - 1)
  }

  /** How many of `n` SIGINTs reach the original handler, starting from binding `h`. */
  function Interrupted(h: Handler, n: nat): nat
    decreases n
  {
    if n == 0 then 0 else (if h == Forward then 0 else 1) + Interrupted(Original, n - 1)
  }

  /** The binding after `n` SIGINTs: any signal leaves the original handler bound. */
  function Final(h: Handler, n: nat): Handler
  {
    if n == 0 then h else Original
  }

  /** One more SIGINT adds what a single one does from the binding reached so far. */
  lemma {:induction false} DeliveriesSnoc(h: Handler, i: nat)
    decreases i
    ensures Forwarded(h, i + 1) == Forwarded(h, i) + Forwarded(Final(h, i), 1)
    ensures Interrupted(h, i + 1) == Interrupted(h, i) + Interrupted(Final(h, i), 1)
    ensures Final(h, i + 1) == Final(Final(h, i), 1)
  {
    if i > 0 {
      DeliveriesSnoc(Original, i - 1);
    }
  }

  /** The forwarder fires at most once: exactly once if it was bound and any SIGINT arrives,
      and every other SIGINT goes to the original handler. */
  lemma {:induction false} ForwardsAtMostOnce(h: Handler, n: nat)
    decreases n
    ensures Forwarded(h, n) == (if h == Forward && n > 0 then 1 else 0)
    ensures Forwarded(h, n) + Interrupted(h, n) == n
  {
    if n > 0 {
      ForwardsAtMostOnce(Original, n - 1);
    }
  }

  /** The stderr lines and exit status of python script output, for headers, chunks and the
      matcher's exit-code function. */
  function PythonOutcome(headers: Headers, chunks: seq<string>,
                         exitOf: (Option<string>, seq<string>) -> int): (seq<Piece>, int)
  {
    if IsVersionOne(headers) then
      var code := exitOf(Separator(headers), chunks);
      (DiagnosticPieces(ExitDiagnostic(code)), code)
    else
      ([Piece(UnsupportedText, Red, true)], 1)
  }

  /** The outcome table of python output: the exit status is the matcher's exit code on the v1
      path, with exactly the listed diagnostics, and 1 with the upgrade message otherwise. */
  lemma PythonOutcomeTable(headers: Headers, chunks: seq<string>,
                           exitOf: (Option<string>, seq<string>) -> int)
    ensures !IsVersionOne(headers) ==> PythonOutcome(headers, chunks, exitOf) == ([Piece(UnsupportedText, Red, true)], 1)
    ensures IsVersionOne(headers) ==> PythonOutcome(headers, chunks, exitOf).1 == exitOf(Separator(headers), chunks)
    ensures IsVersionOne(headers) ==>
              (|PythonOutcome(headers, chunks, exitOf).0| == 0 <==>
               exitOf(Separator(headers), chunks) !in {FailedToRetrieveExitCode, SigtermExitCode, SigkillExitCode})
  {
  }

  /** Python script output: when the format version is "1", feeds every chunk to a python
      matcher (with SIGINT forwarded to the remote script meanwhile) and exits with its exit
      code after the matching diagnostic; otherwise reports the unsupported format and exits 1. */
  method StreamPythonOutput(headers: Headers, chunks: seq<string>,
                            exitOf: (Option<string>, seq<string>) -> int,
                            signals: Signals, stderr: Console)
    returns (exit: int, matcher: PythonMatcherV1?)
    modifies signals, stderr
    ensures (matcher != null) <==> IsVersionOne(headers)
    ensures matcher != null ==> fresh(matcher) && matcher.fed == chunks && matcher.separator == Separator(headers)
    ensures signals.sigint == (if IsVersionOne(headers) then Forward else old(signals.sigint))
    ensures signals.kills == old(signals.kills) && signals.interrupts == old(signals.interrupts)
    ensures stderr.out == old(stderr.out) + PythonOutcome(headers, chunks, exitOf).0
    ensures exit == PythonOutcome(headers, chunks, exitOf).1
  {
    if Header(headers, VersionHeader) == Some("1") {
      exit, matcher := StreamPythonOutputV1(headers, chunks, exitOf, signals, stderr);
    } else {
      stderr.Echo(UnsupportedText, Red, true);
      exit, matcher := 1, null;
    }
  }

  /** The v1 path: separator from the headers, forwarder installed, chunks fed in order. */
  method StreamPythonOutputV1(headers: Headers, chunks: seq<string>,
                              exitOf: (Option<string>, seq<string>) -> int,
                              signals: Signals, stderr: Console)
    returns (exit: int, matcher: PythonMatcherV1)
    modifies signals, stderr
    ensures fresh(matcher) && matcher.fed == chunks && matcher.separator == Separator(headers)
    ensures signals.sigint == Forward
    ensures signals.kills == old(signals.kills) && signals.interrupts == old(signals.interrupts)
    ensures exit == exitOf(Separator(headers), chunks)
    ensures stderr.out == old(stderr.out) + DiagnosticPieces(ExitDiagnostic(exit))
  {
    var separator := Header(headers, SeparatorHeader);
    matcher := new PythonMatcherV1(separator, exitOf);
    signals.Install();
    FeedChunks(matcher, chunks);
    var code := matcher.ExitCode();
    if code == FailedToRetrieveExitCode {
      stderr.Echo(FailedToRetrieveText, Red, true);
    } else if code == SigtermExitCode {
      stderr.Echo(TerminatedText, Red, true);
    } else if code == SigkillExitCode {
      stderr.Echo(KilledText, Red, true);
    }
    exit := matcher.ExitCode();
  }

  /** Feeds every chunk to the matcher, in order. */
  method FeedChunks(matcher: PythonMatcherV1, chunks: seq<string>)
    modifies matcher
    ensures matcher.fed == old(matcher.fed) + chunks
  {
    var i := 0;
    while i < |chunks|
      invariant 0 <= i <= |chunks|
      invariant matcher.fed == old(matcher.fed) + chunks[..i]
    {
      assert chunks[..i + 1] == chunks[..i] + [chunks[i]];
      matcher.Feed(chunks[i]);
      i := i + 1;
    }
    assert chunks[..i] == chunks;
  }
}
