/** Output matchers of lager_cli/matchers.py: a streaming classifier for Unity test output and a
    passthrough, as a pure specification and as the classes the session feeds. */
module Matchers {
  import opened Wrappers
  import opened Text
  import opened Terminal

  /** The line that opens Unity's summary block. */
  const SummarySeparator: string := "-----------------------"

  datatype MatcherKind = UnityKind | EmptyKind

  /** `test_matcher_factory`: the Unity matcher only for the runner named `unity`. */
  function TestMatcherFactory(testRunner: Option<string>): (k: MatcherKind)
    ensures k == UnityKind <==> testRunner == Some("unity")
  {
    if testRunner == Some("unity") then UnityKind else EmptyKind
  }

  /** The fields of a `UnityMatcher`: the unterminated fragment and the two flags. */
  datatype UnityState = UnityState(pending: string, inSummary: bool, hasFail: bool)

  const Initial: UnityState := UnityState("", false, false)

  /** The colour a line outside the summary block gets, by the markers it contains. */
  function MarkerStyle(line: string): (st: Style)
    ensures st == Red <==> Contains(line, ":FAIL")
    ensures st == Green <==> !Contains(line, ":FAIL") && Contains(line, ":PASS")
    ensures st == Yellow <==> !Contains(line, ":FAIL") && !Contains(line, ":PASS") && Contains(line, ":INFO")
    ensures st == Plain <==> !Contains(line, ":FAIL") && !Contains(line, ":PASS") && !Contains(line, ":INFO")
  {
    if Contains(line, ":FAIL") then Red
    else if Contains(line, ":PASS") then Green
    else if Contains(line, ":INFO") then Yellow
    else Plain
  }

  /** One complete line through the classifier: the new state and the echo call made for it. */
  function ClassifyLine(s: UnityState, line: string): (r: (UnityState, Piece))
    ensures r.0.pending == s.pending
    ensures r.1.text == line && r.1.newline
    ensures r.0.inSummary <==> s.inSummary || line == SummarySeparator
    ensures r.0.hasFail <==> s.hasFail || (!s.inSummary && line != SummarySeparator && Contains(line, ":FAIL"))
    ensures line == SummarySeparator ==> r.1.style == Plain
    ensures line != SummarySeparator && s.inSummary ==> r.1.style == (if s.hasFail then Red else Green)
    ensures line != SummarySeparator && !s.inSummary ==> r.1.style == MarkerStyle(line)
  {
    if line == SummarySeparator then (s.(inSummary := true), Piece(line, Plain, true))
    else if s.inSummary then (s, Piece(line, if s.hasFail then Red else Green, true))
    else
      var st := MarkerStyle(line);
      (if st == Red then s.(hasFail := true) else s, Piece(line, st, true))
  }

  /** Complete lines through the classifier, in order. */
  function ProcessLines(s: UnityState, lines: seq<string>): (r: (UnityState, seq<Piece>))
    ensures r.0.pending == s.pending
    ensures s.inSummary ==> r.0.inSummary
    ensures s.hasFail ==> r.0.hasFail
    ensures |r.1| == |lines|
    ensures forall i :: 0 <= i < |lines| ==> r.1[i].text == lines[i] && r.1[i].newline
  {
    if lines == [] then (s, [])
    else
      var prev := ProcessLines(s, lines[..|lines| - 1]);
      var step := ClassifyLine(prev.0, lines[|lines| - 1]);
      (step.0, prev.1 + [step.1])
  }

  /** `UnityMatcher.feed`: buffer the chunk; only when the chunk holds a newline, classify every
      complete line of the buffer and keep the unterminated rest. */
  function UnityFeed(s: UnityState, data: string): (r: (UnityState, seq<Piece>))
    ensures '\n' !in data ==> r.0 == s.(pending := s.pending + data) && r.1 == []
    ensures '\n' in data ==> '\n' !in r.0.pending
    ensures s.inSummary ==> r.0.inSummary
    ensures s.hasFail ==> r.0.hasFail
    ensures forall i :: 0 <= i < |r.1| ==> '\n' !in r.1[i].text && r.1[i].newline
  {
    var buffered := s.pending + data;
    if '\n' !in data then (s.(pending := buffered), [])
    else
      var lines := Split(buffered, '\n');
      ProcessLines(s.(pending := lines[|lines| - 1]), lines[..|lines| - 1])
  }

  /** A sequence of `feed` calls. */
  function FeedAll(s: UnityState, chunks: seq<string>): (r: (UnityState, seq<Piece>))
    ensures forall i :: 0 <= i < |r.1| ==> '\n' !in r.1[i].text && r.1[i].newline
  {
    if chunks == [] then (s, [])
    else
      var prev := FeedAll(s, chunks[..|chunks| - 1]);
      var step := UnityFeed(prev.0, chunks[|chunks| - 1]);
      (step.0, prev.1 + step.1)
  }

  /** `exit_code`: 1 exactly when a failure was seen. */
  function ExitCode(s: UnityState): (c: int)
    ensures c == 1 <==> s.hasFail
    ensures c == 0 <==> !s.hasFail
  {
    if s.hasFail then 1 else 0
  }

  /** The texts of echo calls. */
  function Texts(out: seq<Piece>): (r: seq<string>)
    ensures |r| == |out| && forall i :: 0 <= i < |out| ==> r[i] == out[i].text
  {
    if out == [] then [] else Texts(out[..|out| - 1]) + [out[|out| - 1].text]
  }

  lemma {:induction false} RenderLines(out: seq<Piece>)
    requires forall i :: 0 <= i < |out| ==> out[i].newline
    ensures Render(out) == Terminated(Texts(out), '\n')
  {
    if out != [] {
      RenderLines(out[..|out| - 1]);
      assert Texts(out)[..|out| - 1] == Texts(out[..|out| - 1]);
    }
  }

  /** One feed loses and invents nothing: what it echoes, each line followed by a newline, then
      the new buffer, is the old buffer followed by the chunk; and the buffer stays newline-free. */
  lemma FeedReconstructs(s: UnityState, data: string)
    requires '\n' !in s.pending
    ensures var r := UnityFeed(s, data);
      Render(r.1) + r.0.pending == s.pending + data && '\n' !in r.0.pending
  {
    var r := UnityFeed(s, data);
    if '\n' in data {
      var lines := Split(s.pending + data, '\n');
      var out := ProcessLines(s.(pending := lines[|lines| - 1]), lines[..|lines| - 1]).1;
      RenderLines(out);
      assert Texts(out) == lines[..|lines| - 1];
      SplitRejoins(s.pending + data, '\n');
    }
  }

  /** Over a stream of chunks: the echoed lines, each followed by a newline, then the buffer, are
      the starting buffer followed by everything fed. */
  lemma {:induction false} StreamFromReconstructs(s: UnityState, chunks: seq<string>)
    requires '\n' !in s.pending
    ensures var r := FeedAll(s, chunks);
      Render(r.1) + r.0.pending == s.pending + Concat(chunks) && '\n' !in r.0.pending
  {
    if chunks != [] {
      var init, last := chunks[..|chunks| - 1], chunks[|chunks| - 1];
      StreamFromReconstructs(s, init);
      var prev := FeedAll(s, init);
      var step := UnityFeed(prev.0, last);
      FeedReconstructs(prev.0, last);
      RenderAppend(prev.1, step.1);
      Rebuffer(Render(prev.1), prev.0.pending, Render(step.1), step.0.pending, s.pending + Concat(init), last);
    }
  }

  lemma Rebuffer(a: string, p: string, b: string, q: string, before: string, last: string)
    requires a + p == before && b + q == p + last
    ensures (a + b) + q == before + last
  {
    calc {
      (a + b) + q;
      a + (b + q);
      a + (p + last);
      (a + p) + last;
    }
  }

  /** Fed to a fresh matcher, the echoed lines, each followed by a newline, then the buffer, are
      exactly everything fed so far. */
  lemma StreamReconstructs(chunks: seq<string>)
    ensures var r := FeedAll(Initial, chunks);
      Render(r.1) + r.0.pending == Concat(chunks) && '\n' !in r.0.pending
  {
    StreamFromReconstructs(Initial, chunks);
    assert Initial.pending + Concat(chunks) == Concat(chunks);
  }

  /** The lines the classifier receives are exactly the complete pieces of everything fed, split
      on newlines, and the buffer is the last piece; so no empty line is invented when the input
      ends with a newline. */
  lemma StreamLinesAreSplit(chunks: seq<string>)
    ensures var r := FeedAll(Initial, chunks);
      Split(Concat(chunks), '\n') == Texts(r.1) + [r.0.pending]
  {
    var r := FeedAll(Initial, chunks);
    StreamReconstructs(chunks);
    RenderLines(r.1);
    SplitUnique(Texts(r.1), r.0.pending, '\n');
  }

  /** The summary flag is set exactly when the separator line has been seen. */
  lemma {:induction false} SummaryIffSeparator(s: UnityState, lines: seq<string>)
    ensures ProcessLines(s, lines).0.inSummary <==> s.inSummary || SummarySeparator in lines
  {
    if lines != [] {
      var init := lines[..|lines| - 1];
      SummaryIffSeparator(s, init);
      assert lines == init + [lines[|lines| - 1]];
    }
  }

  /** Some line holds the failure marker, and no line up to and including it is the summary
      separator. */
  predicate FailsBeforeSummary(lines: seq<string>)
  {
    exists i :: 0 <= i < |lines| && SummarySeparator !in lines[..i + 1] && Contains(lines[i], ":FAIL")
  }

  /** The failure flag is set exactly when it already was, or when some line before the summary
      block holds the failure marker. */
  lemma {:induction false} FailIffMarkerBeforeSummary(s: UnityState, lines: seq<string>)
    ensures ProcessLines(s, lines).0.hasFail <==> s.hasFail || (!s.inSummary && FailsBeforeSummary(lines))
  {
    if lines != [] {
      var n := |lines| - 1;
      var init := lines[..n];
      FailIffMarkerBeforeSummary(s, init);
      SummaryIffSeparator(s, init);
      assert lines[..n + 1] == lines;
      forall i | 0 <= i < n
        ensures lines[..i + 1] == init[..i + 1] && lines[i] == init[i]
      {
      }
    }
  }

  /** The classifier never looks at the buffer. */
  lemma {:induction false} ProcessLinesIgnoresPending(s: UnityState, p: string, lines: seq<string>)
    ensures ProcessLines(s.(pending := p), lines) ==
      (ProcessLines(s, lines).0.(pending := p), ProcessLines(s, lines).1)
  {
    if lines != [] {
      ProcessLinesIgnoresPending(s, p, lines[..|lines| - 1]);
    }
  }

  /** Classifying `a` and then `b` is classifying `a + b`. */
  lemma {:induction false} ProcessLinesAppend(s: UnityState, a: seq<string>, b: seq<string>)
    ensures ProcessLines(s, a + b) ==
      (ProcessLines(ProcessLines(s, a).0, b).0, ProcessLines(s, a).1 + ProcessLines(ProcessLines(s, a).0, b).1)
    decreases |b|
  {
    if b == [] {
      assert a + b == a;
      assert ProcessLines(ProcessLines(s, a).0, b) == (ProcessLines(s, a).0, []);
      assert ProcessLines(s, a).1 + [] == ProcessLines(s, a).1;
    } else {
      var init, x := b[..|b| - 1], b[|b| - 1];
      ProcessLinesAppend(s, a, init);
      var mid := ProcessLines(s, a).0;
      assert (a + b)[..|a + b| - 1] == a + init;
      assert (a + b)[|a + b| - 1] == x;
      var whole := ProcessLines(s, a + init);
      var tail := ProcessLines(mid, init);
      assert ProcessLines(s, a + b) == (ClassifyLine(whole.0, x).0, whole.1 + [ClassifyLine(whole.0, x).1]);
      assert ProcessLines(mid, b) == (ClassifyLine(tail.0, x).0, tail.1 + [ClassifyLine(tail.0, x).1]);
      AppendAssoc(ProcessLines(s, a).1, tail.1, [ClassifyLine(tail.0, x).1]);
    }
  }

  lemma TextsAppend(a: seq<Piece>, b: seq<Piece>)
    ensures Texts(a + b) == Texts(a) + Texts(b)
  {
    assert Texts(a + b) == Texts(a) + Texts(b) by {
      assert |Texts(a + b)| == |Texts(a) + Texts(b)|;
      forall i | 0 <= i < |a + b|
        ensures Texts(a + b)[i] == (Texts(a) + Texts(b))[i]
      {
        if i >= |a| {
          assert (a + b)[i] == b[i - |a|];
        }
      }
    }
  }

  /** A stream of chunks leaves the matcher exactly as classifying, in one go, every line it
      echoed; only the buffer differs. */
  lemma {:induction false} FeedAllIsProcessLines(s: UnityState, chunks: seq<string>)
    ensures var r := FeedAll(s, chunks);
      r.0 == ProcessLines(s, Texts(r.1)).0.(pending := r.0.pending)
  {
    if chunks == [] {
      assert Texts([]) == [];
    } else {
      var prev := FeedAll(s, chunks[..|chunks| - 1]);
      var last := chunks[|chunks| - 1];
      var step := UnityFeed(prev.0, last);
      FeedAllIsProcessLines(s, chunks[..|chunks| - 1]);
      TextsAppend(prev.1, step.1);
      if '\n' in last {
        var lines := Split(prev.0.pending + last, '\n');
        var complete := lines[..|lines| - 1];
        var base := ProcessLines(s, Texts(prev.1)).0;
        assert prev.0 == base.(pending := prev.0.pending);
        assert step == ProcessLines(prev.0.(pending := lines[|lines| - 1]), complete);
        ProcessLinesIgnoresPending(base, lines[|lines| - 1], complete);
        assert base.(pending := lines[|lines| - 1]) == prev.0.(pending := lines[|lines| - 1]);
        assert Texts(step.1) == complete;
        ProcessLinesAppend(s, Texts(prev.1), complete);
      } else {
        assert Texts(step.1) == [];
        assert Texts(prev.1) + [] == Texts(prev.1);
      }
    }
  }

  /** The exit code over a whole stream fed to a fresh matcher: 1 exactly when some complete
      line of everything fed, before the summary separator, holds the failure marker. */
  lemma ExitCodeIffFailLine(chunks: seq<string>)
    ensures var lines := Split(Concat(chunks), '\n');
      ExitCode(FeedAll(Initial, chunks).0) == 1 <==> FailsBeforeSummary(lines[..|lines| - 1])
  {
    var r := FeedAll(Initial, chunks);
    var lines := Split(Concat(chunks), '\n');
    StreamLinesAreSplit(chunks);
    FeedAllIsProcessLines(Initial, chunks);
    FailIffMarkerBeforeSummary(Initial, Texts(r.1));
    assert lines[..|lines| - 1] == Texts(r.1);
  }

  /** The separator a second time changes nothing. */
  lemma SeparatorTwice(s: UnityState)
    ensures ProcessLines(s, [SummarySeparator, SummarySeparator]).0 == ProcessLines(s, [SummarySeparator]).0
  {
    assert [SummarySeparator, SummarySeparator][..1] == [SummarySeparator];
  }

  /** Once a failure has been seen the exit code stays 1, whatever follows. */
  lemma {:induction false} FailureSticks(s: UnityState, chunks: seq<string>)
    requires s.hasFail
    ensures ExitCode(FeedAll(s, chunks).0) == 1
  {
    if chunks != [] {
      FailureSticks(s, chunks[..|chunks| - 1]);
    }
  }

  /** `EmptyMatcher`: every chunk is echoed unchanged without a newline, and the exit code is 0. */
  function EmptyFeed(data: string): (out: seq<Piece>)
    ensures Render(out) == data
  {
    [Piece(data, Plain, false)]
  }

  /** The abstract value of either matcher. */
  datatype MatcherModel = UnityModel(state: UnityState) | EmptyModel

  function FeedModel(m: MatcherModel, data: string): (r: (MatcherModel, seq<Piece>))
    ensures m.EmptyModel? ==> r.0 == EmptyModel && Render(r.1) == data
    ensures m.UnityModel? ==> r.0 == UnityModel(UnityFeed(m.state, data).0) && r.1 == UnityFeed(m.state, data).1
  {
    match m
    case UnityModel(s) => var f := UnityFeed(s, data); (UnityModel(f.0), f.1)
    case EmptyModel => (EmptyModel, EmptyFeed(data))
  }

  function ModelExitCode(m: MatcherModel): (c: int)
    ensures c == 1 <==> m.UnityModel? && m.state.hasFail
    ensures c == 0 || c == 1
  {
    match m
    case UnityModel(s) => ExitCode(s)
    case EmptyModel => 0
  }

  class UnityMatcher {
    var state: string
    var inSummary: bool
    var hasFail: bool
    /** How many times `done` has been called. */
    ghost var doneCalls: nat

    function Model(): UnityState
      reads this
    {
      UnityState(state, inSummary, hasFail)
    }

    constructor ()
      ensures Model() == Initial && doneCalls == 0
    {
      state, inSummary, hasFail := "", false, false;
      doneCalls := 0;
    }

    method Feed(data: string, console: Console)
      modifies this, console
      ensures Model() == UnityFeed(old(Model()), data).0
      ensures console.out == old(console.out) + UnityFeed(old(Model()), data).1
      ensures doneCalls == old(doneCalls)
    {
      state := state + data;
      if '\n' !in data {
        return;
      }
      var lines := Split(state, '\n');
      state := lines[|lines| - 1];
      HandleLines(lines[..|lines| - 1], console);
    }

    /** The loop of `feed`: every complete line, in order. */
    method HandleLines(lines: seq<string>, console: Console)
      modifies this, console
      ensures Model() == ProcessLines(old(Model()), lines).0
      ensures console.out == old(console.out) + ProcessLines(old(Model()), lines).1
      ensures doneCalls == old(doneCalls)
    {
      ghost var start, out0 := Model(), console.out;
      ghost var done := ProcessLines(start, []);
      var i := 0;
      while i < |lines|
        invariant 0 <= i <= |lines|
        invariant done == ProcessLines(start, lines[..i])
        invariant Model() == done.0
        invariant console.out == out0 + done.1
        invariant doneCalls == old(doneCalls)
      {
        assert lines[..i + 1][..i] == lines[..i];
        ghost var step := ClassifyLine(done.0, lines[i]);
        HandleLine(lines[i], console);
        done := (step.0, done.1 + [step.1]);
        i := i + 1;
      }
      assert lines[..i] == lines;
    }

    /** The body of the loop in `feed`: classify one complete line and echo it. */
    method HandleLine(line: string, console: Console)
      modifies this, console
      ensures Model() == ClassifyLine(old(Model()), line).0
      ensures console.out == old(console.out) + [ClassifyLine(old(Model()), line).1]
      ensures doneCalls == old(doneCalls)
    {
      if line == SummarySeparator {
        inSummary := true;
        console.Echo(line, Plain, true);
        return;
      }
      if inSummary {
        console.Echo(line, if hasFail then Red else Green, true);
      } else if Contains(line, ":FAIL") {
        hasFail := true;
        console.Echo(line, Red, true);
      } else if Contains(line, ":PASS") {
        console.Echo(line, Green, true);
      } else if Contains(line, ":INFO") {
        console.Echo(line, Yellow, true);
      } else {
        console.Echo(line, Plain, true);
      }
    }

    /** `done` does nothing: an unterminated fragment stays buffered and is never echoed. */
    method Done()
      modifies this
      ensures Model() == old(Model()) && doneCalls == old(doneCalls) + 1
    {
      doneCalls := doneCalls + 1;
    }

    function ExitCode(): (c: int)
      reads this
      ensures c == 1 <==> hasFail
      ensures c == 0 <==> !hasFail
    {
      if hasFail then 1 else 0
    }
  }

  class EmptyMatcher {
    ghost var doneCalls: nat

    constructor ()
      ensures doneCalls == 0
    {
      doneCalls := 0;
    }

    method Feed(data: string, console: Console)
      modifies console
      ensures console.out == old(console.out) + EmptyFeed(data)
    {
      console.Echo(data, Plain, false);
    }

    method Done()
      modifies this
      ensures doneCalls == old(doneCalls) + 1
    {
      doneCalls := doneCalls + 1;
    }

    function ExitCode(): (c: int)
      ensures c == 0
    {
      0
    }
  }

  /** Whichever matcher the factory chose, as the object the session holds. */
  datatype Matcher = UnityObj(u: UnityMatcher) | EmptyObj(e: EmptyMatcher)

  function Footprint(m: Matcher): set<object>
  {
    match m
    case UnityObj(u) => {u}
    case EmptyObj(e) => {e}
  }

  function ModelOf(m: Matcher): MatcherModel
    reads Footprint(m)
  {
    match m
    case UnityObj(u) => UnityModel(u.Model())
    case EmptyObj(_) => EmptyModel
  }

  ghost function DoneCalls(m: Matcher): nat
    reads Footprint(m)
  {
    match m
    case UnityObj(u) => u.doneCalls
    case EmptyObj(e) => e.doneCalls
  }

  /** A fresh matcher of the class the factory returned (constructed without arguments). */
  method NewMatcher(kind: MatcherKind) returns (m: Matcher)
    ensures fresh(Footprint(m))
    ensures ModelOf(m) == (if kind == UnityKind then UnityModel(Initial) else EmptyModel)
    ensures DoneCalls(m) == 0
  {
    if kind == UnityKind {
      var u := new UnityMatcher();
      m := UnityObj(u);
    } else {
      var e := new EmptyMatcher();
      m := EmptyObj(e);
    }
  }

  method Feed(m: Matcher, data: string, console: Console)
    modifies Footprint(m), console
    ensures ModelOf(m) == FeedModel(old(ModelOf(m)), data).0
    ensures console.out == old(console.out) + FeedModel(old(ModelOf(m)), data).1
    ensures DoneCalls(m) == old(DoneCalls(m))
  {
    match m
    case UnityObj(u) => u.Feed(data, console);
    case EmptyObj(e) => e.Feed(data, console);
  }

  method Done(m: Matcher)
    modifies Footprint(m)
    ensures ModelOf(m) == old(ModelOf(m))
    ensures DoneCalls(m) == old(DoneCalls(m)) + 1
  {
    match m
    case UnityObj(u) => u.Done();
    case EmptyObj(e) => e.Done();
  }
}
