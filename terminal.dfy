/** The terminal that `click.echo` and `click.secho` write to. Colours are tags, not escape codes. */
module Terminal {
  import opened Text

  datatype Style = Red | Green | Yellow | Plain

  /** One echo call: its text, its colour and whether a newline was added. */
  datatype Piece = Piece(text: string, style: Style, newline: bool)

  /** The characters a sequence of echo calls puts on the terminal. */
  function Render(out: seq<Piece>): string
  {
    if out == [] then []
    else
      var p := out[|out| - 1];
      Render(out[..|out| - 1]) + p.text + (if p.newline then "\n" else "")
  }

  lemma RenderAppend(a: seq<Piece>, b: seq<Piece>)
    ensures Render(a + b) == Render(a) + Render(b)
    decreases |b|
  {
    if b == [] {
      assert a + b == a;
    } else {
      assert (a + b)[..|a + b| - 1] == a + b[..|b| - 1];
      RenderAppend(a, b[..|b| - 1]);
    }
  }

  /** `click.echo(chunk, nl=False)` for every chunk, in order. */
  function EchoChunks(chunks: seq<string>): (r: seq<Piece>)
    ensures |r| == |chunks|
  {
    if chunks == [] then [] else EchoChunks(chunks[..|chunks| - 1]) + [Piece(chunks[|chunks| - 1], Plain, false)]
  }

  /** Echoing chunks without newlines puts exactly their concatenation on the terminal. */
  lemma {:induction false} EchoChunksRender(chunks: seq<string>)
    ensures Render(EchoChunks(chunks)) == Concat(chunks)
  {
    if chunks != [] {
      EchoChunksRender(chunks[..|chunks| - 1]);
      var r := EchoChunks(chunks);
      assert r[..|r| - 1] == EchoChunks(chunks[..|chunks| - 1]);
    }
  }

  /** Each chunk becomes its own echo call, unchanged and in place. */
  lemma {:induction false} EchoChunksAt(chunks: seq<string>, i: nat)
    requires i < |chunks|
    ensures EchoChunks(chunks)[i] == Piece(chunks[i], Plain, false)
  {
    if i < |chunks| - 1 {
      EchoChunksAt(chunks[..|chunks| - 1], i);
    }
  }

  lemma EchoChunksAppend(a: seq<string>, b: seq<string>)
    ensures EchoChunks(a + b) == EchoChunks(a) + EchoChunks(b)
  {
    assert |EchoChunks(a + b)| == |EchoChunks(a) + EchoChunks(b)|;
    forall i | 0 <= i < |a + b|
      ensures EchoChunks(a + b)[i] == (EchoChunks(a) + EchoChunks(b))[i]
    {
      EchoChunksAt(a + b, i);
      if i >= |a| {
        assert (a + b)[i] == b[i - |a|];
        EchoChunksAt(b, i - |a|);
      } else {
        EchoChunksAt(a, i);
      }
    }
  }

  /** A stream (stdout or stderr) as the ordered list of echo calls made on it. */
  class Console {
    var out: seq<Piece>

    constructor ()
      ensures out == []
    {
      out := [];
    }

    method Echo(text: string, style: Style, newline: bool)
      modifies this
      ensures out == old(out) + [Piece(text, style, newline)]
    {
      out := out + [Piece(text, style, newline)];
    }
  }
}
