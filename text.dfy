/** String operations of Python's `str` type that the core relies on, over `seq<char>`. */
module Text {
  import opened Wrappers

  /** Python's `str()`, as in an f-string, of an optional text: `None` prints as "None". */
  function Str(o: Option<string>): string
  {
    if o.None? then "None" else o.value
  }

  /** `s.startswith(p)` */
  predicate StartsWith(s: string, p: string)
  {
    |p| <= |s| && s[..|p|] == p
  }

  /** `sub in s` */
  predicate Contains(s: string, sub: string)
    decreases |s|
  {
    StartsWith(s, sub) || (|s| > 0 && Contains(s[1..], sub))
  }

  /** `''.join(parts)` */
  function Concat(parts: seq<string>): string
  {
    if parts == [] then [] else Concat(parts[..|parts| - 1]) + parts[|parts| - 1]
  }

  /** Every part followed by the separator character, all concatenated. */
  function Terminated(parts: seq<string>, c: char): string
  {
    if parts == [] then [] else Terminated(parts[..|parts| - 1], c) + parts[|parts| - 1] + [c]
  }

  /** `sep.join(parts)` */
  function JoinWith(parts: seq<string>, sep: string): string
  {
    if parts == [] then []
    else if |parts| == 1 then parts[0]
    else JoinWith(parts[..|parts| - 1], sep) + sep + parts[|parts| - 1]
  }

  /** `s.split(c)` for a one-character separator: never empty, and `''.split(c) == ['']`. */
  function Split(s: string, c: char): (r: seq<string>)
    ensures |r| >= 1
    ensures forall i :: 0 <= i < |r| ==> c !in r[i]
  {
    if s == [] then [""]
    else
      var rest := Split(s[1..], c);
      if s[0] == c then [""] + rest else [[s[0]] + rest[0]] + rest[1..]
  }

  lemma TerminatedCons(x: string, parts: seq<string>, c: char)
    ensures Terminated([x] + parts, c) == x + [c] + Terminated(parts, c)
    decreases |parts|
  {
    if parts != [] {
      assert ([x] + parts)[..|parts|] == [x] + parts[..|parts| - 1];
      TerminatedCons(x, parts[..|parts| - 1], c);
    }
  }

  /** A separator in front of a split string adds an empty first piece. */
  lemma RejoinAfterSeparator(rest: seq<string>, t: string, c: char)
    requires |rest| >= 1 && Terminated(rest[..|rest| - 1], c) + rest[|rest| - 1] == t
    ensures var r := [""] + rest; Terminated(r[..|r| - 1], c) + r[|r| - 1] == [c] + t
  {
    var r := [""] + rest;
    assert r[..|r| - 1] == [""] + rest[..|rest| - 1];
    TerminatedCons("", rest[..|rest| - 1], c);
  }

  /** Any other character in front extends the first piece. */
  lemma RejoinAfterChar(x: char, rest: seq<string>, t: string, c: char)
    requires |rest| >= 1 && Terminated(rest[..|rest| - 1], c) + rest[|rest| - 1] == t
    ensures var r := [[x] + rest[0]] + rest[1..]; Terminated(r[..|r| - 1], c) + r[|r| - 1] == [x] + t
  {
    var r := [[x] + rest[0]] + rest[1..];
    if |rest| == 1 {
      assert r[..|r| - 1] == [];
    } else {
      var init := rest[..|rest| - 1];
      assert init == [rest[0]] + init[1..];
      TerminatedCons(rest[0], init[1..], c);
      assert r[..|r| - 1] == [[x] + rest[0]] + init[1..];
      TerminatedCons([x] + rest[0], init[1..], c);
    }
  }

  /** Splitting and re-joining gives back the string: the complete pieces, each followed by the
      separator, then the last piece. */
  lemma {:induction false} SplitRejoins(s: string, c: char)
    ensures var r := Split(s, c); Terminated(r[..|r| - 1], c) + r[|r| - 1] == s
  {
    if s != [] {
      SplitRejoins(s[1..], c);
      if s[0] == c {
        RejoinAfterSeparator(Split(s[1..], c), s[1..], c);
      } else {
        RejoinAfterChar(s[0], Split(s[1..], c), s[1..], c);
      }
      assert s == [s[0]] + s[1..];
    }
  }

  lemma SplitNoSeparator(s: string, c: char)
    requires c !in s
    ensures Split(s, c) == [s]
  {
    if s != [] {
      SplitNoSeparator(s[1..], c);
      assert s == [s[0]] + s[1..];
    }
  }

  lemma {:induction false} SplitAtFirst(x: string, y: string, c: char)
    requires c !in x
    ensures Split(x + [c] + y, c) == [x] + Split(y, c)
    decreases |x|
  {
    if x == [] {
      assert x + [c] + y == [c] + y;
      assert (x + [c] + y)[1..] == y;
    } else {
      assert (x + [c] + y)[1..] == x[1..] + [c] + y;
      SplitAtFirst(x[1..], y, c);
      assert [x[0]] + x[1..] == x;
    }
  }

  /** The pieces of `Split` are the only separator-free pieces that rejoin to the string. */
  lemma {:induction false} SplitUnique(parts: seq<string>, last: string, c: char)
    requires forall i :: 0 <= i < |parts| ==> c !in parts[i]
    requires c !in last
    ensures Split(Terminated(parts, c) + last, c) == parts + [last]
    decreases |parts|
  {
    if parts == [] {
      assert Terminated(parts, c) + last == last;
      SplitNoSeparator(last, c);
    } else {
      TerminatedCons(parts[0], parts[1..], c);
      assert parts == [parts[0]] + parts[1..];
      SplitUnique(parts[1..], last, c);
      assert Terminated(parts, c) + last == parts[0] + [c] + (Terminated(parts[1..], c) + last);
      SplitAtFirst(parts[0], Terminated(parts[1..], c) + last, c);
    }
  }

  lemma AppendAssoc<T>(a: seq<T>, b: seq<T>, c: seq<T>)
    ensures (a + b) + c == a + (b + c)
  {
  }

  lemma ConcatAppend(a: seq<string>, b: seq<string>)
    ensures Concat(a + b) == Concat(a) + Concat(b)
    decreases |b|
  {
    if b == [] {
      assert a + b == a;
    } else {
      assert (a + b)[..|a + b| - 1] == a + b[..|b| - 1];
      ConcatAppend(a, b[..|b| - 1]);
    }
  }

  /** `s.split(c, 1)[1]`: the text after the first `c` (only applied where `c` occurs). */
  function AfterFirst(s: string, c: char): string
    decreases |s|
  {
    if s == [] then [] else if s[0] == c then s[1..] else AfterFirst(s[1..], c)
  }

  /** After a prefix whose only `c` is its last character comes exactly the rest. */
  lemma {:induction false} AfterFirstPrefix(x: string, y: string, c: char)
    requires c !in x
    ensures AfterFirst(x + [c] + y, c) == y
    decreases |x|
  {
    if x != [] {
      assert (x + [c] + y)[1..] == x[1..] + [c] + y;
      AfterFirstPrefix(x[1..], y, c);
    } else {
      assert (x + [c] + y)[1..] == y;
    }
  }

  /** The last index of `c` in `s`, if any. */
  function LastIndexOf(s: string, c: char): (r: Option<nat>)
    ensures r.Some? ==> r.value < |s| && s[r.value] == c && c !in s[r.value + 1..]
    ensures r.None? ==> c !in s
  {
    if s == [] then None
    else if s[|s| - 1] == c then Some(|s| - 1)
    else
      var r := LastIndexOf(s[..|s| - 1], c);
      assert s[..|s| - 1] + [s[|s| - 1]] == s;
      r
  }

  /** `s.rsplit(c, 1)` when it has two parts: the text before and after the last `c`. */
  function RSplitOnce(s: string, c: char): (r: Option<(string, string)>)
    ensures r.None? <==> c !in s
    ensures r.Some? ==> s == r.value.0 + [c] + r.value.1 && c !in r.value.1
  {
    match LastIndexOf(s, c)
    case None => None
    case Some(i) =>
      assert s == s[..i] + [c] + s[i + 1..];
      Some((s[..i], s[i + 1..]))
  }

  /** The split is at the last `c`: it gives back any text before it and the `c`-free rest. */
  lemma RSplitOnceAt(x: string, y: string, c: char)
    requires c !in y
    ensures RSplitOnce(x + [c] + y, c) == Some((x, y))
  {
    var s := x + [c] + y;
    assert s[|x|] == c;
    var r := RSplitOnce(s, c);
    var p := r.value.0;
    var t := r.value.1;
    assert |p| == |x|;
    assert p == s[..|x|] && x == s[..|x|];
    assert t == s[|x| + 1..] && y == s[|x| + 1..];
  }

  /** The line boundaries of Python's `str.splitlines`. */
  predicate IsLineBoundary(ch: char)
  {
    ch in {'\n', '\r', '\U{000B}', '\U{000C}', '\U{001C}', '\U{001D}', '\U{001E}', '\U{0085}', '\U{2028}', '\U{2029}'}
  }

  /** Index of the first line boundary in `s`, or `|s|`. */
  function FirstBoundary(s: string): (i: nat)
    ensures i <= |s| && (i < |s| ==> IsLineBoundary(s[i]))
    ensures forall k :: 0 <= k < i ==> !IsLineBoundary(s[k])
  {
    if s == [] then 0
    else if IsLineBoundary(s[0]) then 0
    else 1 + FirstBoundary(s[1..])
  }

  /** `s.splitlines()`: `\r\n` is one boundary, and there is no empty last line after a final
      boundary. */
  function SplitLines(s: string): (r: seq<string>)
    ensures forall j :: 0 <= j < |r| ==> forall k :: 0 <= k < |r[j]| ==> !IsLineBoundary(r[j][k])
    decreases |s|
  {
    if s == [] then []
    else
      var i := FirstBoundary(s);
      if i == |s| then [s]
      else
        var width := if s[i] == '\r' && i + 1 < |s| && s[i + 1] == '\n' then 2 else 1;
        [s[..i]] + SplitLines(s[i + width..])
  }

  /** `str(n)` for a natural number. */
  function NatToString(n: nat): (r: string)
    ensures |r| >= 1
    ensures forall k :: 0 <= k < |r| ==> '0' <= r[k] <= '9'
  {
    var d := [(n % 10) as char + '0'];
    if n < 10 then d else NatToString(n / 10) + d
  }

  /** `str(n)` for an integer. */
  function IntToString(n: int): (r: string)
    ensures |r| >= 1 && (r[0] == '-' <==> n < 0)
    ensures n < 0 ==> r[1..] == NatToString(-n)
    ensures n >= 0 ==> r == NatToString(n)
  {
    if n < 0 then "-" + NatToString(-n) else NatToString(n)
  }
}
