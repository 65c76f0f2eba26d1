/** The bounded output of a background process: two readers append lines to two
    buffers that share one character limit.

    A reader gives control away only while it waits for its next line, so any
    interleaving of the two is a sequence of captured lines. */
module ProcessOutput {
  import opened Domain

  datatype Stream = Stdout | Stderr

  datatype Line = Line(stream: Stream, text: string)

  datatype Buffers = Buffers(out: seq<string>, err: seq<string>)

  function Chars(lines: seq<string>): nat {
    if lines == [] then 0 else |lines[0]| + Chars(lines[1..])
  }

  function Size(b: Buffers): nat {
    Chars(b.out) + Chars(b.err)
  }

  /** The eviction loop: the oldest line of stdout, or of stderr if stdout is empty. */
  function Evicted(limit: int, b: Buffers): Buffers
    decreases |b.out| + |b.err|
  {
    if Size(b) <= limit then b
    else if b.out != [] then Evicted(limit, Buffers(b.out[1..], b.err))
    else if b.err != [] then Evicted(limit, Buffers(b.out, b.err[1..]))
    else b
  }

  function Appended(b: Buffers, line: Line): Buffers {
    match line.stream
    case Stdout => Buffers(b.out + [line.text], b.err)
    case Stderr => Buffers(b.out, b.err + [line.text])
  }

  /** The buffers after a whole interleaving. */
  function Captured(limit: int, lines: seq<Line>): Buffers {
    if lines == [] then Buffers([], [])
    else Evicted(limit, Appended(Captured(limit, lines[..|lines| - 1]), lines[|lines| - 1]))
  }

  /** What one stream carried. */
  function Carried(lines: seq<Line>, stream: Stream): seq<string> {
    if lines == [] then []
    else
      var rest, last := Carried(lines[..|lines| - 1], stream), lines[|lines| - 1];
      if last.stream == stream then rest + [last.text] else rest
  }

  lemma {:induction false} CharsOfAppend(lines: seq<string>, text: string)
    ensures Chars(lines + [text]) == Chars(lines) + |text|
  {
    if lines == [] {
      assert [text][1..] == [];
    } else {
      CharsOfAppend(lines[1..], text);
      assert (lines + [text])[1..] == lines[1..] + [text];
    }
  }

  class ManagedProcess {
    const limit: int
    var stdout: seq<string>
    var stderr: seq<string>
    var outputChars: nat
    ghost var lines: seq<Line>

    ghost predicate Valid()
      reads this
    {
      && outputChars == Chars(stdout) + Chars(stderr)
      && Buffers(stdout, stderr) == Captured(limit, lines)
    }

    constructor (limit: int)
      ensures Valid() && this.limit == limit && lines == []
    {
      this.limit := limit;
      stdout, stderr, outputChars, lines := [], [], 0, [];
    }

    /** One line of one stream: append it, then evict until the limit is met. */
    method Capture(line: Line)
      requires Valid()
      modifies this
      ensures Valid() && lines == old(lines) + [line]
      ensures outputChars <= Max(0, limit)
    {
      ghost var appended := Appended(Buffers(stdout, stderr), line);
      match line.stream {
        case Stdout =>
          CharsOfAppend(stdout, line.text);
          stdout := stdout + [line.text];
        case Stderr =>
          CharsOfAppend(stderr, line.text);
          stderr := stderr + [line.text];
      }
      outputChars := outputChars + |line.text|;
      while outputChars > limit
        invariant outputChars == Chars(stdout) + Chars(stderr) && lines == old(lines)
        invariant Evicted(limit, Buffers(stdout, stderr)) == Evicted(limit, appended)
        decreases |stdout| + |stderr|
      {
        if stdout != [] {
          outputChars := outputChars - |stdout[0]|;
          stdout := stdout[1..];
        } else if stderr != [] {
          outputChars := outputChars - |stderr[0]|;
          stderr := stderr[1..];
        } else {
          break;
        }
      }
      lines := lines + [line];
      assert lines[..|lines| - 1] == old(lines);
    }
  }

  // -------------------------------------------------------------- theorems

  predicate Suffix(a: seq<string>, b: seq<string>) {
    |a| <= |b| && b[|b| - |a|..] == a
  }

  /** What one capture drops: stderr loses a line only once stdout is empty, and nothing is
      dropped beyond the first point at which the rest fits. */
  ghost predicate DropsLeast(limit: int, b: Buffers, i: nat, j: nat)
    requires i <= |b.out| && j <= |b.err|
  {
    && (j > 0 ==> i == |b.out|)
    && (Chars(b.out[i..]) + Chars(b.err[j..]) <= limit || (i == |b.out| && j == |b.err|))
    && (i > 0 ==> Chars(b.out[i - 1..]) + Chars(b.err) > limit)
    && (j > 0 ==> Chars(b.err[j - 1..]) > limit)
  }

  lemma {:induction false} EvictionDropsLeast(limit: int, b: Buffers) returns (i: nat, j: nat)
    ensures i <= |b.out| && j <= |b.err| && Evicted(limit, b) == Buffers(b.out[i..], b.err[j..])
    ensures DropsLeast(limit, b, i, j)
    decreases |b.out| + |b.err|
  {
    i, j := 0, 0;
    if Size(b) > limit {
      if b.out != [] {
        var i', j' := EvictionDropsLeast(limit, Buffers(b.out[1..], b.err));
        assert b.out[1..][i'..] == b.out[i' + 1..];
        if i' > 0 { assert b.out[1..][i' - 1..] == b.out[i'..]; }
        i, j := i' + 1, j';
      } else if b.err != [] {
        var i', j' := EvictionDropsLeast(limit, Buffers(b.out, b.err[1..]));
        assert b.err[1..][j'..] == b.err[j' + 1..];
        if j' > 0 { assert b.err[1..][j' - 1..] == b.err[j'..]; }
        i, j := i', j' + 1;
      }
    }
  }

  function With(carried: seq<string>, line: Line, stream: Stream): seq<string> {
    if line.stream == stream then carried + [line.text] else carried
  }

  lemma CaptureKeepsSuffixes(limit: int, b: Buffers, line: Line, out: seq<string>, err: seq<string>)
    requires Suffix(b.out, out) && Suffix(b.err, err)
    ensures
      var e := Evicted(limit, Appended(b, line));
      && Size(e) <= Max(0, limit)
      && Suffix(e.out, With(out, line, Stdout)) && Suffix(e.err, With(err, line, Stderr))
  {
    var a := Appended(b, line);
    AppendKeepsSuffix(b.out, out, line.text);
    AppendKeepsSuffix(b.err, err, line.text);
    var i, j := EvictionDropsLeast(limit, a);
    SuffixOfSuffix(a.out, With(out, line, Stdout), i);
    SuffixOfSuffix(a.err, With(err, line, Stderr), j);
  }

  /** Over any interleaving the size stays within the limit, and each buffer is a suffix
      of what its stream carried. */
  lemma {:induction false} BuffersAreSuffixes(limit: int, lines: seq<Line>)
    ensures
      var b := Captured(limit, lines);
      && Size(b) <= Max(0, limit)
      && Suffix(b.out, Carried(lines, Stdout)) && Suffix(b.err, Carried(lines, Stderr))
  {
    if lines != [] {
      var rest, last := lines[..|lines| - 1], lines[|lines| - 1];
      BuffersAreSuffixes(limit, rest);
      CaptureKeepsSuffixes(limit, Captured(limit, rest), last, Carried(rest, Stdout), Carried(rest, Stderr));
    }
  }

  lemma AppendKeepsSuffix(a: seq<string>, b: seq<string>, text: string)
    requires Suffix(a, b)
    ensures Suffix(a + [text], b + [text])
  {
    assert (b + [text])[|b| - |a|..] == b[|b| - |a|..] + [text];
  }

  lemma SuffixOfSuffix(a: seq<string>, b: seq<string>, i: nat)
    requires Suffix(a, b) && i <= |a|
    ensures Suffix(a[i..], b)
  {
    assert b[|b| - |a|..][i..] == b[|b| - |a| + i..];
  }

  ghost predicate UnfitBelow(limit: int, all: seq<string>, i: nat)
    requires i <= |all|
  {
    forall k :: 0 <= k < i ==> Chars(all[k..]) > limit
  }

  predicate FitsOrEnds(limit: int, all: seq<string>, i: nat)
    requires i <= |all|
  {
    Chars(all[i..]) <= limit || i == |all|
  }

  /** Where the longest suffix that fits starts: the first position from which it does. */
  ghost predicate FitsFrom(limit: int, all: seq<string>, i: nat) {
    i <= |all| && FitsOrEnds(limit, all, i) && UnfitBelow(limit, all, i)
  }

  lemma {:induction false} CharsShrink(lines: seq<string>, k: nat)
    requires k <= |lines|
    ensures Chars(lines[k..]) <= Chars(lines)
  {
    if k > 0 {
      CharsShrink(lines[1..], k - 1);
      assert lines[1..][k - 1..] == lines[k..];
    } else {
      assert lines[0..] == lines;
    }
  }

  lemma AppendKeepsUnfit(limit: int, was: seq<string>, line: Line, start: nat)
    requires start <= |was| && UnfitBelow(limit, was, start)
    ensures UnfitBelow(limit, With(was, line, Stderr), start)
  {
    var all := With(was, line, Stderr);
    forall k | 0 <= k < start
      ensures Chars(all[k..]) > limit
    {
      if line.stream.Stderr? {
        CharsOfAppend(was[k..], line.text);
        assert all[k..] == was[k..] + [line.text];
      }
    }
  }

  /** Evicting from a suffix leaves the longest one that fits. */
  lemma NarrowedFits(limit: int, all: seq<string>, start: nat, j: nat)
    requires start + j <= |all| && UnfitBelow(limit, all, start)
    requires FitsOrEnds(limit, all[start..], j) && (j > 0 ==> Chars(all[start..][j - 1..]) > limit)
    ensures FitsFrom(limit, all, start + j)
  {
    DropTwice(all, start, j);
    if j > 0 { DropTwice(all, start, j - 1); }
    forall k | start <= k < start + j
      ensures Chars(all[k..]) > limit
    {
      DropTwice(all, k, start + j - 1 - k);
      CharsShrink(all[k..], start + j - 1 - k);
    }
  }

  lemma DropTwice(s: seq<string>, i: nat, j: nat)
    requires i + j <= |s|
    ensures s[i..][j..] == s[i + j..]
  {}

  /** What an eviction leaves of stderr fits by itself, and one line more would not. */
  lemma EvictionOfErr(limit: int, a: Buffers) returns (j: nat)
    ensures j <= |a.err| && Evicted(limit, a).err == a.err[j..]
    ensures FitsOrEnds(limit, a.err, j) && (j > 0 ==> Chars(a.err[j - 1..]) > limit)
  {
    var i;
    i, j := EvictionDropsLeast(limit, a);
  }

  lemma CaptureKeepsFit(limit: int, b: Buffers, line: Line, was: seq<string>, start: nat) returns (i: nat)
    requires FitsFrom(limit, was, start) && b.err == was[start..]
    ensures FitsFrom(limit, With(was, line, Stderr), i)
    ensures Evicted(limit, Appended(b, line)).err == With(was, line, Stderr)[i..]
  {
    var a, all := Appended(b, line), With(was, line, Stderr);
    AppendKeepsUnfit(limit, was, line, start);
    ErrOfAppend(b, line, was, start);
    var j := EvictionOfErr(limit, a);
    NarrowedFits(limit, all, start, j);
    DropTwice(all, start, j);
    i := start + j;
  }

  lemma ErrOfAppend(b: Buffers, line: Line, was: seq<string>, start: nat)
    requires start <= |was| && b.err == was[start..]
    ensures Appended(b, line).err == With(was, line, Stderr)[start..]
  {}

  /** Stdout is what gives way: whatever it carried, the stderr buffer is exactly the
      longest suffix of stderr that fits the limit by itself. */
  lemma {:induction false} StderrKeepsAllThatFits(limit: int, lines: seq<Line>) returns (i: nat)
    ensures FitsFrom(limit, Carried(lines, Stderr), i)
    ensures Captured(limit, lines).err == Carried(lines, Stderr)[i..]
  {
    i := 0;
    if lines != [] {
      var rest, last := lines[..|lines| - 1], lines[|lines| - 1];
      var start := StderrKeepsAllThatFits(limit, rest);
      i := CaptureKeepsFit(limit, Captured(limit, rest), last, Carried(rest, Stderr), start);
    }
  }

  /** Output that fits is never lost. */
  lemma {:induction false} ShortOutputIsKept(limit: int, lines: seq<Line>)
    requires Chars(Carried(lines, Stdout)) + Chars(Carried(lines, Stderr)) <= limit
    ensures Captured(limit, lines) == Buffers(Carried(lines, Stdout), Carried(lines, Stderr))
  {
    if lines != [] {
      var n := |lines| - 1;
      CharsOfAppend(Carried(lines[..n], lines[n].stream), lines[n].text);
      assert lines[n].stream.Stdout? || lines[n].stream.Stderr?;
      ShortOutputIsKept(limit, lines[..n]);
    }
  }

  // ------------------------------------------------------------ identifiers

  datatype Lookup = Found(id: string) | Ambiguous | Unknown

  function StripDots(s: string): string {
    if s != "" && s[|s| - 1] == '.' then StripDots(s[..|s| - 1]) else s
  }

  const MIN_PREFIX := 6

  /** An identifier is taken as it is, or as the prefix of exactly one process. */
  method Get(processes: set<string>, id: string) returns (r: Lookup)
    ensures r.Found? <==> id in processes || (exists k :: OnlyMatch(processes, StripDots(id), k))
    ensures r.Found? && id in processes ==> r.id == id
    ensures r.Found? && id !in processes ==> OnlyMatch(processes, StripDots(id), r.id)
    ensures r.Unknown? <==> id !in processes && forall k :: k in processes ==> !Matches(StripDots(id), k)
  {
    if id in processes {
      return Found(id);
    }
    var prefix := StripDots(id);
    var matches := set k | k in processes && Matches(prefix, k);
    assert forall k :: k in processes && Matches(prefix, k) ==> k in matches;
    if matches == {} {
      return Unknown;
    }
    var k :| k in matches;
    if matches == {k} {
      assert Matches(StripDots(id), k) && OnlyMatch(processes, StripDots(id), k);
      return Found(k);
    }
    assert exists other :: other in matches && other != k;
    r := Ambiguous;
  }

  predicate Matches(prefix: string, key: string) {
    |prefix| >= MIN_PREFIX && prefix <= key
  }

  ghost predicate OnlyMatch(processes: set<string>, prefix: string, key: string) {
    key in processes && Matches(prefix, key) && forall k :: k in processes && Matches(prefix, k) ==> k == key
  }
}
