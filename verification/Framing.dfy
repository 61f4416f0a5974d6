/** Cutting the byte stream of a connection into lines.  The receive loop sees the stream in
    chunks of the kernel's choosing; the reference is the stream cut at its newlines. */
module Framing {
  import opened Decimal

  function FindNewline(s: string): (n: Option<nat>)
    ensures n.None? ==> '\n' !in s
    ensures n.Some? ==> n.value < |s| && s[n.value] == '\n' && '\n' !in s[..n.value]
  {
    if s == "" then None
    else if s[0] == '\n' then Some(0)
    else match FindNewline(s[1..])
      case None => None
      case Some(n) =>
        assert s[..n + 1] == [s[0]] + s[1..][..n];
        Some(n + 1)
  }

  // ---------- The reference ----------

  // The complete lines of a stream, and what follows the last newline.
  function Lines(s: string): seq<string>
    decreases |s|
  {
    match FindNewline(s)
    case None => []
    case Some(n) => [s[..n]] + Lines(s[n + 1..])
  }

  function Tail(s: string): string
    decreases |s|
  {
    match FindNewline(s)
    case None => s
    case Some(n) => Tail(s[n + 1..])
  }

  // The lines up to and including the first one that ends the conversation.
  function UpToLast(lines: seq<string>, isLast: string -> bool): seq<string> {
    if lines == [] then []
    else if isLast(lines[0]) then [lines[0]]
    else [lines[0]] + UpToLast(lines[1..], isLast)
  }

  predicate HasLast(lines: seq<string>, isLast: string -> bool) {
    lines != [] && (isLast(lines[0]) || HasLast(lines[1..], isLast))
  }

  function Unlines(lines: seq<string>): string {
    if lines == [] then "" else lines[0] + "\n" + Unlines(lines[1..])
  }

  function Concat(chunks: seq<string>): string {
    if chunks == [] then "" else Concat(chunks[..|chunks| - 1]) + chunks[|chunks| - 1]
  }

  lemma {:induction false} FirstNewlineUnique(s: string, n: nat)
    requires n < |s| && s[n] == '\n' && '\n' !in s[..n]
    ensures FindNewline(s) == Some(n)
  {
    if n == 0 {
    } else {
      assert s[..n][0] == s[0];
      assert s[1..][..n - 1] == s[..n][1..];
      FirstNewlineUnique(s[1..], n - 1);
    }
  }

  ghost predicate NoNewlines(lines: seq<string>) {
    forall i :: 0 <= i < |lines| ==> '\n' !in lines[i]
  }

  lemma Regroup<T>(a: seq<T>, b: seq<T>, c: seq<T>)
    ensures (a + b) + c == a + (b + c)
  {
  }

  lemma SplitAtNewline(s: string, n: nat)
    requires n < |s| && s[n] == '\n'
    ensures s == (s[..n] + "\n") + s[n + 1..]
  {
  }

  lemma {:induction false} CutLosesNothing(s: string)
    ensures s == Unlines(Lines(s)) + Tail(s) && '\n' !in Tail(s) && NoNewlines(Lines(s))
    decreases |s|
  {
    match FindNewline(s)
    case None =>
    case Some(n) =>
      var rest := s[n + 1..];
      CutLosesNothing(rest);
      SplitAtNewline(s, n);
      CutOneMore(s, s[..n], Lines(rest), Tail(rest));
  }

  lemma CutOneMore(s: string, line: string, lines: seq<string>, tail: string)
    requires '\n' !in line && NoNewlines(lines)
    requires s == (line + "\n") + (Unlines(lines) + tail)
    ensures s == Unlines([line] + lines) + tail && NoNewlines([line] + lines)
  {
    assert ([line] + lines)[1..] == lines;
    Regroup(line + "\n", Unlines(lines), tail);
  }

  lemma {:induction false} CutOfWritten(lines: seq<string>, tail: string)
    requires NoNewlines(lines) && '\n' !in tail
    ensures Lines(Unlines(lines) + tail) == lines && Tail(Unlines(lines) + tail) == tail
  {
    var s := Unlines(lines) + tail;
    if lines == [] {
      assert s == tail;
    } else {
      var n := |lines[0]|;
      assert s == lines[0] + "\n" + (Unlines(lines[1..]) + tail);
      assert s[..n] == lines[0] && s[n + 1..] == Unlines(lines[1..]) + tail;
      FirstNewlineUnique(s, n);
      CutOfWritten(lines[1..], tail);
    }
  }

  /** Cutting loses nothing, and is the only way to write a stream as lines and a rest without newlines. */
  lemma LinesUnique(s: string, lines: seq<string>, tail: string)
    ensures lines == Lines(s) && tail == Tail(s)
            <==> s == Unlines(lines) + tail && '\n' !in tail && NoNewlines(lines)
  {
    CutLosesNothing(s);
    if s == Unlines(lines) + tail && '\n' !in tail && NoNewlines(lines) {
      CutOfWritten(lines, tail);
    }
  }

  lemma {:induction false} UnlinesConcat(a: seq<string>, b: seq<string>)
    ensures Unlines(a + b) == Unlines(a) + Unlines(b)
  {
    if a == [] {
      assert a + b == b;
    } else {
      UnlinesConcat(a[1..], b);
      assert (a + b)[1..] == a[1..] + b;
    }
  }

  /** More bytes only extend the last, unfinished line. */
  lemma LinesExtend(s: string, more: string)
    ensures Lines(s + more) == Lines(s) + Lines(Tail(s) + more)
    ensures Tail(s + more) == Tail(Tail(s) + more)
  {
    CutLosesNothing(s);
    CutLosesNothing(Tail(s) + more);
    LinesConcat(s, more, Lines(s), Tail(s), Lines(Tail(s) + more), Tail(Tail(s) + more));
  }

  lemma LinesConcat(s: string, more: string, a: seq<string>, tail: string, b: seq<string>, rest: string)
    requires NoNewlines(a) && NoNewlines(b) && '\n' !in rest
    requires s == Unlines(a) + tail && tail + more == Unlines(b) + rest
    ensures Lines(s + more) == a + b && Tail(s + more) == rest
  {
    UnlinesConcat(a, b);
    Regroup(Unlines(a), tail, more);
    Regroup(Unlines(a), Unlines(b), rest);
    CutOfWritten(a + b, rest);
  }

  // ---------- The receive loop ----------

  // What the loop over the newlines in the buffer takes out of it.
  datatype Taken = Taken(lines: seq<string>, rest: string, quit: bool)

  function TakeLines(input: string, isLast: string -> bool): Taken
    decreases |input|
  {
    match FindNewline(input)
    case None => Taken([], input, false)
    case Some(n) =>
      var line, rest := input[..n], input[n + 1..];
      if isLast(line) then Taken([line], rest, true)
      else
        var t := TakeLines(rest, isLast);
        Taken([line] + t.lines, t.rest, t.quit)
  }

  datatype Status = Reading | SawLast | TooLong

  // A connection as the receive handler keeps it: every line handled so far, the bytes buffered,
  // and whether it still reads.
  datatype Framer = Framer(lines: seq<string>, input: string, status: Status)

  function Feed(f: Framer, chunk: string, limit: nat, isLast: string -> bool): Framer {
    if !f.status.Reading? then f
    else
      var t := TakeLines(f.input + chunk, isLast);
      Framer(f.lines + t.lines, t.rest,
             if t.quit then SawLast else if |t.rest| > limit then TooLong else Reading)
  }

  function FeedAll(chunks: seq<string>, limit: nat, isLast: string -> bool): Framer {
    if chunks == [] then Framer([], "", Reading)
    else Feed(FeedAll(chunks[..|chunks| - 1], limit, isLast), chunks[|chunks| - 1], limit, isLast)
  }

  lemma UpToLastCons(line: string, lines: seq<string>, isLast: string -> bool)
    ensures UpToLast([line] + lines, isLast) == if isLast(line) then [line] else [line] + UpToLast(lines, isLast)
    ensures HasLast([line] + lines, isLast) <==> isLast(line) || HasLast(lines, isLast)
  {
    assert ([line] + lines)[1..] == lines;
  }

  ghost predicate TakenRight(t: Taken, lines: seq<string>, tail: string, isLast: string -> bool) {
    && t.lines == UpToLast(lines, isLast)
    && (t.quit <==> HasLast(lines, isLast))
    && (!t.quit ==> t.lines == lines && t.rest == tail)
  }

  lemma {:induction false} TakenAreLines(input: string, isLast: string -> bool)
    ensures TakenRight(TakeLines(input, isLast), Lines(input), Tail(input), isLast)
    decreases |input|
  {
    match FindNewline(input)
    case None =>
    case Some(n) =>
      var line, rest := input[..n], input[n + 1..];
      TakenAreLines(rest, isLast);
      UpToLastCons(line, Lines(rest), isLast);
  }

  lemma {:induction false} HasLastConcat(a: seq<string>, b: seq<string>, isLast: string -> bool)
    ensures HasLast(a + b, isLast) <==> HasLast(a, isLast) || HasLast(b, isLast)
  {
    if a == [] {
      assert a + b == b;
    } else {
      HasLastConcat(a[1..], b, isLast);
      assert (a + b)[1..] == a[1..] + b;
    }
  }

  lemma {:induction false} UpToLastConcat(a: seq<string>, b: seq<string>, isLast: string -> bool)
    ensures UpToLast(a + b, isLast) ==
            if HasLast(a, isLast) then UpToLast(a, isLast) else a + UpToLast(b, isLast)
  {
    if a == [] {
      assert a + b == b;
    } else {
      var first, rest := a[0], a[1..];
      assert (a + b)[1..] == rest + b && (a + b)[0] == first;
      UpToLastConcat(rest, b, isLast);
      if !isLast(first) {
        assert a == [first] + rest;
        Regroup([first], rest, UpToLast(b, isLast));
      }
    }
  }

  // The unfinished line that a connection has after some chunks, if it still reads then.
  predicate Overlong(s: string, limit: nat, isLast: string -> bool) {
    !HasLast(Lines(s), isLast) && |Tail(s)| > limit
  }

  function OverlongAfter(limit: nat, isLast: string -> bool): seq<string> -> bool {
    chunks => Overlong(Concat(chunks), limit, isLast)
  }

  ghost predicate AtSomeTime(bad: seq<string> -> bool, chunks: seq<string>) {
    exists k :: 0 <= k <= |chunks| && bad(chunks[..k])
  }

  ghost predicate SomePrefixOverlong(chunks: seq<string>, limit: nat, isLast: string -> bool) {
    AtSomeTime(OverlongAfter(limit, isLast), chunks)
  }

  // Whether a connection that has received this much stops reading: a line ended the conversation, or
  // the unfinished line is too long.
  predicate Stops(s: string, limit: nat, isLast: string -> bool) {
    HasLast(Lines(s), isLast) || |Tail(s)| > limit
  }

  // How many of the chunks are read: those up to the first after which the connection stops.
  function ReadCount(chunks: seq<string>, limit: nat, isLast: string -> bool): (k: nat)
    ensures k <= |chunks|
  {
    if chunks == [] then 0
    else
      var most := chunks[..|chunks| - 1];
      var k := ReadCount(most, limit, isLast);
      if k < |most| || Stops(Concat(most), limit, isLast) then k else |chunks|
  }

  // The part of the stream that is read.
  function ReadPart(chunks: seq<string>, limit: nat, isLast: string -> bool): string {
    Concat(chunks[..ReadCount(chunks, limit, isLast)])
  }

  // That count is the first at which the connection stops, or all of them.
  lemma {:induction false} ReadCountIsFirst(chunks: seq<string>, limit: nat, isLast: string -> bool)
    ensures var k := ReadCount(chunks, limit, isLast);
            && (k < |chunks| ==> Stops(Concat(chunks[..k]), limit, isLast))
            && forall j :: 0 <= j < k ==> !Stops(Concat(chunks[..j]), limit, isLast)
  {
    if chunks == [] {
    } else {
      var most := chunks[..|chunks| - 1];
      ReadCountIsFirst(most, limit, isLast);
      assert forall j :: 0 <= j <= |most| ==> most[..j] == chunks[..j];
      assert most[..|most|] == most;
    }
  }

  lemma ReadPartExtends(chunks: seq<string>, limit: nat, isLast: string -> bool)
    requires chunks != []
    ensures var before := ReadPart(chunks[..|chunks| - 1], limit, isLast);
            if Stops(before, limit, isLast) then ReadPart(chunks, limit, isLast) == before
            else before == Concat(chunks[..|chunks| - 1]) && ReadPart(chunks, limit, isLast) == Concat(chunks)
  {
    var most := chunks[..|chunks| - 1];
    ReadCountIsFirst(most, limit, isLast);
    assert most[..ReadCount(most, limit, isLast)] == chunks[..ReadCount(most, limit, isLast)];
    assert chunks[..|chunks|] == chunks && most[..|most|] == most;
  }

  // A connection that has read a stream: its lines are those of the stream up to the last one it
  // handles, it keeps every byte after them, and its status says why it stopped.
  ghost predicate HasRead(f: Framer, s: string, limit: nat, isLast: string -> bool) {
    && f.lines == UpToLast(Lines(s), isLast)
    && s == Unlines(f.lines) + f.input
    && (f.status.SawLast? <==> HasLast(Lines(s), isLast))
    && (f.status.TooLong? <==> !HasLast(Lines(s), isLast) && |Tail(s)| > limit)
    && (!f.status.SawLast? ==> f.lines == Lines(s) && f.input == Tail(s))
  }

  lemma {:induction false} TakenLoseNothing(input: string, isLast: string -> bool)
    ensures var t := TakeLines(input, isLast); input == Unlines(t.lines) + t.rest
    decreases |input|
  {
    match FindNewline(input)
    case None =>
    case Some(n) =>
      var line, rest := input[..n], input[n + 1..];
      SplitAtNewline(input, n);
      assert Unlines([line]) == line + "\n";
      if !isLast(line) {
        var t := TakeLines(rest, isLast);
        TakenLoseNothing(rest, isLast);
        assert ([line] + t.lines)[1..] == t.lines;
        Regroup(line + "\n", Unlines(t.lines), t.rest);
      }
  }

  lemma FeedReads(f: Framer, s: string, chunk: string, limit: nat, isLast: string -> bool)
    requires f.status.Reading? && HasRead(f, s, limit, isLast)
    ensures HasRead(Feed(f, chunk, limit, isLast), s + chunk, limit, isLast)
  {
    var input := Tail(s) + chunk;
    var t := TakeLines(input, isLast);
    LinesExtend(s, chunk);
    HasLastConcat(Lines(s), Lines(input), isLast);
    UpToLastConcat(Lines(s), Lines(input), isLast);
    TakenAreLines(input, isLast);
    TakenLoseNothing(input, isLast);
    CutLosesNothing(s);
    Joined(s, chunk, f.lines, Tail(s), t.lines, t.rest);
  }

  lemma Joined(s: string, chunk: string, a: seq<string>, tail: string, b: seq<string>, rest: string)
    requires s == Unlines(a) + tail && tail + chunk == Unlines(b) + rest
    ensures s + chunk == Unlines(a + b) + rest
  {
    UnlinesConcat(a, b);
    Regroup(Unlines(a), tail, chunk);
    Regroup(Unlines(a), Unlines(b), rest);
  }

  /** Whatever the chunks: the connection reads the stream up to the end of the first chunk that
      completes a QUIT or leaves an unfinished line beyond the limit; of that it handles exactly the
      lines, up to the first QUIT, and keeps exactly the bytes that follow them. */
  lemma {:induction false} ChunksAreRead(chunks: seq<string>, limit: nat, isLast: string -> bool)
    ensures HasRead(FeedAll(chunks, limit, isLast), ReadPart(chunks, limit, isLast), limit, isLast)
    ensures FeedAll(chunks, limit, isLast).status.Reading? ==> ReadPart(chunks, limit, isLast) == Concat(chunks)
  {
    if chunks == [] {
      assert Lines("") == [];
    } else {
      var most, chunk := chunks[..|chunks| - 1], chunks[|chunks| - 1];
      ChunksAreRead(most, limit, isLast);
      ReadPartExtends(chunks, limit, isLast);
      if FeedAll(most, limit, isLast).status.Reading? {
        FeedReads(FeedAll(most, limit, isLast), Concat(most), chunk, limit, isLast);
      }
    }
  }

  // A connection that still read before its last chunk has read all of them.
  lemma AllRead(chunks: seq<string>, limit: nat, isLast: string -> bool)
    requires chunks != [] ==> FeedAll(chunks[..|chunks| - 1], limit, isLast).status.Reading?
    ensures ReadPart(chunks, limit, isLast) == Concat(chunks)
    ensures HasRead(FeedAll(chunks, limit, isLast), Concat(chunks), limit, isLast)
  {
    ChunksAreRead(chunks, limit, isLast);
    if chunks == [] {
      assert chunks[..0] == [];
    } else {
      ChunksAreRead(chunks[..|chunks| - 1], limit, isLast);
      ReadPartExtends(chunks, limit, isLast);
    }
  }

  /** In particular chunks do not matter: the lines handled are those of the whole stream up to the first
      QUIT, unless some chunk ended inside an overlong line.  That exception happens exactly when the
      stream up to the end of some chunk has no QUIT and an unfinished line beyond the limit. */
  lemma ChunksDoNotMatter(chunks: seq<string>, limit: nat, isLast: string -> bool)
    ensures var f, s := FeedAll(chunks, limit, isLast), Concat(chunks);
            && (f.status.TooLong? <==> SomePrefixOverlong(chunks, limit, isLast))
            && (!f.status.TooLong? ==>
                  && f.lines == UpToLast(Lines(s), isLast)
                  && (f.status.SawLast? <==> HasLast(Lines(s), isLast)))
            && (f.status.Reading? ==> f.lines == Lines(s) && f.input == Tail(s) && |f.input| <= limit)
    ensures HasRead(FeedAll(chunks, limit, isLast), ReadPart(chunks, limit, isLast), limit, isLast)
  {
    WholeStream(chunks, limit, isLast);
    ChunksAreRead(chunks, limit, isLast);
  }

  lemma {:induction false} WholeStream(chunks: seq<string>, limit: nat, isLast: string -> bool)
    ensures var f, s := FeedAll(chunks, limit, isLast), Concat(chunks);
            && (f.status.TooLong? <==> SomePrefixOverlong(chunks, limit, isLast))
            && (!f.status.TooLong? ==>
                  && f.lines == UpToLast(Lines(s), isLast)
                  && (f.status.SawLast? <==> HasLast(Lines(s), isLast)))
            && (f.status.Reading? ==> f.lines == Lines(s) && f.input == Tail(s) && |f.input| <= limit)
  {
    AtSomeTimeExtends(OverlongAfter(limit, isLast), chunks);
    if chunks == [] {
    } else {
      var most, chunk := chunks[..|chunks| - 1], chunks[|chunks| - 1];
      WholeStream(most, limit, isLast);
      var g, s := FeedAll(most, limit, isLast), Concat(most);
      LinesExtend(s, chunk);
      HasLastConcat(Lines(s), Lines(Tail(s) + chunk), isLast);
      UpToLastConcat(Lines(s), Lines(Tail(s) + chunk), isLast);
      TakenAreLines(Tail(s) + chunk, isLast);
    }
  }

  lemma AtSomeTimeExtends(bad: seq<string> -> bool, chunks: seq<string>)
    ensures chunks == [] ==> (AtSomeTime(bad, chunks) <==> bad([]))
    ensures chunks != [] ==>
              (AtSomeTime(bad, chunks) <==> AtSomeTime(bad, chunks[..|chunks| - 1]) || bad(chunks))
  {
    assert chunks[..|chunks|] == chunks;
    if chunks != [] {
      var most := chunks[..|chunks| - 1];
      assert forall k :: 0 <= k <= |most| ==> most[..k] == chunks[..k];
    }
  }

  /** Two ways to cut the same stream into chunks handle the same lines, as long as neither ends a
      chunk inside an overlong line. */
  lemma SameStreamSameLines(a: seq<string>, b: seq<string>, limit: nat, isLast: string -> bool)
    requires Concat(a) == Concat(b)
    requires !SomePrefixOverlong(a, limit, isLast) && !SomePrefixOverlong(b, limit, isLast)
    ensures FeedAll(a, limit, isLast).lines == FeedAll(b, limit, isLast).lines
    ensures FeedAll(a, limit, isLast).status == FeedAll(b, limit, isLast).status
  {
    ChunksDoNotMatter(a, limit, isLast);
    ChunksDoNotMatter(b, limit, isLast);
  }

  function Letters(n: nat): string {
    seq(n, _ => 'a')
  }

  function SingleLetters(n: nat): seq<string> {
    seq(n, _ => "a")
  }

  lemma {:induction false} FeedLetters(n: nat, limit: nat, isLast: string -> bool)
    requires n <= limit
    ensures FeedAll(SingleLetters(n), limit, isLast) == Framer([], Letters(n), Reading)
    ensures Concat(SingleLetters(n)) == Letters(n)
  {
    if n == 0 {
    } else {
      FeedLetters(n - 1, limit, isLast);
      assert SingleLetters(n)[..n - 1] == SingleLetters(n - 1);
      assert Letters(n - 1) + "a" == Letters(n);
      assert FindNewline(Letters(n)) == None;
    }
  }

  lemma TakeOneLine(line: string, isLast: string -> bool)
    requires '\n' !in line && !isLast(line)
    ensures TakeLines(line, isLast) == Taken([], line, false)
    ensures TakeLines(line + "\n", isLast) == Taken([line], "", false)
  {
    FirstNewlineUnique(line + "\n", |line|);
    assert (line + "\n")[..|line|] == line && (line + "\n")[|line| + 1..] == "";
    assert TakeLines("", isLast) == Taken([], "", false);
  }

  lemma FeedMore(chunks: seq<string>, chunk: string, limit: nat, isLast: string -> bool)
    ensures FeedAll(chunks + [chunk], limit, isLast) == Feed(FeedAll(chunks, limit, isLast), chunk, limit, isLast)
    ensures Concat(chunks + [chunk]) == Concat(chunks) + chunk
  {
    assert (chunks + [chunk])[..|chunks|] == chunks;
  }

  lemma LongLineAtOnce(f: Framer, limit: nat, isLast: string -> bool)
    requires f == Framer([], Letters(limit), Reading) && !isLast(Letters(limit + 1))
    ensures Feed(f, "a\n", limit, isLast) == Framer([Letters(limit + 1)], "", Reading)
  {
    assert Letters(limit) + "a\n" == Letters(limit + 1) + "\n";
    TakeOneLine(Letters(limit + 1), isLast);
  }

  lemma LongLineInTwo(f: Framer, limit: nat, isLast: string -> bool)
    requires f == Framer([], Letters(limit), Reading) && !isLast(Letters(limit + 1))
    ensures Feed(Feed(f, "a", limit, isLast), "\n", limit, isLast) == Framer([], Letters(limit + 1), TooLong)
  {
    assert Letters(limit) + "a" == Letters(limit + 1);
    TakeOneLine(Letters(limit + 1), isLast);
  }

  /** The chunks do matter for overlong lines: for every limit there is a stream that one chunking
      takes as a line and another refuses. */
  lemma ChunksMatterForLongLines(limit: nat, isLast: string -> bool)
    requires !isLast(Letters(limit + 1))
    ensures var a, b := SingleLetters(limit) + ["a\n"], SingleLetters(limit) + ["a"] + ["\n"];
            && Concat(a) == Concat(b)
            && FeedAll(a, limit, isLast) == Framer([Letters(limit + 1)], "", Reading)
            && FeedAll(b, limit, isLast) == Framer([], Letters(limit + 1), TooLong)
  {
    var singles := SingleLetters(limit);
    FeedLetters(limit, limit, isLast);
    FeedMore(singles, "a\n", limit, isLast);
    FeedMore(singles, "a", limit, isLast);
    FeedMore(singles + ["a"], "\n", limit, isLast);
    Regroup(Letters(limit), "a", "\n");
    assert "a" + "\n" == "a\n";
    LongLineAtOnce(FeedAll(singles, limit, isLast), limit, isLast);
    LongLineInTwo(FeedAll(singles, limit, isLast), limit, isLast);
  }

  /** With chunks of at most the buffer's size, no handled line is longer than the limit plus one buffer. */
  lemma {:induction false} HandledLinesAreShort(chunks: seq<string>, limit: nat, buffer: nat, isLast: string -> bool)
    requires forall i :: 0 <= i < |chunks| ==> |chunks[i]| <= buffer
    ensures forall line :: line in FeedAll(chunks, limit, isLast).lines ==> |line| < limit + buffer
  {
    if chunks == [] {
    } else {
      var most, chunk := chunks[..|chunks| - 1], chunks[|chunks| - 1];
      HandledLinesAreShort(most, limit, buffer, isLast);
      ChunksDoNotMatter(most, limit, isLast);
      FeedIsShort(FeedAll(most, limit, isLast), chunk, limit, buffer, isLast);
    }
  }

  lemma FeedIsShort(f: Framer, chunk: string, limit: nat, buffer: nat, isLast: string -> bool)
    requires f.status.Reading? ==> |f.input| <= limit
    requires |chunk| <= buffer
    requires forall line :: line in f.lines ==> |line| < limit + buffer
    ensures forall line :: line in Feed(f, chunk, limit, isLast).lines ==> |line| < limit + buffer
  {
    TakenAreShort(f.input + chunk, isLast);
  }

  lemma {:induction false} TakenAreShort(input: string, isLast: string -> bool)
    ensures forall line :: line in TakeLines(input, isLast).lines ==> |line| < |input|
    decreases |input|
  {
    match FindNewline(input)
    case None =>
    case Some(n) => TakenAreShort(input[n + 1..], isLast);
  }

  // Only the last of the lines ends the conversation, and it does so iff `ended`.
  ghost predicate EndsWithLast(lines: seq<string>, ended: bool, isLast: string -> bool) {
    && (ended ==> lines != [])
    && forall i :: 0 <= i < |lines| ==> (isLast(lines[i]) <==> ended && i == |lines| - 1)
  }

  lemma EndsOneMore(line: string, lines: seq<string>, ended: bool, isLast: string -> bool)
    requires !isLast(line) && EndsWithLast(lines, ended, isLast)
    ensures EndsWithLast([line] + lines, ended, isLast)
  {
    forall i | 0 <= i < |[line] + lines|
      ensures isLast(([line] + lines)[i]) <==> ended && i == |[line] + lines| - 1
    {
      if i > 0 { assert ([line] + lines)[i] == lines[i - 1]; }
    }
  }

  lemma EndsAfter(before: seq<string>, lines: seq<string>, ended: bool, isLast: string -> bool)
    requires EndsWithLast(before, false, isLast) && EndsWithLast(lines, ended, isLast)
    ensures EndsWithLast(before + lines, ended, isLast)
  {
    forall i | 0 <= i < |before + lines|
      ensures isLast((before + lines)[i]) <==> ended && i == |before + lines| - 1
    {
      assert (before + lines)[i] == if i < |before| then before[i] else lines[i - |before|];
    }
  }

  lemma {:induction false} TakenEndWithLast(input: string, isLast: string -> bool)
    ensures EndsWithLast(TakeLines(input, isLast).lines, TakeLines(input, isLast).quit, isLast)
    decreases |input|
  {
    match FindNewline(input)
    case None =>
    case Some(n) =>
      if !isLast(input[..n]) {
        var t := TakeLines(input[n + 1..], isLast);
        TakenEndWithLast(input[n + 1..], isLast);
        EndsOneMore(input[..n], t.lines, t.quit, isLast);
      }
  }

  /** The line that ends the conversation is the last one handled. */
  lemma {:induction false} NothingAfterTheLast(chunks: seq<string>, limit: nat, isLast: string -> bool)
    ensures var f := FeedAll(chunks, limit, isLast); EndsWithLast(f.lines, f.status.SawLast?, isLast)
  {
    if chunks == [] {
    } else {
      var f, chunk := FeedAll(chunks[..|chunks| - 1], limit, isLast), chunks[|chunks| - 1];
      NothingAfterTheLast(chunks[..|chunks| - 1], limit, isLast);
      if f.status.Reading? {
        var t := TakeLines(f.input + chunk, isLast);
        TakenEndWithLast(f.input + chunk, isLast);
        EndsAfter(f.lines, t.lines, t.quit, isLast);
      }
    }
  }
}
