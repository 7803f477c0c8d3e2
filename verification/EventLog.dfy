/** The bounded event log of src/diagnostics/logger.ts. */
module EventLog {
  import opened Text

  const MAX_LOG_BYTES := 256 * 1024
  const MAX_LOG_EVENTS := 500

  function NonEmpty(parts: seq<string>): seq<string> {
    if parts == [] then []
    else (if parts[0] == "" then [] else [parts[0]]) + NonEmpty(parts[1..])
  }

  /** `split('\n').filter(Boolean)`. */
  function Lines(contents: string): seq<string> { NonEmpty(Split(contents, '\n')) }

  /** The lines joined, with a last line ending. */
  function Ended(lines: seq<string>): string { Join(lines, "\n") + "\n" }

  /** The text of a log with these lines. */
  function Render(lines: seq<string>): string {
    if lines == [] then "" else Ended(lines)
  }

  predicate IsLine(line: string) { line != "" && '\n' !in line }

  predicate AreLines(lines: seq<string>) {
    forall i :: 0 <= i < |lines| ==> IsLine(lines[i])
  }

  predicate Fits(lines: seq<string>) {
    |lines| <= MAX_LOG_EVENTS && ByteLength(Render(lines)) <= MAX_LOG_BYTES
  }

  /** The longest suffix that fits, or the newest line alone. */
  function Newest(history: seq<string>): seq<string> {
    if |history| <= 1 || Fits(history) then history else Newest(history[1..])
  }

  /** Every line of the text is ended. */
  predicate Whole(contents: string) {
    contents == "" || contents[|contents| - 1] == '\n'
  }

  // ---------------------------------------------------- cutting from the front

  lemma Limits()
    ensures MAX_LOG_EVENTS == 500 && MAX_LOG_BYTES == 262144
  {}

  lemma NewestShifts(lines: seq<string>)
    requires |lines| > 1 && ByteLength(Ended(lines)) > MAX_LOG_BYTES
    ensures Newest(lines) == Newest(lines[1..])
  {
    hide ByteLength, Ended;
  }

  lemma NewestStops(lines: seq<string>)
    requires 1 <= |lines| <= MAX_LOG_EVENTS
    requires ByteLength(Ended(lines)) <= MAX_LOG_BYTES || |lines| == 1
    ensures Newest(lines) == lines && Render(lines) == Ended(lines)
  {
    hide ByteLength, Ended;
  }

  lemma {:induction false} NewestOfMany(lines: seq<string>)
    requires |lines| > MAX_LOG_EVENTS
    ensures Newest(lines) == Newest(lines[|lines| - MAX_LOG_EVENTS..])
  {
    hide ByteLength, Join;
    if |lines| > MAX_LOG_EVENTS + 1 {
      NewestOfMany(lines[1..]);
      assert lines[1..][|lines| - 1 - MAX_LOG_EVENTS..] == lines[|lines| - MAX_LOG_EVENTS..];
    }
  }

  // --------------------------------------------------------------- text and lines

  lemma {:induction false} PartsAreFree(s: string, separator: char)
    ensures forall i :: 0 <= i < |Split(s, separator)| ==> separator !in Split(s, separator)[i]
  {
    if s != "" {
      PartsAreFree(s[1..], separator);
    }
  }

  lemma {:induction false} NonEmptyAppend(a: seq<string>, b: seq<string>)
    ensures NonEmpty(a + b) == NonEmpty(a) + NonEmpty(b)
  {
    if a == [] {
      assert a + b == b;
    } else {
      assert (a + b)[1..] == a[1..] + b;
      NonEmptyAppend(a[1..], b);
    }
  }

  lemma {:induction false} NonEmptyAreLines(parts: seq<string>)
    requires forall i :: 0 <= i < |parts| ==> '\n' !in parts[i]
    ensures AreLines(NonEmpty(parts))
    ensures AreLines(parts) ==> NonEmpty(parts) == parts
  {
    if parts != [] {
      NonEmptyAreLines(parts[1..]);
    }
  }

  lemma LinesAreLines(contents: string)
    ensures AreLines(Lines(contents))
  {
    PartsAreFree(contents, '\n');
    NonEmptyAreLines(Split(contents, '\n'));
  }

  /** Reading back what was written: a line ending splits nothing else. */
  lemma LinesOfTwo(a: string, b: string)
    ensures Lines(a + "\n" + b) == Lines(a) + Lines(b)
  {
    hide Split, NonEmpty;
    SplitAppend(a, b, '\n');
    NonEmptyAppend(Split(a, '\n'), Split(b, '\n'));
  }

  lemma LinesOfLine(line: string)
    requires IsLine(line)
    ensures Lines(line) == [line] && Lines("") == []
  {
    SplitPart(line, "", '\n');
    assert line + "" == line;
    assert Split(line, '\n') == [line];
    assert Split("", '\n') == [""];
    assert [line][1..] == [] && [""][1..] == [];
    assert NonEmpty([line]) == [line] + NonEmpty([]);
    assert NonEmpty([""]) == [] + NonEmpty([]);
  }

  lemma ManyLines(lines: seq<string>)
    requires AreLines(lines)
    ensures forall i :: 0 <= i < |lines| ==> '\n' !in lines[i]
  {}

  lemma LinesSplit(contents: string)
    ensures Lines(contents) == NonEmpty(Split(contents, '\n'))
  {}

  lemma {:induction false} LinesOfJoin(lines: seq<string>)
    requires AreLines(lines) && lines != []
    ensures Lines(Join(lines, "\n")) == lines
  {
    hide *;
    ManyLines(lines);
    SplitJoin(lines, '\n');
    NonEmptyAreLines(lines);
    LinesSplit(Join(lines, "\n"));
  }

  /** A rendered log is read back line by line. */
  lemma LinesOfRender(lines: seq<string>)
    requires AreLines(lines)
    ensures Lines(Render(lines)) == lines
  {
    hide Split, NonEmpty, Join, Lines;
    LinesOfLine("x");
    if lines != [] {
      LinesOfJoin(lines);
      LinesOfTwo(Join(lines, "\n"), "");
      assert Join(lines, "\n") + "\n" + "" == Render(lines);
    }
  }

  lemma LinesEndAnywhere(contents: string)
    ensures Lines(contents + "\n") == Lines(contents)
  {
    hide Split, NonEmpty, Lines;
    LinesOfLine("x");
    LinesOfTwo(contents, "");
    assert contents + "\n" + "" == contents + "\n";
  }

  lemma LinesAndOne(contents: string, line: string)
    requires IsLine(line) && Whole(contents)
    ensures Lines(contents + line + "\n") == Lines(contents) + [line]
  {
    hide Split, NonEmpty, Lines, IsLine;
    LinesOfLine(line);
    LinesEndAnywhere(contents + line);
    if contents == "" {
      assert contents + line == line;
    } else {
      var before := contents[..|contents| - 1];
      LinesOfTwo(before, line);
      LinesEndAnywhere(before);
      assert contents == before + "\n";
    }
  }

  /** A character that is no line ending is in some line. */
  lemma {:induction false} LinesCover(s: string, i: nat)
    requires i < |s| && s[i] != '\n'
    ensures Lines(s) != []
  {
    SplitSteps(s, '\n');
    if i > 0 {
      LinesCover(s[1..], i - 1);
    }
  }

  lemma SomeLine(contents: string, line: string)
    requires IsLine(line)
    ensures Lines(contents + line + "\n") != []
  {
    hide Split, NonEmpty, Lines, Join;
    LinesEndAnywhere(contents + line);
    assert (contents + line)[|contents|] == line[0];
    LinesCover(contents + line, |contents|);
  }

  // ------------------------------------------------------------------- the loop

  class Log {
    /** The log file; absent is empty. */
    var contents: string

    /** `appendEvent`, for the printed text of an event. */
    method AppendEvent(line: string)
      requires IsLine(line)
      modifies this
      ensures contents == Render(Newest(Lines(old(contents) + line + "\n")))
      ensures Whole(old(contents)) ==> contents == Render(Newest(Lines(old(contents)) + [line]))
    {
      hide *;
      var lines := Lines(contents + line + "\n");
      SomeLine(contents, line);
      if Whole(contents) {
        LinesAndOne(contents, line);
      }
      contents := Trimmed(lines);
    }

    /** The cut to the newest 500 lines and the shifts down to 256 KiB. */
    static method Trimmed(all: seq<string>) returns (next: string)
      requires all != []
      ensures next == Render(Newest(all))
    {
      hide *;
      Limits();
      var lines := all;
      if |lines| > MAX_LOG_EVENTS {
        NewestOfMany(lines);
        lines := lines[|lines| - MAX_LOG_EVENTS..];
      }
      next := Ended(lines);
      while ByteLength(next) > MAX_LOG_BYTES && |lines| > 1
        invariant 1 <= |lines| <= MAX_LOG_EVENTS
        invariant Newest(lines) == Newest(all) && next == Ended(lines)
        decreases |lines|
      {
        NewestShifts(lines);
        lines := lines[1..];
        next := Ended(lines);
      }
      NewestStops(lines);
    }
  }

  // ------------------------------------------------------------------ every run

  /** The log text after an append. */
  function Appended(contents: string, line: string): string {
    Render(Newest(Lines(contents) + [line]))
  }

  /** The log text after some appends. */
  function Run(contents: string, events: seq<string>): string {
    if events == [] then contents
    else Appended(Run(contents, events[..|events| - 1]), events[|events| - 1])
  }

  lemma NewestSteps(history: seq<string>)
    ensures |history| <= 1 || Fits(history) ==> Newest(history) == history
    ensures |history| > 1 && !Fits(history) ==> Newest(history) == Newest(history[1..])
  {
    hide Fits;
  }

  lemma FitsPrefix(history: seq<string>, line: string)
    requires history != [] && Fits(history + [line])
    ensures Fits(history)
  {
    hide ByteLength;
    JoinAppend(history, line, "\n");
    var all := Render(history + [line]);
    assert all == Render(history) + (line + "\n") by {
      assert Join(history, "\n") + "\n" + line + "\n" == (Join(history, "\n") + "\n") + (line + "\n");
    }
    ByteLengthAppend(Render(history), line + "\n");
  }

  /** Dropping lines before an append does not change what an append keeps. */
  lemma {:induction false} NewestForgets(history: seq<string>, line: string)
    ensures Newest(Newest(history) + [line]) == Newest(history + [line])
  {
    hide *;
    NewestSteps(history);
    if |history| > 1 && !Fits(history) {
      NewestForgets(history[1..], line);
      assert (history + [line])[1..] == history[1..] + [line];
      if Fits(history + [line]) {
        FitsPrefix(history, line);
      }
      NewestSteps(history + [line]);
    }
  }

  lemma {:induction false} NewestIsSuffix(history: seq<string>)
    ensures |Newest(history)| <= |history|
    ensures Newest(history) == history[|history| - |Newest(history)|..]
    ensures history != [] ==> Newest(history) != []
  {
    hide Fits;
    if |history| > 1 && !Fits(history) {
      NewestIsSuffix(history[1..]);
    }
  }

  lemma {:induction false} NewestKeepsFitting(history: seq<string>, k: nat)
    requires k <= |history| && Fits(history[k..])
    ensures |Newest(history)| >= |history| - k
    ensures |Newest(history)| > 1 ==> Fits(Newest(history))
  {
    hide Fits;
    assert history[0..] == history;
    if |history| > 1 && !Fits(history) {
      assert history[1..][k - 1..] == history[k..];
      NewestKeepsFitting(history[1..], k - 1);
    }
  }

  lemma NothingFits()
    ensures Fits([])
  {}

  /** What is kept is a suffix of at most 500 lines that take at most 262144 bytes
      with their line endings, or the newest line alone, and no such suffix is
      longer. */
  lemma NewestIsLongest(history: seq<string>)
    requires history != []
    ensures var kept := Newest(history);
            1 <= |kept| <= |history| && kept == history[|history| - |kept|..]
            && (|kept| > 1 ==> |kept| <= 500 && ByteLength(Join(kept, "\n") + "\n") <= 262144)
            && forall k :: 0 <= k < |history| - |kept| ==>
                 |history| - k > 500 || ByteLength(Join(history[k..], "\n") + "\n") > 262144
  {
    hide Newest, ByteLength, Join;
    NewestIsSuffix(history);
    var kept := Newest(history);
    forall k | 0 <= k < |history| - |kept|
      ensures |history| - k > 500 || ByteLength(Join(history[k..], "\n") + "\n") > 262144
    {
      if Fits(history[k..]) {
        NewestKeepsFitting(history, k);
      }
    }
    assert history[|history|..] == [];
    if |kept| > 1 {
      NothingFits();
      NewestKeepsFitting(history, |history|);
    }
  }

  lemma NewestKeepsLines(history: seq<string>)
    requires AreLines(history)
    ensures AreLines(Newest(history))
  {
    hide Newest, IsLine;
    NewestIsSuffix(history);
  }

  /** After any run of appends to a log of whole lines, the log is the longest
      suffix of the whole event history that fits 500 lines and 256 KiB, or the
      newest line alone, although each append sees only the log before it. */
  lemma {:induction false} LogIsNewestOfHistory(contents: string, events: seq<string>)
    requires Whole(contents) && AreLines(events) && events != []
    ensures Run(contents, events) == Join(Newest(Lines(contents) + events), "\n") + "\n"
    ensures Run(contents, events) == Render(Newest(Lines(contents) + events))
    ensures Whole(Run(contents, events))
    ensures Lines(Run(contents, events)) == Newest(Lines(contents) + events)
  {
    hide Newest, Lines, Join, ByteLength;
    var n := |events| - 1;
    var history := Lines(contents) + events[..n];
    LinesAreLines(contents);
    if n > 0 {
      LogIsNewestOfHistory(contents, events[..n]);
      NewestForgets(history, events[n]);
    } else {
      assert events[..n] == [] && history == Lines(contents);
    }
    assert Lines(contents) + events == history + [events[n]];
    NewestIsSuffix(history + [events[n]]);
    NewestKeepsLines(history + [events[n]]);
    LinesOfRender(Newest(history + [events[n]]));
  }
}
