/** The line framer of the serial reader: characters read in successive poll
    cycles are cut into messages at CR or LF, keeping only printable ASCII,
    trimming each message and dropping the ones that trim to nothing. */
module Framing {

  predicate IsTerminator(c: char) { c == '\n' || c == '\r' }

  /** Printable ASCII, 32 to 126 inclusive. */
  predicate IsPrintable(c: char) { 32 <= c as int < 127 }

  predicate AllPrintable(s: string) { forall k :: 0 <= k < |s| ==> IsPrintable(s[k]) }

  /** What Java's String.trim counts as blank: every char up to U+0020. */
  predicate IsBlank(c: char) { c <= ' ' }

  /** A message as the framer hands it to its callback. */
  predicate WellFormed(m: string)
  {
    m != [] && AllPrintable(m) && m[0] != ' ' && m[|m| - 1] != ' '
  }

  /** String.trim, leading half: drops blanks from the front. */
  function TrimStart(s: string): string
  {
    if s != [] && IsBlank(s[0]) then TrimStart(s[1..]) else s
  }

  /** String.trim, trailing half: drops blanks from the back. */
  function TrimEnd(s: string): string
  {
    if s != [] && IsBlank(s[|s| - 1]) then TrimEnd(s[..|s| - 1]) else s
  }

  /** TrimStart keeps the longest suffix that does not start blank. */
  lemma {:induction false} TrimStartSpec(s: string)
    ensures var r := TrimStart(s);
      |r| <= |s| && r == s[|s| - |r|..]
      && (forall k :: 0 <= k < |s| - |r| ==> IsBlank(s[k]))
      && (r == [] || !IsBlank(r[0]))
  {
    if s != [] && IsBlank(s[0]) {
      TrimStartSpec(s[1..]);
      assert s[1..][|s| - 1 - |TrimStart(s)|..] == s[|s| - |TrimStart(s)|..];
      forall k | 1 <= k < |s| - |TrimStart(s)| ensures IsBlank(s[k]) {
        assert s[k] == s[1..][k - 1];
      }
    }
  }

  /** TrimEnd keeps the longest prefix that does not end blank. */
  lemma {:induction false} TrimEndSpec(s: string)
    ensures var r := TrimEnd(s);
      |r| <= |s| && r == s[..|r|]
      && (forall k :: |r| <= k < |s| ==> IsBlank(s[k]))
      && (r == [] || !IsBlank(r[|r| - 1]))
  {
    if s != [] && IsBlank(s[|s| - 1]) {
      TrimEndSpec(s[..|s| - 1]);
      assert s[..|s| - 1][..|TrimEnd(s)|] == s[..|TrimEnd(s)|];
      forall k | |TrimEnd(s)| <= k < |s| - 1 ensures IsBlank(s[k]) {
        assert s[k] == s[..|s| - 1][k];
      }
    }
  }

  /** String.trim: the result is no longer than s and has no blank at either end. */
  function Trim(s: string): (r: string)
    ensures |r| <= |s|
    ensures r == [] || (!IsBlank(r[0]) && !IsBlank(r[|r| - 1]))
  {
    TrimStartSpec(s);
    TrimEndSpec(TrimStart(s));
    TrimEnd(TrimStart(s))
  }

  /** Trimming keeps a contiguous slice, removes only blanks around it, and
      leaves no blank at either end. */
  lemma TrimSlice(s: string)
    ensures var r := Trim(s);
      var i := |s| - |TrimStart(s)|;
      0 <= i && i + |r| <= |s| && r == s[i..i + |r|]
      && (forall k :: 0 <= k < i ==> IsBlank(s[k]))
      && (forall k :: i + |r| <= k < |s| ==> IsBlank(s[k]))
      && (r == [] || (!IsBlank(r[0]) && !IsBlank(r[|r| - 1])))
  {
    var t := TrimStart(s);
    var r := TrimEnd(t);
    TrimStartSpec(s);
    TrimEndSpec(t);
    PrefixOfSuffix(s, t, r);
  }

  /** A prefix r of a suffix t of s is a slice of s, and what t's blanks
      after r are, s's are too. */
  lemma PrefixOfSuffix(s: string, t: string, r: string)
    requires |t| <= |s| && t == s[|s| - |t|..]
    requires |r| <= |t| && r == t[..|r|]
    requires forall k :: |r| <= k < |t| ==> IsBlank(t[k])
    ensures var i := |s| - |t|;
      r == s[i..i + |r|] && forall k :: i + |r| <= k < |s| ==> IsBlank(s[k])
  {
    var i := |s| - |t|;
    forall k | i + |r| <= k < |s| ensures IsBlank(s[k]) {
      assert s[k] == t[k - i];
    }
  }

  /** A string trims to nothing exactly when all of it is blank. */
  lemma TrimEmptyIff(s: string)
    ensures Trim(s) == [] <==> forall k :: 0 <= k < |s| ==> IsBlank(s[k])
  {
    TrimSlice(s);
    if Trim(s) == [] {
      var i := |s| - |TrimStart(s)|;
      forall k | 0 <= k < |s| ensures IsBlank(s[k]) {
        if k >= i { assert i + |Trim(s)| <= k; }
      }
    } else {
      var i := |s| - |TrimStart(s)|;
      assert Trim(s)[0] == s[i];
    }
  }

  /** Trimming a printable string yields a printable string. */
  lemma TrimPrintable(s: string)
    requires AllPrintable(s)
    ensures AllPrintable(Trim(s))
  {
    TrimSlice(s);
    var i := |s| - |TrimStart(s)|;
    var r := Trim(s);
    forall k | 0 <= k < |r| ensures IsPrintable(r[k]) {
      assert r[k] == s[i + k];
    }
  }

  /** The buffer and messages after some input. */
  datatype Framed = Framed(msgs: seq<string>, pending: string)

  /** The framer's reaction to one character, given the pending buffer. */
  function Step(buffer: string, c: char): (r: Framed)
    ensures |r.msgs| <= 1
    ensures r.msgs != [] ==> IsTerminator(c) && r.msgs == [Trim(buffer)]
    ensures IsTerminator(c) ==> r.pending == []
    ensures !IsTerminator(c) ==> r.pending == buffer + (if IsPrintable(c) then [c] else [])
  {
    if IsTerminator(c) then
      if |buffer| > 0 then
        var message := Trim(buffer);
        Framed(if message != [] then [message] else [], [])
      else
        Framed([], buffer)
    else if IsPrintable(c) then
      Framed([], buffer + [c])
    else
      Framed([], buffer)
  }

  /** Reference definition: the messages emitted and the buffer left after
      feeding data, character by character, to a framer holding buffer. */
  function Frame(buffer: string, data: string): (r: Framed)
    ensures |r.msgs| <= |data|
    decreases |data|
  {
    if data == [] then Framed([], buffer)
    else
      var s := Step(buffer, data[0]);
      var rest := Frame(s.pending, data[1..]);
      Framed(s.msgs + rest.msgs, rest.pending)
  }

  /** Frame of a suffix unfolds by its first character. */
  lemma FrameAt(buffer: string, data: string, i: nat)
    requires i < |data|
    ensures var st := Step(buffer, data[i]);
      var rest := Frame(st.pending, data[i + 1..]);
      Frame(buffer, data[i..]) == Framed(st.msgs + rest.msgs, rest.pending)
  {
    assert data[i..][1..] == data[i + 1..];
  }

  /** A terminator always leaves the buffer empty, also when the trimmed text
      was empty and nothing was emitted. */
  lemma TerminatorClears(buffer: string, c: char)
    requires IsTerminator(c)
    ensures Step(buffer, c).pending == []
    ensures Step(buffer, c).msgs == if Trim(buffer) != [] then [Trim(buffer)] else []
  {
    if buffer == [] {
      assert TrimStart(buffer) == [];
    }
  }

  /** A character that is neither a terminator nor printable is dropped. */
  lemma NoiseIgnored(buffer: string, c: char)
    requires !IsTerminator(c) && !IsPrintable(c)
    ensures Step(buffer, c) == Framed([], buffer)
  {
  }

  /** Splitting the input between two feeds changes nothing: the buffer
      carries the partial line from the first feed into the second. */
  lemma {:induction false} FrameConcat(buffer: string, a: string, b: string)
    ensures var first := Frame(buffer, a);
      var second := Frame(first.pending, b);
      Frame(buffer, a + b) == Framed(first.msgs + second.msgs, second.pending)
    decreases |a|
  {
    if a == [] {
      assert a + b == b;
    } else {
      var s := Step(buffer, a[0]);
      assert (a + b)[0] == a[0];
      assert (a + b)[1..] == a[1..] + b;
      FrameConcat(s.pending, a[1..], b);
      var first := Frame(s.pending, a[1..]);
      var second := Frame(first.pending, b);
      assert Frame(buffer, a) == Framed(s.msgs + first.msgs, first.pending);
      assert Frame(buffer, a + b) == Framed(s.msgs + (first.msgs + second.msgs), second.pending);
      assert s.msgs + (first.msgs + second.msgs) == (s.msgs + first.msgs) + second.msgs;
    }
  }

  /** Input without a terminator emits nothing and only appends its
      printable characters to the buffer. */
  lemma {:induction false} FrameNoTerminator(buffer: string, data: string)
    requires forall k :: 0 <= k < |data| ==> !IsTerminator(data[k])
    ensures Frame(buffer, data) == Framed([], buffer + Printables(data))
    decreases |data|
  {
    if data != [] {
      var c := data[0];
      var keep := if IsPrintable(c) then [c] else [];
      assert Step(buffer, c) == Framed([], buffer + keep);
      FrameNoTerminator(buffer + keep, data[1..]);
      assert Printables(data) == keep + Printables(data[1..]);
      assert buffer + keep + Printables(data[1..]) == buffer + Printables(data);
    }
  }

  /** The printable characters of s, in order. */
  function Printables(s: string): (r: string)
    ensures AllPrintable(r) && |r| <= |s|
  {
    if s == [] then []
    else (if IsPrintable(s[0]) then [s[0]] else []) + Printables(s[1..])
  }

  /** One complete line: its printable text, trimmed, is emitted unless it is
      empty, and the buffer is empty afterwards. */
  lemma FrameLine(buffer: string, line: string, t: char)
    requires forall k :: 0 <= k < |line| ==> !IsTerminator(line[k])
    requires IsTerminator(t)
    ensures var text := Trim(buffer + Printables(line));
      Frame(buffer, line + [t]) == Framed(if text != [] then [text] else [], [])
  {
    FrameConcat(buffer, line, [t]);
    FrameNoTerminator(buffer, line);
    TerminatorClears(buffer + Printables(line), t);
  }

  /** Input made only of terminators, fed to an empty buffer, emits nothing. */
  lemma {:induction false} TerminatorsOnly(data: string)
    requires forall k :: 0 <= k < |data| ==> IsTerminator(data[k])
    ensures Frame([], data) == Framed([], [])
    decreases |data|
  {
    if data != [] {
      TerminatorsOnly(data[1..]);
    }
  }

  /** From a printable buffer, every emitted message is well formed and the
      buffer stays printable. */
  lemma {:induction false} FrameWellFormed(buffer: string, data: string)
    requires AllPrintable(buffer)
    ensures var r := Frame(buffer, data);
      AllPrintable(r.pending) && forall i :: 0 <= i < |r.msgs| ==> WellFormed(r.msgs[i])
    decreases |data|
  {
    if data != [] {
      var s := Step(buffer, data[0]);
      StepWellFormed(buffer, data[0]);
      FrameWellFormed(s.pending, data[1..]);
    }
  }

  lemma StepWellFormed(buffer: string, c: char)
    requires AllPrintable(buffer)
    ensures var s := Step(buffer, c);
      AllPrintable(s.pending) && forall i :: 0 <= i < |s.msgs| ==> WellFormed(s.msgs[i])
  {
    if IsTerminator(c) && |buffer| > 0 {
      TrimPrintable(buffer);
      TrimSlice(buffer);
    }
  }

  /** Printables leaves an already printable string as it is. */
  lemma {:induction false} PrintablesOfPrintable(s: string)
    requires AllPrintable(s)
    ensures Printables(s) == s
  {
    if s != [] {
      PrintablesOfPrintable(s[1..]);
      assert s == [s[0]] + s[1..];
    }
  }

  lemma TrimPadded()
    ensures Trim("  x  ") == "x"
  {
    assert TrimStart("  x  ") == "x  " by {
      assert "  x  "[1..] == " x  " && " x  "[1..] == "x  ";
    }
    assert TrimEnd("x  ") == "x" by {
      assert "x  "[..2] == "x " && "x "[..1] == "x";
    }
  }

  lemma TrimmedLine()
    ensures Frame([], "  x  \r") == Framed(["x"], [])
  {
    var line := "  x  ";
    assert "  x  \r" == line + ['\r'];
    FrameLine([], line, '\r');
    PrintablesOfPrintable(line);
    assert [] + line == line;
    TrimPadded();
  }

  /** "  x  \r\n" emits exactly "x". */
  lemma TrimmedExample()
    ensures Frame([], "  x  \r\n") == Framed(["x"], [])
  {
    assert "  x  \r\n" == "  x  \r" + "\n";
    FrameConcat([], "  x  \r", "\n");
    TrimmedLine();
    TerminatorsOnly("\n");
  }

  /** "abc\r\n" then "def\r\n" in two feeds emit "abc" then "def". */
  lemma TwoFeedsExample()
    ensures var first := Frame([], "abc\r\n");
      var second := Frame(first.pending, "def\r\n");
      first.msgs + second.msgs == ["abc", "def"] && second.pending == []
  {
    var abc, def := "abc", "def";
    assert AllPrintable(abc) by {
      forall k | 0 <= k < 3 ensures IsPrintable(abc[k]) {}
    }
    assert AllPrintable(def) by {
      forall k | 0 <= k < 3 ensures IsPrintable(def[k]) {}
    }
    WordLine(abc);
    WordLine(def);
    assert abc + "\r\n" == "abc\r\n" && def + "\r\n" == "def\r\n";
    assert [abc] + [def] == ["abc", "def"];
  }

  /** A well-formed message is its own trim. */
  lemma TrimWellFormed(w: string)
    requires WellFormed(w)
    ensures Trim(w) == w
  {
    assert IsPrintable(w[0]) && IsPrintable(w[|w| - 1]);
    assert TrimStart(w) == w;
    assert TrimEnd(w) == w;
  }

  /** A well-formed message followed by CR is emitted as it stands. */
  lemma WellFormedThenCR(w: string)
    requires WellFormed(w)
    ensures Frame([], w + ['\r']) == Framed([w], [])
  {
    forall k | 0 <= k < |w| ensures !IsTerminator(w[k]) {
      assert IsPrintable(w[k]);
    }
    FrameLine([], w, '\r');
    PrintablesOfPrintable(w);
    assert [] + w == w;
    TrimWellFormed(w);
  }

  /** A line of printable characters with no blank at either end, followed
      by CR LF, emits exactly that line. */
  lemma WordLine(w: string)
    requires WellFormed(w)
    ensures Frame([], w + "\r\n") == Framed([w], [])
  {
    assert w + "\r\n" == (w + ['\r']) + "\n";
    FrameConcat([], w + ['\r'], "\n");
    WellFormedThenCR(w);
    TerminatorsOnly("\n");
  }

  /** The pending StringBuilder of one reading task. */
  class LineFramer {
    var buffer: string

    ghost predicate Valid()
      reads this
    {
      AllPrintable(buffer)
    }

    constructor ()
      ensures Valid() && buffer == []
    {
      buffer := [];
    }

    /** Processes the characters of one read, in order, returning the
        messages the callback is offered. */
    method Feed(data: string) returns (msgs: seq<string>)
      requires Valid()
      modifies this
      ensures Valid()
      ensures Framed(msgs, buffer) == Frame(old(buffer), data)
      ensures forall i :: 0 <= i < |msgs| ==> WellFormed(msgs[i])
    {
      ghost var start := buffer;
      FrameWellFormed(start, data);
      msgs := [];
      var i := 0;
      while i < |data|
        invariant 0 <= i <= |data|
        invariant var r := Frame(buffer, data[i..]);
          Frame(start, data) == Framed(msgs + r.msgs, r.pending)
        decreases |data| - i
      {
        var c := data[i];
        ghost var before, st := msgs, Step(buffer, c);
        ghost var rest := Frame(st.pending, data[i + 1..]);
        FrameAt(buffer, data, i);
        if c == '\n' || c == '\r' {
          if |buffer| > 0 {
            var message := Trim(buffer);
            if message != [] {
              msgs := msgs + [message];
            }
            buffer := [];
          }
        } else if 32 <= c as int < 127 {
          buffer := buffer + [c];
        }
        assert msgs + rest.msgs == before + (st.msgs + rest.msgs);
        i := i + 1;
      }
      assert data[i..] == [];
    }
  }
}
