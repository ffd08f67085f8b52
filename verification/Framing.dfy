/** The bounded line framing of the bridge's stdio transport (agentloopgate/bridge/transport.py). */
module Framing {

  newtype Byte = x: int | 0 <= x < 256

  const NEWLINE: Byte := 10
  const RETURN: Byte := 13

  const MAX_REQUEST_BYTES: nat := 1024 * 1024

  /** What becomes of one line: it is parsed and handed to the service, or refused unread. */
  datatype Outcome = Handed(line: seq<Byte>) | TooLarge

  // ---- Lines ----

  predicate Terminated(line: seq<Byte>) { line != [] && line[|line| - 1] == NEWLINE }

  /** The end of the line that `s` is in at `i`. */
  function LineEnd(s: seq<Byte>, i: nat): (n: nat)
    requires i <= |s|
    ensures i <= n <= |s| && (i < |s| ==> i < n)
    ensures forall k | i <= k < n - 1 :: s[k] != NEWLINE
    ensures n < |s| ==> n > 0 && s[n - 1] == NEWLINE
    decreases |s| - i
  {
    if i == |s| then i else if s[i] == NEWLINE then i + 1 else LineEnd(s, i + 1)
  }

  /** The length of the first line, its newline included. */
  function LineLength(s: seq<Byte>): (r: nat) { LineEnd(s, 0) }

  /** `n` ends the first line of `s`. */
  ghost predicate EndsFirst(s: seq<Byte>, n: nat) {
    && n <= |s| && (s != [] ==> n > 0) && (n < |s| ==> s[n - 1] == NEWLINE)
    && forall k | 0 <= k < n - 1 :: s[k] != NEWLINE
  }

  lemma FirstEnd(s: seq<Byte>, n: nat)
    requires EndsFirst(s, n)
    ensures LineLength(s) == n
  {
  }

  /** The stream split at its newlines; the last line may lack one. */
  function Lines(s: seq<Byte>): (r: seq<seq<Byte>>) {
    if s == [] then []
    else
      var n := LineLength(s);
      [s[..n]] + Lines(s[n..])
  }

  /** The length of the first `n` bytes without the newlines and returns at their end. */
  function Stripped(line: seq<Byte>, n: nat): (m: nat)
    requires n <= |line|
    ensures m <= n && (m > 0 ==> line[m - 1] != NEWLINE && line[m - 1] != RETURN)
    ensures forall i | m <= i < n :: line[i] == NEWLINE || line[i] == RETURN
  {
    if n > 0 && (line[n - 1] == NEWLINE || line[n - 1] == RETURN) then Stripped(line, n - 1) else n
  }

  /** A line is parsed exactly when it is terminated, fits in two bytes more than the limit, and fits in
      the limit without its line end. */
  predicate Fits(line: seq<Byte>, max: nat) {
    Terminated(line) && |line| <= max + 2 && Stripped(line, |line|) <= max
  }

  function Classify(line: seq<Byte>, max: nat): (r: Outcome) {
    if Fits(line, max) then Handed(line) else TooLarge
  }

  /** The meaning of the transport: the lines of the stream, each classified on its own. */
  function ServeSpec(s: seq<Byte>, max: nat): (r: seq<Outcome>) {
    if s == [] then []
    else
      var n := LineLength(s);
      [Classify(s[..n], max)] + ServeSpec(s[n..], max)
  }

  lemma {:induction false} ServeIsPerLine(s: seq<Byte>, max: nat)
    ensures |ServeSpec(s, max)| == |Lines(s)|
    ensures forall i | 0 <= i < |Lines(s)| :: ServeSpec(s, max)[i] == Classify(Lines(s)[i], max)
  {
    if s == [] {
    } else {
      var n := LineLength(s);
      ServeIsPerLine(s[n..], max);
      forall i | 0 <= i < |Lines(s)| ensures ServeSpec(s, max)[i] == Classify(Lines(s)[i], max) {
        if i > 0 {
          assert Lines(s)[i] == Lines(s[n..])[i - 1];
        }
      }
    }
  }

  // ---- The transport ----

  class Channel {
    var source: seq<Byte>
    var emitted: seq<Outcome>

    constructor (source: seq<Byte>)
      ensures this.source == source && emitted == []
    {
      this.source := source;
      emitted := [];
    }

    /** Reads up to and including the next newline, but at most `limit` bytes. */
    method ReadLine(limit: nat) returns (line: seq<Byte>)
      requires limit > 0
      modifies this`source
      ensures line == old(source)[..if LineLength(old(source)) <= limit then LineLength(old(source)) else limit]
      ensures source == old(source)[|line|..]
    {
      var n := 0;
      while n < |source| && n < limit && (n == 0 || source[n - 1] != NEWLINE)
        invariant n <= |source| && n <= limit && n <= LineLength(source)
        invariant n > 0 && source[n - 1] == NEWLINE ==> n == LineLength(source)
      {
        n := n + 1;
      }
      line := source[..n];
      source := source[n..];
    }

    /** Discards the rest of the current line. */
    method Drain(first: seq<Byte>, limit: nat)
      requires limit > 0
      modifies this`source
      ensures source == if first == [] || Terminated(first) then old(source)
                        else old(source)[LineLength(old(source))..]
    {
      var line := first;
      ghost var rest := if first == [] || Terminated(first) then source else source[LineLength(source)..];
      while line != [] && !Terminated(line)
        invariant rest == if line == [] || Terminated(line) then source else source[LineLength(source)..]
        decreases |source|, |line|
      {
        ghost var before := source;
        line := ReadLine(limit);
        DrainStep(before, limit);
      }
    }

    /** Answers one line, or finds the stream at its end. */
    method ServeLine(max: nat) returns (more: bool)
      modifies this
      ensures more <==> old(source) != []
      ensures !more ==> source == [] && emitted == old(emitted)
      ensures more ==> var n := LineLength(old(source));
                       source == old(source)[n..] && emitted == old(emitted) + [Classify(old(source)[..n], max)]
    {
      ghost var before := source;
      var line := ReadLine(max + 2);
      if line == [] {
        return false;
      }
      FirstChunk(before, max, line);
      if Stripped(line, |line|) > max || !Terminated(line) {
        Drain(line, max + 2);
        emitted := emitted + [TooLarge];
        return true;
      }
      emitted := emitted + [Handed(line)];
      return true;
    }

    /** Answers every line of the stream. */
    method ServeStream(max: nat)
      modifies this
      ensures source == [] && emitted == old(emitted) + ServeSpec(old(source), max)
    {
      var more := true;
      ghost var pending := ServeSpec(source, max);
      ghost var total := emitted + pending;
      while more
        invariant pending == ServeSpec(source, max) && emitted + pending == total
        invariant !more ==> source == []
        decreases |source| + if more then 1 else 0
      {
        ghost var first := ServeNext(source, max, pending);
        Regroup(emitted, first, pending[|first|..]);
        more := ServeLine(max);
        pending := pending[|first|..];
      }
    }

    /** Serves the stream under the limit of the protocol. */
    method Serve()
      modifies this
      ensures source == [] && emitted == old(emitted) + ServeSpec(old(source), MAX_REQUEST_BYTES)
    {
      ServeStream(MAX_REQUEST_BYTES);
    }
  }

  /** Reading on within a line that has not ended. */
  lemma DrainStep(s: seq<Byte>, limit: nat)
    requires limit > 0
    ensures var n := if LineLength(s) <= limit then LineLength(s) else limit;
            s[LineLength(s)..] == if s == [] || Terminated(s[..n]) then s[n..] else s[n..][LineLength(s[n..])..]
  {
  }

  /** The answer to the next line, if there is one, and the answers after it. */
  lemma ServeNext(s: seq<Byte>, max: nat, pending: seq<Outcome>) returns (first: seq<Outcome>)
    requires pending == ServeSpec(s, max)
    ensures first == if s == [] then [] else [Classify(s[..LineLength(s)], max)]
    ensures |first| <= |pending| && pending == first + pending[|first|..]
    ensures pending[|first|..] == ServeSpec(s[LineLength(s)..], max)
  {
    if s == [] {
      first := [];
      assert s[0..] == s;
    } else {
      first := [Classify(s[..LineLength(s)], max)];
    }
  }

  /** What the first read of a line tells about it. */
  lemma FirstChunk(s: seq<Byte>, max: nat, chunk: seq<Byte>)
    requires s != []
    requires chunk == s[..if LineLength(s) <= max + 2 then LineLength(s) else max + 2]
    ensures var n := LineLength(s);
            if Terminated(chunk) then
              chunk == s[..n]
              && Classify(s[..n], max) == (if Stripped(chunk, |chunk|) <= max then Handed(chunk) else TooLarge)
            else
              Classify(s[..n], max) == TooLarge && s[|chunk|..][LineLength(s[|chunk|..])..] == s[n..]
  {
    if !Terminated(chunk) {
    }
  }

  // ---- Main results ----

  function Joined(lines: seq<seq<Byte>>): (r: seq<Byte>) {
    if lines == [] then [] else lines[0] + Joined(lines[1..])
  }

  /** A line: not empty, with no newline but perhaps at its end. */
  ghost predicate Line(line: seq<Byte>) {
    line != [] && forall i | 0 <= i < |line| - 1 :: line[i] != NEWLINE
  }

  lemma {:induction false} LinesJoin(s: seq<Byte>)
    ensures Joined(Lines(s)) == s
  {
    if s == [] {
    } else {
      var n := LineLength(s);
      LinesJoin(s[n..]);
      assert s == s[..n] + s[n..];
    }
  }

  lemma {:induction false} LinesAreLines(s: seq<Byte>, i: nat)
    requires i < |Lines(s)|
    ensures Line(Lines(s)[i]) && (i < |Lines(s)| - 1 ==> Terminated(Lines(s)[i]))
  {
    var n := LineLength(s);
    assert Lines(s) == [s[..n]] + Lines(s[n..]);
    if i > 0 {
      LinesAreLines(s[n..], i - 1);
    }
  }

  /** The lines are the stream again, and only the last one may lack its newline. */
  lemma LinesPartition(s: seq<Byte>)
    ensures Joined(Lines(s)) == s
    ensures forall i | 0 <= i < |Lines(s)| :: Line(Lines(s)[i]) && (i < |Lines(s)| - 1 ==> Terminated(Lines(s)[i]))
  {
    LinesJoin(s);
    forall i | 0 <= i < |Lines(s)|
      ensures Line(Lines(s)[i]) && (i < |Lines(s)| - 1 ==> Terminated(Lines(s)[i]))
    {
      LinesAreLines(s, i);
    }
  }

  function CountNewlines(s: seq<Byte>): (r: nat) {
    if s == [] then 0 else (if s[0] == NEWLINE then 1 else 0) + CountNewlines(s[1..])
  }

  lemma {:induction false} CountAppends(a: seq<Byte>, b: seq<Byte>)
    ensures CountNewlines(a + b) == CountNewlines(a) + CountNewlines(b)
  {
    if a == [] {
      assert a + b == b;
    } else {
      assert (a + b)[1..] == a[1..] + b;
      CountAppends(a[1..], b);
    }
  }

  lemma {:induction false} CountInLine(line: seq<Byte>)
    requires Line(line)
    ensures CountNewlines(line) == if Terminated(line) then 1 else 0
  {
    if |line| > 1 {
      assert line[0] != NEWLINE;
      CountInLine(line[1..]);
    }
  }

  /** One response per newline, and one more for a last line without it. */
  lemma {:induction false} OneResponsePerLine(s: seq<Byte>, max: nat)
    ensures |ServeSpec(s, max)| == CountNewlines(s) + (if s == [] || Terminated(s) then 0 else 1)
  {
    if s == [] {
    } else {
      var n := LineLength(s);
      OneResponsePerLine(s[n..], max);
      NewlinesAfter(s, n);
      assert ServeSpec(s, max) == [Classify(s[..n], max)] + ServeSpec(s[n..], max);
    }
  }

  /** The newlines of a stream are that of its first line, if any, and those after it. */
  lemma NewlinesAfter(s: seq<Byte>, n: nat)
    requires s != [] && n == LineLength(s)
    ensures CountNewlines(s) == (if Terminated(s[..n]) then 1 else 0) + CountNewlines(s[n..])
    ensures if s[n..] == [] then Terminated(s) == Terminated(s[..n])
            else Terminated(s[..n]) && Terminated(s) == Terminated(s[n..])
  {
    assert s == s[..n] + s[n..];
    CountAppends(s[..n], s[n..]);
    CountInLine(s[..n]);
    if s[n..] == [] {
      assert s[..n] == s;
    }
  }

  lemma LineLengthPrefix(x: seq<Byte>, y: seq<Byte>)
    requires Terminated(x)
    ensures LineLength(x + y) == LineLength(x)
  {
    FirstEnd(x + y, LineLength(x));
  }

  lemma Regroup(a: seq<Outcome>, b: seq<Outcome>, c: seq<Outcome>)
    ensures a + (b + c) == a + b + c
  {
  }

  /** Lines are framed on their own: what a terminated prefix holds, be it a line of any length, never
      changes how the rest of the stream is answered. */
  lemma {:induction false} ServeSplits(x: seq<Byte>, y: seq<Byte>, max: nat)
    requires x == [] || Terminated(x)
    ensures ServeSpec(x + y, max) == ServeSpec(x, max) + ServeSpec(y, max)
  {
    if x == [] {
      assert x + y == y;
    } else {
      var n := LineLength(x);
      assert x[n..] == [] || x[n..][|x| - n - 1] == x[|x| - 1];
      ServeSplits(x[n..], y, max);
      SplitFirst(x, y, max);
      Regroup([Classify(x[..n], max)], ServeSpec(x[n..], max), ServeSpec(y, max));
    }
  }

  lemma SplitFirst(x: seq<Byte>, y: seq<Byte>, max: nat)
    requires x != [] && Terminated(x)
    ensures var n := LineLength(x);
            && ServeSpec(x, max) == [Classify(x[..n], max)] + ServeSpec(x[n..], max)
            && ServeSpec(x + y, max) == [Classify(x[..n], max)] + ServeSpec(x[n..] + y, max)
  {
    var n := LineLength(x);
    LineLengthPrefix(x, y);
    assert (x + y)[..n] == x[..n] && (x + y)[n..] == x[n..] + y;
  }

  /** A last line without its newline is refused, however short it is. */
  lemma {:induction false} UnterminatedIsRefused(s: seq<Byte>, max: nat)
    requires s != [] && !Terminated(s)
    ensures ServeSpec(s, max) != [] && ServeSpec(s, max)[|ServeSpec(s, max)| - 1] == TooLarge
  {
    var n := LineLength(s);
    if n < |s| {
      UnterminatedIsRefused(s[n..], max);
    } else {
      assert s[..n] == s;
    }
  }

  /** The request handed over for a line is that very line, so a request is never cut or joined. */
  lemma HandedIsLine(s: seq<Byte>, max: nat, i: nat)
    requires i < |ServeSpec(s, max)| && ServeSpec(s, max)[i].Handed?
    ensures i < |Lines(s)| && ServeSpec(s, max)[i].line == Lines(s)[i] && Fits(Lines(s)[i], max)
  {
    ServeIsPerLine(s, max);
  }
}
