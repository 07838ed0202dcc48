/** java.io.BufferedReader.readLine over the characters an InputStreamReader
    decodes from a response body. A line ends at '\n', at '\r', or at the pair
    "\r\n"; the terminator is consumed and not returned; readLine answers null
    once nothing is left, and a last line without terminator is still returned. */
module LineReader {
  import opened Wrappers

  predicate IsTerminator(c: char)
  {
    c == '\n' || c == '\r'
  }

  predicate TerminatorFree(s: string)
  {
    forall i :: 0 <= i < |s| ==> !IsTerminator(s[i])
  }

  /** Reference meaning of "join the lines": the characters of s, in order,
      with every line terminator character left out. */
  function RemoveTerminators(s: seq<char>): (r: string)
    ensures TerminatorFree(r)
    ensures |r| <= |s|
    ensures TerminatorFree(s) ==> r == s
  {
    if |s| == 0 then []
    else (if IsTerminator(s[0]) then [] else [s[0]]) + RemoveTerminators(s[1..])
  }

  /** Number of characters before the first terminator of s (|s| if none). */
  function LineLength(s: seq<char>): (k: nat)
    ensures k <= |s|
    ensures TerminatorFree(s[..k])
    ensures k < |s| ==> IsTerminator(s[k])
  {
    if |s| == 0 || IsTerminator(s[0]) then 0
    else
      var k' := LineLength(s[1..]);
      assert s[..1 + k'] == [s[0]] + s[1..][..k'];
      1 + k'
  }

  datatype LineRead = LineRead(line: string, rest: seq<char>)

  /** One call of readLine on the unread characters `pending`. */
  function ReadLine(pending: seq<char>): (r: Option<LineRead>)
    ensures r.None? <==> |pending| == 0
    ensures r.Some? ==> TerminatorFree(r.value.line)
    ensures r.Some? ==> |r.value.line| <= |pending| && pending[..|r.value.line|] == r.value.line
    ensures r.Some? ==> |r.value.rest| < |pending|
  {
    if |pending| == 0 then None
    else
      var k := LineLength(pending);
      if k == |pending| then Some(LineRead(pending, []))
      else if pending[k] == '\r' && k + 1 < |pending| && pending[k + 1] == '\n' then
        Some(LineRead(pending[..k], pending[k + 2..]))
      else
        Some(LineRead(pending[..k], pending[k + 1..]))
  }

  /** Every line readLine returns, in order, until it returns null. */
  function ReadLines(pending: seq<char>): (lines: seq<string>)
    ensures |lines| == 0 <==> |pending| == 0
    ensures forall i :: 0 <= i < |lines| ==> TerminatorFree(lines[i])
    decreases |pending|
  {
    match ReadLine(pending)
    case None => []
    case Some(read) => [read.line] + ReadLines(read.rest)
  }

  /** StringBuilder.append of each line in turn. */
  function Concat(lines: seq<string>): string
  {
    if |lines| == 0 then "" else lines[0] + Concat(lines[1..])
  }

  /** Lines written out each followed by "\n", as a server might send them. */
  function Render(lines: seq<string>): seq<char>
  {
    if |lines| == 0 then [] else lines[0] + "\n" + Render(lines[1..])
  }

  lemma {:induction false} RemoveTerminatorsAppend(a: seq<char>, b: seq<char>)
    ensures RemoveTerminators(a + b) == RemoveTerminators(a) + RemoveTerminators(b)
    decreases |a|
  {
    if |a| == 0 {
      assert a + b == b;
    } else {
      assert (a + b)[1..] == a[1..] + b;
      RemoveTerminatorsAppend(a[1..], b);
    }
  }

  /** Dropping the terminators of an ending (one or two terminator characters) leaves nothing. */
  lemma {:induction false} RemoveEnding(ending: seq<char>, rest: seq<char>)
    requires 1 <= |ending| <= 2
    requires forall i :: 0 <= i < |ending| ==> IsTerminator(ending[i])
    ensures RemoveTerminators(ending + rest) == RemoveTerminators(rest)
  {
    assert (ending + rest)[1..] == ending[1..] + rest;
    if |ending| == 2 {
      assert (ending[1..] + rest)[1..] == rest;
    } else {
      assert ending[1..] + rest == rest;
    }
  }

  /** A line followed by an ending of terminators and the rest of the input. */
  lemma {:induction false} RemoveAroundEnding(line: string, ending: seq<char>, rest: seq<char>)
    requires TerminatorFree(line)
    requires 1 <= |ending| <= 2
    requires forall i :: 0 <= i < |ending| ==> IsTerminator(ending[i])
    ensures RemoveTerminators(line + (ending + rest)) == line + RemoveTerminators(rest)
  {
    RemoveTerminatorsAppend(line, ending + rest);
    RemoveEnding(ending, rest);
  }

  /** A single readLine call loses nothing but the terminator it consumes. */
  lemma {:induction false} ReadLineKeepsText(pending: seq<char>)
    requires |pending| > 0
    ensures RemoveTerminators(pending)
         == ReadLine(pending).value.line + RemoveTerminators(ReadLine(pending).value.rest)
  {
    var k := LineLength(pending);
    if k < |pending| {
      var n := if pending[k] == '\r' && k + 1 < |pending| && pending[k + 1] == '\n' then 2 else 1;
      var line, ending, rest := pending[..k], pending[k..k + n], pending[k + n..];
      assert pending == line + (ending + rest);
      RemoveAroundEnding(line, ending, rest);
      assert ReadLine(pending) == Some(LineRead(line, rest));
    } else {
      assert ReadLine(pending) == Some(LineRead(pending, []));
    }
  }

  /** Joining all lines read is the same as dropping the terminators. */
  lemma {:induction false} ReadLinesKeepText(pending: seq<char>)
    ensures Concat(ReadLines(pending)) == RemoveTerminators(pending)
    decreases |pending|
  {
    match ReadLine(pending)
    case None =>
    case Some(read) =>
      ReadLineKeepsText(pending);
      ReadLinesKeepText(read.rest);
      var lines := ReadLines(pending);
      assert lines == [read.line] + ReadLines(read.rest);
      assert lines[1..] == ReadLines(read.rest);
  }

  lemma {:induction false} LineLengthOfLine(line: string, tail: seq<char>)
    requires TerminatorFree(line)
    requires |tail| > 0 && IsTerminator(tail[0])
    ensures LineLength(line + tail) == |line|
    decreases |line|
  {
    if |line| > 0 {
      assert (line + tail)[1..] == line[1..] + tail;
      LineLengthOfLine(line[1..], tail);
    }
  }

  /** Reading back rendered lines gives the same lines: readLine inverts
      newline-terminated output of terminator-free lines. */
  lemma {:induction false} ReadLinesOfRender(lines: seq<string>)
    requires forall i :: 0 <= i < |lines| ==> TerminatorFree(lines[i])
    ensures ReadLines(Render(lines)) == lines
    decreases |lines|
  {
    if |lines| > 0 {
      var line := lines[0];
      var pending := Render(lines);
      var tail := "\n" + Render(lines[1..]);
      assert pending == line + tail;
      LineLengthOfLine(line, tail);
      assert pending[..|line|] == line;
      assert pending[|line| + 1..] == Render(lines[1..]);
      ReadLinesOfRender(lines[1..]);
    }
  }
}
