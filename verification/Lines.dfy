/** Newline framing of a stream of text: lines, streams of lines, and streams cut short. */
module Lines {
  predicate OneLine(s: string) {
    forall i | 0 <= i < |s| :: s[i] != '\n'
  }

  predicate AllOneLine(ts: seq<string>) {
    forall i | 0 <= i < |ts| :: OneLine(ts[i])
  }

  /** Each text followed by a newline. */
  function Stream(ts: seq<string>): string {
    if ts == [] then "" else ts[0] + "\n" + Stream(ts[1..])
  }

  /** The position of the first newline, or the length when there is none. */
  function NewlineAt(s: string): (i: nat)
    ensures i <= |s| && OneLine(s[..i]) && (i < |s| ==> s[i] == '\n')
  {
    if s == [] || s[0] == '\n' then 0 else 1 + NewlineAt(s[1..])
  }

  /** The complete lines of a stream, without their newlines. What follows the last newline is not a line yet. */
  function CompleteLines(s: string): seq<string>
    decreases |s|
  {
    var i := NewlineAt(s);
    if i == |s| then [] else [s[..i]] + CompleteLines(s[i + 1..])
  }

  lemma {:induction false} NewlineAfter(t: string, rest: string)
    requires OneLine(t)
    ensures NewlineAt(t + "\n" + rest) == |t|
  {
    if t != [] {
      NewlineAfter(t[1..], rest);
      assert (t + "\n" + rest)[1..] == t[1..] + "\n" + rest;
    }
  }

  lemma {:induction false} NoNewline(t: string)
    requires OneLine(t)
    ensures CompleteLines(t) == []
  {
    var i := NewlineAt(t);
  }

  lemma FirstLine(t: string, rest: string)
    requires OneLine(t)
    ensures CompleteLines(t + "\n" + rest) == [t] + CompleteLines(rest)
  {
    var s := t + "\n" + rest;
    NewlineAfter(t, rest);
    assert s[..|t|] == t && s[|t| + 1..] == rest;
  }

  /** Splitting a stream recovers exactly the texts, whatever unfinished piece follows them. */
  lemma {:induction false} LinesOfStream(ts: seq<string>, tail: string)
    requires AllOneLine(ts) && OneLine(tail)
    ensures CompleteLines(Stream(ts) + tail) == ts
  {
    if ts == [] {
      NoNewline(tail);
      assert Stream(ts) + tail == tail;
    } else {
      LinesOfStream(ts[1..], tail);
      FirstLine(ts[0], Stream(ts[1..]) + tail);
      assert Stream(ts) + tail == ts[0] + "\n" + (Stream(ts[1..]) + tail);
      assert ts == [ts[0]] + ts[1..];
    }
  }

  lemma {:induction false} StreamAppend(a: seq<string>, b: seq<string>)
    ensures Stream(a + b) == Stream(a) + Stream(b)
  {
    if a == [] {
      assert a + b == b;
    } else {
      StreamAppend(a[1..], b);
      assert (a + b)[1..] == a[1..] + b;
    }
  }

  /** How many whole lines lie in the first `n` characters of a stream. */
  function WholeLines(ts: seq<string>, n: nat): (j: nat)
    ensures j <= |ts|
  {
    if ts == [] || n < |ts[0]| + 1 then 0 else 1 + WholeLines(ts[1..], n - |ts[0]| - 1)
  }

  /** The piece of a line that follows them. */
  function Remainder(ts: seq<string>, n: nat): string {
    if ts == [] then ""
    else if n < |ts[0]| + 1 then ts[0][..n]
    else Remainder(ts[1..], n - |ts[0]| - 1)
  }

  /** A write that stops early leaves whole lines and a piece that is not a line; at least one line is lost. */
  lemma {:induction false} CutStream(ts: seq<string>, n: nat)
    requires AllOneLine(ts) && n < |Stream(ts)|
    ensures WholeLines(ts, n) < |ts| && OneLine(Remainder(ts, n))
    ensures Stream(ts)[..n] == Stream(ts[..WholeLines(ts, n)]) + Remainder(ts, n)
  {
    var k := |ts[0]| + 1;
    if n < k {
      assert Stream(ts)[..n] == ts[0][..n];
    } else {
      CutStream(ts[1..], n - k);
      var j := WholeLines(ts[1..], n - k);
      assert Stream(ts)[..n] == ts[0] + "\n" + Stream(ts[1..])[..n - k];
      assert ts[..j + 1][1..] == ts[1..][..j];
    }
  }
}
