/**
 Output of a coding tool as it streams in (coderLineWriter and coderTailBuffer in
 agent/coder_tool.go): the lines handed over, the lines dropped as too long, and the last bytes kept.
 */
module OutputLines {
  newtype byte = x: int | 0 <= x < 256

  type bytes = seq<byte>

  const NEWLINE: byte := 10
  const LINE_MAX := 4 * 1024 * 1024

  // handle is called with a line, or overflow for a line that is dropped.
  datatype Event = Handled(line: bytes) | Overflowed

  // ----- The lines of a stream -----

  datatype Lines = Lines(complete: seq<bytes>, rest: bytes)

  function Split(stream: bytes): Lines {
    if stream == [] then Lines([], [])
    else
      var before, b := Split(stream[..|stream| - 1]), stream[|stream| - 1];
      if b == NEWLINE then Lines(before.complete + [before.rest], [])
      else Lines(before.complete, before.rest + [b])
  }

  function Join(lines: seq<bytes>): bytes {
    if lines == [] then [] else Join(lines[..|lines| - 1]) + lines[|lines| - 1] + [NEWLINE]
  }

  predicate NoNewlines(lines: seq<bytes>) {
    forall k :: 0 <= k < |lines| ==> NEWLINE !in lines[k]
  }

  // Split cuts the stream at its newlines ...
  lemma {:induction false} SplitJoins(stream: bytes)
    ensures var s := Split(stream);
            Join(s.complete) + s.rest == stream && NoNewlines(s.complete) && NEWLINE !in s.rest
  {
    if stream != [] {
      var n := |stream| - 1;
      var before := Split(stream[..n]);
      SplitJoins(stream[..n]);
      assert stream == stream[..n] + [stream[n]];
      assert (before.complete + [before.rest])[..|before.complete|] == before.complete;
    }
  }

  lemma {:induction false} SplitAppend(stream: bytes, more: bytes)
    requires NEWLINE !in more
    ensures Split(stream + more) == Lines(Split(stream).complete, Split(stream).rest + more)
  {
    if more == [] {
      assert stream + more == stream;
    } else {
      var n := |more| - 1;
      SplitAppend(stream, more[..n]);
      assert (stream + more)[..|stream + more| - 1] == stream + more[..n];
      assert more == more[..n] + [more[n]];
    }
  }

  lemma SplitLine(stream: bytes, more: bytes)
    requires NEWLINE !in more
    ensures Split(stream + more + [NEWLINE]) == Lines(Split(stream).complete + [Split(stream).rest + more], [])
  {
    SplitAppend(stream, more);
    assert (stream + more + [NEWLINE])[..|stream + more|] == stream + more;
  }

  // ... and is the only way to do so.
  lemma SplitUnique(lines: seq<bytes>, rest: bytes)
    requires NoNewlines(lines) && NEWLINE !in rest
    ensures Split(Join(lines) + rest) == Lines(lines, rest)
  {
    SplitJoined(lines);
    SplitAppend(Join(lines), rest);
  }

  lemma {:induction false} SplitJoined(lines: seq<bytes>)
    requires NoNewlines(lines)
    ensures Split(Join(lines)) == Lines(lines, [])
  {
    if lines != [] {
      var n := |lines| - 1;
      SplitJoined(lines[..n]);
      SplitLine(Join(lines[..n]), lines[n]);
      assert [] + lines[n] == lines[n];
      assert lines == lines[..n] + [lines[n]];
    }
  }

  // ----- What the lines come to -----

  function EventsOf(line: bytes, notifies: bool): seq<Event> {
    if |line| <= LINE_MAX then [Handled(line)] else if notifies then [Overflowed] else []
  }

  function EventsOfAll(lines: seq<bytes>, notifies: bool): seq<Event> {
    if lines == [] then [] else EventsOfAll(lines[..|lines| - 1], notifies) + EventsOf(lines[|lines| - 1], notifies)
  }

  // When the stream has ended: an unfinished last line counts as a line.
  function EventsOfStream(stream: bytes, notifies: bool): seq<Event> {
    var s := Split(stream);
    EventsOfAll(if s.rest == [] then s.complete else s.complete + [s.rest], notifies)
  }

  function Overflows(events: seq<Event>): nat {
    if events == [] then 0 else Overflows(events[..|events| - 1]) + if events[|events| - 1].Overflowed? then 1 else 0
  }

  function TooLong(lines: seq<bytes>): nat {
    if lines == [] then 0 else TooLong(lines[..|lines| - 1]) + if |lines[|lines| - 1]| > LINE_MAX then 1 else 0
  }

  // Each line that is too long overflows once, and no other line does.
  lemma {:induction false} OverflowsOnce(lines: seq<bytes>)
    ensures Overflows(EventsOfAll(lines, true)) == TooLong(lines)
  {
    if lines != [] {
      var n := |lines| - 1;
      var before, last := EventsOfAll(lines[..n], true), EventsOf(lines[n], true);
      OverflowsOnce(lines[..n]);
      assert (before + last)[..|before|] == before;
    }
  }

  // Each line is handed over as it is, unless it is too long; then it is announced, if that is wanted. So
  // there is one event for each line, in order, or one for each line that is not too long.
  lemma {:induction false} OneEventForEachLine(lines: seq<bytes>)
    ensures |EventsOfAll(lines, true)| == |lines|
    ensures forall k :: 0 <= k < |lines| ==>
      EventsOfAll(lines, true)[k] == if |lines[k]| > LINE_MAX then Overflowed else Handled(lines[k])
  {
    if lines != [] {
      OneEventForEachLine(lines[..|lines| - 1]);
    }
  }

  function WithoutOverflows(events: seq<Event>): seq<Event> {
    if events == [] then []
    else
      var last := events[|events| - 1];
      WithoutOverflows(events[..|events| - 1]) + if last.Overflowed? then [] else [last]
  }

  lemma {:induction false} QuietEvents(lines: seq<bytes>)
    ensures EventsOfAll(lines, false) == WithoutOverflows(EventsOfAll(lines, true))
  {
    if lines != [] {
      var n := |lines| - 1;
      var before, last := EventsOfAll(lines[..n], true), EventsOf(lines[n], true);
      QuietEvents(lines[..n]);
      assert (before + last)[..|before|] == before;
    }
  }

  // A stream that breaks off within a line is handed over as if the line had ended.
  lemma BrokenOffLine(stream: bytes, notifies: bool)
    requires stream != [] && stream[|stream| - 1] != NEWLINE
    ensures EventsOfStream(stream, notifies) == EventsOfStream(stream + [NEWLINE], notifies)
  {
    assert (stream + [NEWLINE])[..|stream|] == stream;
  }

  lemma EventsSnoc(lines: seq<bytes>, line: bytes, notifies: bool)
    ensures EventsOfAll(lines + [line], notifies) == EventsOfAll(lines, notifies) + EventsOf(line, notifies)
  {
    assert (lines + [line])[..|lines|] == lines;
  }

  method IndexNewline(p: bytes) returns (i: int)
    ensures i < 0 ==> NEWLINE !in p
    ensures i >= 0 ==> i < |p| && p[i] == NEWLINE && NEWLINE !in p[..i]
  {
    i := 0;
    while i < |p|
      invariant 0 <= i <= |p| && NEWLINE !in p[..i]
    {
      if p[i] == NEWLINE {
        return;
      }
      i := i + 1;
    }
    return -1;
  }

  lemma CutLine(stream: bytes, left: bytes, i: int)
    requires 0 <= i < |left| && left[i] == NEWLINE
    ensures stream + left[..i] + [NEWLINE] + left[i + 1..] == stream + left
  {
  }

  // The writer's fields for the lines seen so far: a line that is too long is given up, and announced,
  // before it is complete.
  ghost predicate Reflects(s: Lines, notifies: bool, seen: seq<Event>, skipping: bool, buf: bytes) {
    && seen == EventsOfAll(s.complete, notifies) + (if |s.rest| > LINE_MAX then EventsOf(s.rest, notifies) else [])
    && skipping == (|s.rest| > LINE_MAX)
    && buf == (if skipping then [] else s.rest)
  }

  function Announced(notifies: bool): seq<Event> {
    if notifies then [Overflowed] else []
  }

  lemma ReflectsLonger(s: Lines, notifies: bool, seen: seq<Event>, skipping: bool, buf: bytes, q: bytes)
    requires Reflects(s, notifies, seen, skipping, buf)
    ensures var t := Lines(s.complete, s.rest + q);
            if skipping then Reflects(t, notifies, seen, true, [])
            else if |buf + q| > LINE_MAX then Reflects(t, notifies, seen + Announced(notifies), true, [])
            else Reflects(t, notifies, seen, false, buf + q)
  {
  }

  lemma ReflectsLineEnd(s: Lines, notifies: bool, seen: seq<Event>, skipping: bool, buf: bytes, q: bytes)
    requires Reflects(s, notifies, seen, skipping, buf)
    ensures var t := Lines(s.complete + [s.rest + q], []);
            if skipping then Reflects(t, notifies, seen, false, [])
            else if |buf + q| > LINE_MAX then Reflects(t, notifies, seen + Announced(notifies), false, [])
            else Reflects(t, notifies, seen + [Handled(buf + q)], false, [])
  {
    EventsSnoc(s.complete, s.rest + q, notifies);
  }

  lemma ReflectsEnd(s: Lines, notifies: bool, seen: seq<Event>, skipping: bool, buf: bytes)
    requires Reflects(s, notifies, seen, skipping, buf)
    ensures EventsOfAll(if s.rest == [] then s.complete else s.complete + [s.rest], notifies) ==
            seen + if |buf| > 0 && !skipping then [Handled(buf)] else []
  {
    EventsSnoc(s.complete, s.rest, notifies);
  }

  class LineWriter {
    const notifies: bool
    var buf: bytes
    var skipping: bool
    var events: seq<Event>
    ghost var earlier: seq<Event>
    ghost var seen: seq<Event>
    ghost var stream: bytes

    constructor (notifies: bool)
      ensures Valid() && events == [] && stream == [] && earlier == [] && this.notifies == notifies
    {
      this.notifies := notifies;
      buf, skipping, events, earlier, seen, stream := [], false, [], [], [], [];
    }

    ghost predicate Valid()
      reads this
    {
      events == earlier + seen && Reflects(Split(stream), notifies, seen, skipping, buf)
    }

    // The buffer never holds more than the longest line, however much was written.
    lemma BufferBounded()
      requires Valid()
      ensures |buf| <= LINE_MAX
    {
    }

    method Notify(more: seq<Event>)
      requires events == earlier + seen
      modifies this`events, this`seen
      ensures seen == old(seen) + more && events == earlier + seen
    {
      events := events + more;
      seen := seen + more;
    }

    // A piece without a newline.
    method Extend(q: bytes)
      requires Valid() && NEWLINE !in q
      modifies this
      ensures Valid() && stream == old(stream) + q && earlier == old(earlier)
    {
      SplitAppend(stream, q);
      ReflectsLonger(Split(stream), notifies, seen, skipping, buf, q);
      stream := stream + q;
      if !skipping {
        buf := buf + q;
        if |buf| > LINE_MAX {
          buf, skipping := [], true;
          Notify(if notifies then [Overflowed] else []);
        }
      }
    }

    // A piece that ends a line.
    method EndLine(q: bytes)
      requires Valid() && NEWLINE !in q
      modifies this
      ensures Valid() && stream == old(stream) + q + [NEWLINE] && earlier == old(earlier)
    {
      SplitLine(stream, q);
      ReflectsLineEnd(Split(stream), notifies, seen, skipping, buf, q);
      stream := stream + q + [NEWLINE];
      if !skipping {
        buf := buf + q;
        if |buf| <= LINE_MAX {
          Notify([Handled(buf)]);
        } else {
          Notify(if notifies then [Overflowed] else []);
        }
      }
      buf, skipping := [], false;
    }

    method Write(p: bytes) returns (n: nat)
      requires Valid()
      modifies this
      ensures Valid() && stream == old(stream) + p && earlier == old(earlier) && n == |p|
    {
      var left := p;
      while left != []
        invariant Valid() && stream + left == old(stream) + p && earlier == old(earlier)
        decreases |left|
      {
        var i := IndexNewline(left);
        if i < 0 {
          Extend(left);
          assert stream + [] == stream;
          left := [];
        } else {
          CutLine(stream, left, i);
          EndLine(left[..i]);
          left := left[i + 1..];
        }
      }
      n := |p|;
    }

    // Hands over a last line without a newline; the writer can be used for another stream.
    method Flush()
      requires Valid()
      modifies this
      ensures events == old(earlier) + EventsOfStream(old(stream), notifies)
      ensures Valid() && stream == [] && earlier == events
    {
      ghost var all := EventsOfStream(stream, notifies);
      assert all == seen + if |buf| > 0 && !skipping then [Handled(buf)] else [] by {
        ReflectsEnd(Split(stream), notifies, seen, skipping, buf);
      }
      if |buf| > 0 && !skipping {
        Notify([Handled(buf)]);
      }
      assert seen == all;
      buf, skipping := [], false;
      Restart();
    }

    ghost method Restart()
      requires buf == [] && !skipping
      modifies this`stream, this`earlier, this`seen
      ensures Valid() && stream == [] && earlier == events
    {
      stream, earlier, seen := [], events, [];
    }

    // A whole stream, however it is cut into writes, gives the events of splitting it as a whole.
    method WriteStream(chunks: seq<bytes>)
      requires Valid() && stream == [] && earlier == events
      modifies this
      ensures Valid() && stream == [] && earlier == events
      ensures events == old(events) + EventsOfStream(Concat(chunks), notifies)
    {
      for k := 0 to |chunks|
        invariant Valid() && stream == Concat(chunks[..k]) && earlier == old(events)
      {
        assert chunks[..k + 1][..k] == chunks[..k];
        var _ := Write(chunks[k]);
      }
      assert chunks[..|chunks|] == chunks;
      Flush();
    }
  }

  function Concat(chunks: seq<bytes>): bytes {
    if chunks == [] then [] else Concat(chunks[..|chunks| - 1]) + chunks[|chunks| - 1]
  }

  // ----- The tail -----

  function Last(stream: bytes, limit: int): bytes {
    if 0 < limit < |stream| then stream[|stream| - limit..] else stream
  }

  // The end of the stream, as much of it as the limit allows; a limit that is not positive is none.
  lemma LastMeans(stream: bytes, limit: int)
    ensures var last := Last(stream, limit);
            && |last| == (if limit <= 0 || |stream| < limit then |stream| else limit)
            && exists before :: stream == before + last
  {
    var last := Last(stream, limit);
    assert stream == stream[..|stream| - |last|] + last;
  }

  lemma LastOfLast(stream: bytes, more: bytes, limit: int)
    ensures Last(Last(stream, limit) + more, limit) == Last(stream + more, limit)
  {
  }

  class TailBuffer {
    const limit: int
    var buf: bytes
    ghost var stream: bytes

    constructor (limit: int)
      ensures Valid() && stream == [] && this.limit == limit
    {
      this.limit, buf, stream := limit, [], [];
    }

    ghost predicate Valid()
      reads this
    {
      buf == Last(stream, limit)
    }

    // Keeps exactly the last bytes of everything written.
    method Write(p: bytes) returns (n: nat)
      requires Valid()
      modifies this
      ensures Valid() && stream == old(stream) + p && n == |p|
    {
      LastOfLast(stream, p, limit);
      stream := stream + p;
      buf := buf + p;
      if limit > 0 && |buf| > limit {
        buf := buf[|buf| - limit..];
      }
      n := |p|;
    }
  }
}
