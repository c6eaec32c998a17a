/** Cutting a client's byte stream into command lines. HW6/hogwarts.c:523-558, HW6/magic_common.h:6. */
module Framers {
  import opened Basics

  const MAX_LINE: nat := 512

  datatype Event = Command(line: string) | TooLong

  /** The bytes after the last newline. */
  function Tail(stream: string): (t: string)
    ensures |t| <= |stream|
  {
    if stream == [] then []
    else if stream[|stream| - 1] == '\n' then []
    else Tail(stream[..|stream| - 1]) + [stream[|stream| - 1]]
  }

  /** What a stream comes to: a line of at most 512 bytes is a command when its newline arrives; a longer
      one is reported once, at its 513th byte, and is no command. */
  function Framed(stream: string): seq<Event> {
    if stream == [] then []
    else
      var before := stream[..|stream| - 1];
      var line := Tail(before);
      Framed(before) +
      if stream[|stream| - 1] == '\n' then (if |line| <= MAX_LINE then [Command(line)] else [])
      else if |line| == MAX_LINE then [TooLong]
      else []
  }

  /** The lines of a stream, and what follows the last newline, put together again. */
  function Joined(lines: seq<string>, rest: string): string {
    if lines == [] then rest else lines[0] + "\n" + Joined(lines[1..], rest)
  }

  function Outcome(line: string): Event {
    if |line| <= 512 then Command(line) else TooLong
  }

  function Outcomes(lines: seq<string>): seq<Event> {
    if lines == [] then [] else [Outcome(lines[0])] + Outcomes(lines[1..])
  }

  lemma FramedByte(stream: string, ch: char)
    ensures Tail(stream + [ch]) == if ch == '\n' then [] else Tail(stream) + [ch]
    ensures Framed(stream + [ch]) == Framed(stream) +
            if ch == '\n' then (if |Tail(stream)| <= MAX_LINE then [Command(Tail(stream))] else [])
            else if |Tail(stream)| == MAX_LINE then [TooLong]
            else []
  {
    assert (stream + [ch])[..|stream|] == stream;
  }

  lemma {:induction false} FramedSuffix(a: string, b: string)
    requires Tail(a) == []
    ensures Framed(a + b) == Framed(a) + Framed(b) && Tail(a + b) == Tail(b)
  {
    if b == [] {
      assert a + b == a;
    } else {
      var n := |b| - 1;
      assert (a + b)[..|a + b| - 1] == a + b[..n];
      FramedSuffix(a, b[..n]);
    }
  }

  lemma {:induction false} FramedOneLine(line: string)
    requires '\n' !in line
    ensures Tail(line) == line && Framed(line) == if |line| > MAX_LINE then [TooLong] else []
  {
    if line != [] {
      FramedOneLine(line[..|line| - 1]);
    }
  }

  lemma FramedFirst(line: string)
    requires '\n' !in line
    ensures Tail(line + "\n") == [] && Framed(line + "\n") == [Outcome(line)]
  {
    FramedOneLine(line);
    FramedByte(line, '\n');
  }

  /** Every stream is made of lines and a rest without a newline. */
  lemma {:induction false} Cut(stream: string) returns (lines: seq<string>, rest: string)
    ensures '\n' !in rest && (forall i :: 0 <= i < |lines| ==> '\n' !in lines[i]) && stream == Joined(lines, rest)
  {
    if i :| 0 <= i < |stream| && stream[i] == '\n' && '\n' !in stream[..i] {
      lines, rest := Cut(stream[i + 1..]);
      lines := [stream[..i]] + lines;
      assert stream == stream[..i] + "\n" + stream[i + 1..];
    } else {
      lines, rest := [], stream;
      FirstNewline(stream);
    }
  }

  lemma {:induction false} FirstNewline(stream: string)
    ensures '\n' in stream ==> exists i :: 0 <= i < |stream| && stream[i] == '\n' && '\n' !in stream[..i]
  {
    if '\n' in stream {
      var n := |stream| - 1;
      FirstNewline(stream[..n]);
      if '\n' in stream[..n] {
        var i :| 0 <= i < n && stream[..n][i] == '\n' && '\n' !in stream[..n][..i];
        assert stream[..n][..i] == stream[..i] && stream[i] == '\n';
      } else {
        assert stream[n] == '\n';
      }
    }
  }

  /** Framing is splitting at newlines: each line gives exactly one outcome, a command when it has at most
      512 bytes and one TOOLONG otherwise; an unfinished line gives none, or its one TOOLONG. */
  lemma {:induction false} FramedByLines(lines: seq<string>, rest: string)
    requires '\n' !in rest && forall i :: 0 <= i < |lines| ==> '\n' !in lines[i]
    ensures Framed(Joined(lines, rest)) == Outcomes(lines) + if |rest| > MAX_LINE then [TooLong] else []
    ensures Tail(Joined(lines, rest)) == rest
  {
    if lines == [] {
      FramedOneLine(rest);
    } else {
      FramedByLines(lines[1..], rest);
      FramedLine(lines, rest);
    }
  }

  /** The first line gives its outcome, and the framing goes on behind it. */
  lemma FramedLine(lines: seq<string>, rest: string)
    requires lines != [] && '\n' !in lines[0]
    ensures Framed(Joined(lines, rest)) == [Outcome(lines[0])] + Framed(Joined(lines[1..], rest))
    ensures Tail(Joined(lines, rest)) == Tail(Joined(lines[1..], rest))
  {
    var first, others := lines[0] + "\n", Joined(lines[1..], rest);
    FramedFirst(lines[0]);
    FramedSuffix(first, others);
    assert Joined(lines, rest) == first + others;
  }

  lemma {:induction false} FramedPrefix(a: string, b: string)
    ensures |Framed(a)| <= |Framed(a + b)| && Framed(a + b)[..|Framed(a)|] == Framed(a)
  {
    if b == [] {
      assert a + b == a;
    } else {
      assert (a + b)[..|a + b| - 1] == a + b[..|b| - 1];
      FramedPrefix(a, b[..|b| - 1]);
    }
  }

  /** The events that reach the client's handlers: everything up to and with the first command after which
      the handler reports that the client is gone. gone judges the whole list of events so far. */
  function Delivered(events: seq<Event>, gone: seq<Event> -> bool): seq<Event> {
    if events == [] then []
    else
      var before := Delivered(events[..|events| - 1], gone);
      if Ended(before, gone) then before else before + [events[|events| - 1]]
  }

  predicate Ended(events: seq<Event>, gone: seq<Event> -> bool) {
    events != [] && events[|events| - 1].Command? && gone(events)
  }

  /** What is delivered is everything up to the first command after which the client is gone, or
      everything if there is none. */
  lemma {:induction false} DeliveredUpTo(events: seq<Event>, gone: seq<Event> -> bool) returns (k: nat)
    ensures k <= |events| && Delivered(events, gone) == events[..k]
    ensures forall j :: 0 < j < k ==> !(events[j - 1].Command? && gone(events[..j]))
    ensures k < |events| ==> 0 < k && events[k - 1].Command? && gone(events[..k])
  {
    k := 0;
    if events != [] {
      var n := |events| - 1;
      k := DeliveredUpTo(events[..n], gone);
      forall j | 0 < j <= n
        ensures events[..n][..j] == events[..j]
      {
      }
      var before := Delivered(events[..n], gone);
      assert before == events[..k];
      if !Ended(before, gone) {
        assert k == n;
        k := n + 1;
        assert events[..k] == before + [events[n]];
      }
    }
  }

  /** After the end nothing more is delivered. */
  lemma {:induction false} EndedStays(events: seq<Event>, more: seq<Event>, gone: seq<Event> -> bool)
    requires Ended(Delivered(events, gone), gone)
    ensures Delivered(events + more, gone) == Delivered(events, gone)
  {
    if more == [] {
      assert events + more == events;
    } else {
      assert (events + more)[..|events + more| - 1] == events + more[..|more| - 1];
      EndedStays(events, more[..|more| - 1], gone);
    }
  }

  lemma NothingMore(stream: string, more: string, gone: seq<Event> -> bool)
    requires Ended(Delivered(Framed(stream), gone), gone)
    ensures Delivered(Framed(stream + more), gone) == Delivered(Framed(stream), gone)
  {
    FramedPrefix(stream, more);
    var sofar, all := Framed(stream), Framed(stream + more);
    assert all == sofar + all[|sofar|..];
    EndedStays(sofar, all[|sofar|..], gone);
  }

  lemma DeliveredSnoc(events: seq<Event>, e: Event, gone: seq<Event> -> bool)
    requires !Ended(Delivered(events, gone), gone)
    ensures Delivered(events + [e], gone) == Delivered(events, gone) + [e]
  {
    assert (events + [e])[..|events|] == events;
  }

  /** The line buffer of one connected client. log collects the events handed to the handlers. */
  class LineBuffer {
    const bytes: array<char>
    var len: nat
    var discard: bool
    var log: seq<Event>

    /** The state after these bytes, with the client still connected. */
    ghost predicate After(stream: string, gone: seq<Event> -> bool)
      reads this, bytes
    {
      && bytes.Length == MAX_LINE + 1 && len <= MAX_LINE
      && log == Delivered(Framed(stream), gone) && !Ended(log, gone)
      && discard == (|Tail(stream)| > MAX_LINE)
      && (discard ==> len == 0)
      && (!discard ==> bytes[..len] == Tail(stream))
    }

    constructor (ghost gone: seq<Event> -> bool)
      ensures After([], gone) && fresh(bytes) && log == []
    {
      bytes := new char[MAX_LINE + 1];
      len, discard, log := 0, false, [];
    }

    /** Takes one byte in; true when the client is gone. */
    method FeedByte(ch: char, ghost stream: string, gone: seq<Event> -> bool) returns (stop: bool)
      requires After(stream, gone)
      modifies this`len, this`discard, this`log, bytes
      ensures log == Delivered(Framed(stream + [ch]), gone) && stop == Ended(log, gone)
      ensures !stop ==> After(stream + [ch], gone)
    {
      FramedByte(stream, ch);
      assert Framed(stream) + [] == Framed(stream);
      stop := false;
      if discard {
        if ch == '\n' {
          discard := false;
          len := 0;
        }
      } else if ch == '\n' {
        var line := bytes[..len];
        len := 0;
        DeliveredSnoc(Framed(stream), Command(line), gone);
        log := log + [Command(line)];
        stop := gone(log);
      } else if len >= MAX_LINE {
        DeliveredSnoc(Framed(stream), TooLong, gone);
        log := log + [TooLong];
        discard := true;
        len := 0;
      } else {
        bytes[len] := ch;
        len := len + 1;
      }
    }

    /** Takes one received chunk in. However the stream was cut into chunks, the handlers have seen what
        the whole stream comes to, and nothing after the command with which the client left. */
    method Feed(chunk: string, ghost stream: string, gone: seq<Event> -> bool) returns (stop: bool)
      requires After(stream, gone)
      modifies this`len, this`discard, this`log, bytes
      ensures log == Delivered(Framed(stream + chunk), gone) && stop == Ended(log, gone)
      ensures !stop ==> After(stream + chunk, gone)
    {
      stop := false;
      var i := 0;
      ghost var seen := stream;
      while i < |chunk| && !stop
        invariant i <= |chunk| && seen + chunk[i..] == stream + chunk
        invariant log == Delivered(Framed(seen), gone) && stop == Ended(log, gone)
        invariant !stop ==> After(seen, gone)
      {
        OneByteOn(seen, chunk, i);
        stop := FeedByte(chunk[i], seen, gone);
        seen := seen + [chunk[i]];
        i := i + 1;
      }
      if stop {
        NothingMore(seen, chunk[i..], gone);
      } else {
        assert seen == stream + chunk;
      }
    }
  }

  lemma OneByteOn(seen: string, chunk: string, i: nat)
    requires i < |chunk|
    ensures seen + [chunk[i]] + chunk[i + 1..] == seen + chunk[i..]
  {
  }

  /** Any two ways to cut the same stream into chunks hand the same events on: a whole connection, chunk by
      chunk until the client is gone. */
  method Connection(chunks: seq<string>, gone: seq<Event> -> bool) returns (log: seq<Event>)
    ensures log == Delivered(Framed(Flatten(chunks)), gone)
  {
    var buffer := new LineBuffer(gone);
    var stop := false;
    var i := 0;
    assert Flatten(chunks[..0]) == [];
    while i < |chunks| && !stop
      invariant i <= |chunks| && stop == Ended(buffer.log, gone) && fresh(buffer) && fresh(buffer.bytes)
      invariant buffer.log == Delivered(Framed(Flatten(chunks[..i])), gone)
      invariant !stop ==> buffer.After(Flatten(chunks[..i]), gone)
    {
      assert chunks[..i + 1] == chunks[..i] + [chunks[i]];
      FlattenSnoc(chunks[..i], chunks[i]);
      stop := buffer.Feed(chunks[i], Flatten(chunks[..i]), gone);
      i := i + 1;
    }
    log := buffer.log;
    if stop {
      FlattenSplit(chunks, i);
      NothingMore(Flatten(chunks[..i]), Flatten(chunks[i..]), gone);
    } else {
      assert chunks[..i] == chunks;
    }
  }
}
