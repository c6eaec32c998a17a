/** Splitting a log file among reader threads by byte range. HW4/reader.c:95-150, 237-266.
    A file is the sequence of its bytes. Parsing one line is a parameter: it gives an entry, or none for
    a malformed line. */
module FileSplit {
  import opened Basics

  /** What a file's lines are: non-empty pieces that spell the file, with the newline as last byte of
      every piece but perhaps the last, and nowhere else. */
  ghost predicate IsLines(f: string, lines: seq<string>) {
    && Flatten(lines) == f
    && (forall i :: 0 <= i < |lines| ==> IsLine(lines[i]))
    && (forall i :: 0 <= i < |lines| - 1 ==> Ended(lines[i]))
  }

  predicate Ended(line: string) {
    line != [] && line[|line| - 1] == '\n'
  }

  ghost predicate IsLine(line: string) {
    line != [] && forall k :: 0 <= k < |line| - 1 ==> line[k] != '\n'
  }

  /** The offset just after the first newline at or after i, or the end of the file. */
  function LineEnd(f: string, i: nat): (r: nat)
    requires i <= |f|
    ensures i <= r <= |f| && (i < |f| ==> i < r)
    ensures forall k :: i <= k < r - 1 ==> f[k] != '\n'
    ensures r == |f| || f[r - 1] == '\n'
    decreases |f| - i
  {
    if i == |f| then i else if f[i] == '\n' then i + 1 else LineEnd(f, i + 1)
  }

  /** The lines from offset p on whose first byte lies in [low, high). */
  function LinesIn(f: string, p: nat, low: int, high: int): seq<string>
    requires p <= |f|
    decreases |f| - p
  {
    if p == |f| then []
    else
      var next := LineEnd(f, p);
      (if low <= p < high then [f[p..next]] else []) + LinesIn(f, next, low, high)
  }

  /** All lines, as one sequential reader gets them. */
  function Lines(f: string): seq<string> {
    LinesIn(f, 0, 0, |f|)
  }

  /** Offset p is the first byte of a line, or the end of the file. */
  predicate StartsLine(f: string, p: nat) {
    p <= |f| && (p == 0 || p == |f| || f[p - 1] == '\n')
  }

  lemma {:induction false} LinesInAreLines(f: string, p: nat)
    requires p <= |f|
    ensures IsLines(f[p..], LinesIn(f, p, 0, |f|))
    decreases |f| - p
  {
    if p < |f| {
      var next := LineEnd(f, p);
      LinesInAreLines(f, next);
      assert f[p..] == f[p..next] + f[next..];
      assert next == |f| ==> LinesIn(f, next, 0, |f|) == [];
    }
  }

  lemma NoLines(lines: seq<string>)
    requires forall i :: 0 <= i < |lines| ==> IsLine(lines[i])
    ensures Flatten(lines) == [] <==> lines == []
  {
    if lines != [] {
      assert IsLine(lines[0]);
    }
  }

  /** Cutting a file at a line's end is unambiguous. */
  lemma {:induction false} LinesUnique(f: string, a: seq<string>, b: seq<string>)
    requires IsLines(f, a) && IsLines(f, b)
    ensures a == b
    decreases |a|
  {
    if a == [] || b == [] {
      NoLines(a);
      NoLines(b);
    } else {
      var x, y := a[0], b[0];
      assert f == x + Flatten(a[1..]) && f == y + Flatten(b[1..]);
      FirstLineNoLonger(f, a, b);
      FirstLineNoLonger(f, b, a);
      assert x == f[..|x|] && y == f[..|y|];
      assert f[|x|..] == Flatten(a[1..]) && f[|y|..] == Flatten(b[1..]);
      LinesUnique(f[|x|..], a[1..], b[1..]);
      assert a == [a[0]] + a[1..] && b == [b[0]] + b[1..];
    }
  }

  lemma FirstLineNoLonger(f: string, a: seq<string>, b: seq<string>)
    requires IsLines(f, a) && IsLines(f, b) && a != [] && b != []
    ensures |a[0]| <= |b[0]|
  {
    var x, y := a[0], b[0];
    assert f == x + Flatten(a[1..]) && f == y + Flatten(b[1..]);
    assert IsLine(x);
    if |b| == 1 {
      assert Flatten(b[1..]) == [];
    } else {
      assert Ended(y);
      assert y[|y| - 1] == f[|y| - 1];
    }
  }

  /** Lines is the one way to cut a file into lines. */
  lemma LinesCharacterised(f: string, lines: seq<string>)
    ensures IsLines(f, lines) <==> lines == Lines(f)
  {
    LinesInAreLines(f, 0);
    assert f[0..] == f;
    if IsLines(f, lines) {
      LinesUnique(f, lines, Lines(f));
    }
  }

  /** Two adjacent ranges hold, in order, the lines of their union. */
  lemma {:induction false} LinesJoin(f: string, p: nat, a: int, b: int, c: int)
    requires p <= |f| && a <= b <= c
    ensures LinesIn(f, p, a, b) + LinesIn(f, p, b, c) == LinesIn(f, p, a, c)
    decreases |f| - p
  {
    if p < |f| {
      var next := LineEnd(f, p);
      var line := f[p..next];
      var left, right, all := LinesIn(f, next, a, b), LinesIn(f, next, b, c), LinesIn(f, next, a, c);
      LinesJoin(f, next, a, b, c);
      if p < b {
        assert LinesIn(f, p, b, c) == right;
        assert a <= p ==> LinesIn(f, p, a, b) == [line] + left && LinesIn(f, p, a, c) == [line] + all;
        assert p < a ==> LinesIn(f, p, a, b) == left && LinesIn(f, p, a, c) == all;
      } else {
        LinesBefore(f, next, a, b);
        LinesBefore(f, p, a, b);
        assert p < c ==> LinesIn(f, p, b, c) == [line] + right && LinesIn(f, p, a, c) == [line] + all;
      }
    }
  }

  lemma {:induction false} LinesBefore(f: string, p: nat, low: int, high: int)
    requires high <= p <= |f|
    ensures LinesIn(f, p, low, high) == []
    decreases |f| - p
  {
    if p < |f| {
      LinesBefore(f, LineEnd(f, p), low, high);
    }
  }

  /** Every offset from the end of the file on gives the same range, and so does every one from the start back. */
  lemma {:induction false} LinesClip(f: string, p: nat, low: int, high: int, low': int, high': int)
    requires p <= |f|
    requires low == low' || (low >= |f| && low' >= |f|) || (low <= p && low' <= p)
    requires high == high' || (high >= |f| && high' >= |f|)
    ensures LinesIn(f, p, low, high) == LinesIn(f, p, low', high')
    decreases |f| - p
  {
    if p < |f| {
      LinesClip(f, LineEnd(f, p), low, high, low', high');
    }
  }

  /** No line begins between an offset inside a line and that line's end. */
  lemma {:induction false} LinesSkip(f: string, p: nat, low: nat, high: int)
    requires StartsLine(f, p) && p <= low <= |f|
    requires low == 0 || low == |f| || f[low - 1] != '\n'
    ensures low > 0 && f[low - 1] != '\n' ==> LinesIn(f, p, low, high) == LinesIn(f, LineEnd(f, low), low, high)
    decreases |f| - p
  {
    if p < low && low > 0 && f[low - 1] != '\n' {
      var next := LineEnd(f, p);
      if next <= low {
        LinesSkip(f, next, low, high);
      } else {
        LineEndShared(f, p, low);
      }
    }
  }

  lemma {:induction false} LineEndShared(f: string, p: nat, q: nat)
    requires p <= |f| && p <= q < LineEnd(f, p)
    ensures LineEnd(f, q) == LineEnd(f, p)
    decreases q - p
  {
    if p < q {
      LineEndShared(f, p + 1, q);
    }
  }

  /** Lines that start before the range do not count. */
  lemma {:induction false} LinesFrom(f: string, p: nat, low: nat, high: int)
    requires StartsLine(f, p) && StartsLine(f, low) && p <= low
    ensures LinesIn(f, p, low, high) == LinesIn(f, low, low, high)
    decreases |f| - p
  {
    if p < low {
      var next := LineEnd(f, p);
      assert low == |f| || f[low - 1] == '\n';
      LinesFrom(f, next, low, high);
    }
  }

  /** Where a thread's first line search ends: the offset itself when it starts a line, otherwise the
      end of the line it falls into; past the end nothing is skipped. */
  function Synced(f: string, start: nat): nat {
    if start == 0 then 0
    else if start > |f| then start - 1
    else if f[start - 1] == '\n' then start
    else LineEnd(f, start)
  }

  /** A thread's range holds the lines from its synced offset on. */
  lemma SyncedStart(f: string, start: nat, high: int)
    ensures Synced(f, start) <= |f| ==> StartsLine(f, Synced(f, start))
    ensures LinesIn(f, 0, start, high) == LinesAt(f, Synced(f, start), start, high)
  {
    if start > |f| {
      LinesClip(f, 0, start, high, |f|, high);
      LinesFrom(f, 0, |f|, high);
    } else if start > 0 {
      if f[start - 1] == '\n' {
        LinesFrom(f, 0, start, high);
      } else {
        LinesSkip(f, 0, start, high);
      }
    }
  }

  /** The lines in range from an offset that may be past the end of the file. */
  function LinesAt(f: string, p: nat, low: int, high: int): seq<string> {
    if p <= |f| then LinesIn(f, p, low, high) else []
  }

  lemma ParsedSnoc<E>(a: seq<string>, line: string, parse: string -> Option<E>)
    ensures Parsed(a + [line], parse) == Parsed(a, parse) + Kept(parse(line))
  {
    assert (a + [line])[..|a|] == a;
  }

  function Kept<E>(entry: Option<E>): seq<E> {
    match entry
    case None => []
    case Some(e) => [e]
  }

  /** What the parser makes of a list of lines. */
  function Parsed<E>(lines: seq<string>, parse: string -> Option<E>): seq<E> {
    if lines == [] then []
    else
      Parsed(lines[..|lines| - 1], parse) +
      Kept(parse(lines[|lines| - 1]))
  }

  lemma {:induction false} ParsedJoin<E>(a: seq<string>, b: seq<string>, parse: string -> Option<E>)
    ensures Parsed(a + b, parse) == Parsed(a, parse) + Parsed(b, parse)
  {
    if b == [] {
      assert a + b == a;
    } else {
      var n := |b| - 1;
      ParsedJoin(a, b[..n], parse);
      assert (a + b)[..|a + b| - 1] == a + b[..n];
    }
  }

  /** The lines that belong to one thread's range. The last thread's range has no end. */
  function ThreadLines(f: string, start: nat, end: nat, last: bool): seq<string> {
    LinesIn(f, 0, start, if last then start + |f| else end)
  }

  /** The first half of a reader thread: from its start offset to the first line that starts there or later. */
  method SkipToLine(f: string, start: nat) returns (pos: nat)
    ensures pos == Synced(f, start)
  {
    pos := start;
    if start > 0 {
      pos := start - 1;
      var newline := false;
      if pos < |f| {
        newline := f[pos] == '\n';
        pos := pos + 1;
      }
      if !newline {
        while pos < |f| && !newline
          invariant start > |f| ==> pos == start - 1
          invariant start <= |f| ==> f[start - 1] != '\n' && start <= pos <= |f|
          invariant start <= |f| ==> LineEnd(f, start) == if newline then pos else LineEnd(f, pos)
        {
          newline := f[pos] == '\n';
          pos := pos + 1;
        }
      }
    }
  }

  /** Reading on from an offset takes the line that starts there. */
  lemma LinesStep(f: string, p: nat, low: int, high: int)
    requires p < |f|
    ensures low <= p < high ==> LinesAt(f, p, low, high) == [f[p..LineEnd(f, p)]] + LinesAt(f, LineEnd(f, p), low, high)
    ensures high <= p ==> LinesAt(f, p, low, high) == []
  {
    if high <= p {
      LinesBefore(f, p, low, high);
    }
  }

  /** Taking that line leaves the rest of the range to be read. */
  lemma ReadOn(all: seq<string>, read: seq<string>, f: string, p: nat, low: int, high: int)
    requires p < |f| && low <= p < high && all == read + LinesAt(f, p, low, high)
    ensures all == read + [f[p..LineEnd(f, p)]] + LinesAt(f, LineEnd(f, p), low, high)
  {
    LinesStep(f, p, low, high);
  }

  /** One reader thread: pushes the parsed lines of its range in file order, and counts lines read and
      malformed ones. */
  method ReadRange<E>(f: string, start: nat, end: nat, last: bool, parse: string -> Option<E>)
    returns (pushed: seq<E>, linesRead: nat, malformed: nat)
    ensures pushed == Parsed(ThreadLines(f, start, end, last), parse)
    ensures linesRead == |ThreadLines(f, start, end, last)|
    ensures malformed == linesRead - |pushed|
  {
    ghost var high := if last then start + |f| else end;
    ghost var all := ThreadLines(f, start, end, last);
    var pos := SkipToLine(f, start);
    SyncedStart(f, start, high);
    pushed, linesRead, malformed := [], 0, 0;
    ghost var read: seq<string> := [];
    assert all == read + LinesAt(f, pos, start, high);
    while pos < |f| && (last || pos < end)
      invariant start <= pos || |f| <= pos
      invariant all == read + LinesAt(f, pos, start, high)
      invariant pushed == Parsed(read, parse) && linesRead == |read|
      invariant malformed == linesRead - |pushed|
      decreases |f| - pos
    {
      var next := LineEnd(f, pos);
      var line := f[pos..next];
      ReadOn(all, read, f, pos, start, high);
      ParsedSnoc(read, line, parse);
      var entry := parse(line);
      if entry.Some? {
        pushed := pushed + [entry.value];
      } else {
        malformed := malformed + 1;
      }
      linesRead := linesRead + 1;
      read := read + [line];
      pos := next;
    }
    if pos < |f| {
      LinesStep(f, pos, start, high);
    }
    assert all == read;
  }

  function Min(a: int, b: int): int {
    if a < b then a else b
  }

  /** The size of each thread's byte range. */
  function Chunk(size: nat, threads: nat): nat
    requires threads > 0
  {
    (size + threads - 1) / threads
  }

  /** What thread t of a reader with so many threads pushes. */
  function ThreadShare(f: string, t: nat, threads: nat): seq<string>
    requires t < threads
  {
    ThreadLines(f, t * Chunk(|f|, threads), Min((t + 1) * Chunk(|f|, threads), |f|), t == threads - 1)
  }

  function SharesUpTo(f: string, k: nat, threads: nat): seq<string>
    requires k <= threads
  {
    if k == 0 then [] else SharesUpTo(f, k - 1, threads) + ThreadShare(f, k - 1, threads)
  }

  lemma ChunksCover(size: nat, threads: nat)
    requires threads > 0
    ensures threads * Chunk(size, threads) >= size
    ensures size > 0 ==> threads * (Chunk(size, threads) - 1) < size
    ensures size == 0 ==> Chunk(size, threads) == 0
  {
    var c := Chunk(size, threads);
    assert size + threads - 1 == c * threads + (size + threads - 1) % threads;
    assert threads * c == c * threads && threads * (c - 1) == threads * c - threads;
  }

  /** starts are the offsets in [low, high) at which a line begins, from p on, in order, and the lines are
      what stands from each to the next newline. */
  ghost predicate StartAt(f: string, p: nat, low: int, high: int, lines: seq<string>, starts: seq<nat>) {
    && |starts| == |lines|
    && (forall i :: 0 <= i < |starts| ==>
          && p <= starts[i] < |f| && low <= starts[i] < high && StartsLine(f, starts[i])
          && lines[i] == f[starts[i]..LineEnd(f, starts[i])])
    && (forall i, j :: 0 <= i < j < |starts| ==> starts[i] < starts[j])
    && forall q: nat :: p <= q < |f| && low <= q < high && StartsLine(f, q) ==> q in starts
  }

  lemma NoStartInside(f: string, p: nat, q: nat)
    requires p <= |f| && p < q < LineEnd(f, p)
    ensures !StartsLine(f, q)
  {
    assert f[q - 1] != '\n';
  }

  /** One line in front of those that begin later. */
  lemma StartsBefore(f: string, p: nat, low: int, high: int, lines: seq<string>, later: seq<nat>)
    requires p < |f| && StartsLine(f, p) && StartAt(f, LineEnd(f, p), low, high, lines, later)
    ensures low <= p < high ==> StartAt(f, p, low, high, [f[p..LineEnd(f, p)]] + lines, [p] + later)
    ensures !(low <= p < high) ==> StartAt(f, p, low, high, lines, later)
  {
    forall q: nat | p <= q < |f| && low <= q < high && StartsLine(f, q)
      ensures q == p || q in later
    {
      if p < q < LineEnd(f, p) {
        NoStartInside(f, p, q);
      }
    }
    if low <= p < high {
      StartsWith(f, p, low, high, lines, later);
    }
  }

  lemma StartsWith(f: string, p: nat, low: int, high: int, lines: seq<string>, later: seq<nat>)
    requires p < |f| && StartsLine(f, p) && low <= p < high && StartAt(f, LineEnd(f, p), low, high, lines, later)
    requires forall q: nat :: p <= q < |f| && low <= q < high && StartsLine(f, q) ==> q == p || q in later
    ensures StartAt(f, p, low, high, [f[p..LineEnd(f, p)]] + lines, [p] + later)
  {
    var all, texts := [p] + later, [f[p..LineEnd(f, p)]] + lines;
    forall i | 0 <= i < |all|
      ensures p <= all[i] < |f| && low <= all[i] < high && StartsLine(f, all[i]) && texts[i] == f[all[i]..LineEnd(f, all[i])]
      ensures i > 0 ==> all[i] == later[i - 1] > p
    {
    }
    forall q: nat | q == p || q in later
      ensures q in all
    {
      assert q == all[0] || q in later;
    }
  }

  lemma {:induction false} LinesStart(f: string, p: nat, low: int, high: int) returns (starts: seq<nat>)
    requires StartsLine(f, p)
    ensures StartAt(f, p, low, high, LinesIn(f, p, low, high), starts)
    decreases |f| - p
  {
    starts := [];
    if p < |f| {
      var next := LineEnd(f, p);
      var later := LinesStart(f, next, low, high);
      StartsBefore(f, p, low, high, LinesIn(f, next, low, high), later);
      starts := if low <= p < high then [p] + later else later;
      assert low > p || p >= high ==> [] + LinesIn(f, next, low, high) == LinesIn(f, next, low, high);
    }
  }

  /** Thread t reads the lines that begin in its range: the file is cut into ranges of one size, the
      smallest with which the threads cover the file. */
  lemma ThreadReadsItsRange(f: string, t: nat, threads: nat, c: nat) returns (starts: seq<nat>)
    requires t < threads && threads * c >= |f| && (if |f| > 0 then threads * (c - 1) < |f| else c == 0)
    ensures StartAt(f, 0, t * c, (t + 1) * c, ThreadShare(f, t, threads), starts)
  {
    ChunksCover(|f|, threads);
    var d := Chunk(|f|, threads);
    SameChunk(|f|, threads, c, d);
    assert (t + 1) * c == t * c + c;
    if t == threads - 1 {
      assert (t + 1) * c == threads * c;
      LinesClip(f, 0, t * c, t * c + |f|, t * c, (t + 1) * c);
    } else {
      LinesClip(f, 0, t * c, Min((t + 1) * c, |f|), t * c, (t + 1) * c);
    }
    starts := LinesStart(f, 0, t * c, (t + 1) * c);
  }

  lemma SameChunk(size: nat, threads: nat, c: nat, d: nat)
    requires threads * c >= size && threads * d >= size
    requires if size > 0 then threads * (c - 1) < size && threads * (d - 1) < size else c == d
    ensures c == d
  {
    if c < d {
      Scaled(threads, c, d - 1);
    }
    if d < c {
      Scaled(threads, d, c - 1);
    }
  }

  lemma Scaled(n: nat, a: nat, b: nat)
    requires a <= b
    ensures n * a <= n * b
  {
  }

  lemma {:induction false} SharesCover(f: string, k: nat, threads: nat)
    requires k < threads
    ensures SharesUpTo(f, k, threads) == LinesIn(f, 0, 0, k * Chunk(|f|, threads))
  {
    var c := Chunk(|f|, threads);
    if k == 0 {
      LinesBefore(f, 0, 0, 0);
    } else {
      SharesCover(f, k - 1, threads);
      assert (k - 1) * c <= k * c && 0 <= (k - 1) * c by {
        assert k * c == (k - 1) * c + c;
      }
      LinesJoin(f, 0, 0, (k - 1) * c, k * c);
      LinesClip(f, 0, (k - 1) * c, Min(k * c, |f|), (k - 1) * c, k * c);
    }
  }

  /** The shares of threads 0 .. threads - 1, in thread order, are exactly the file's lines, each once. */
  lemma SplitIsSequential(f: string, threads: nat)
    requires threads > 0
    ensures SharesUpTo(f, threads, threads) == Lines(f)
    ensures IsLines(f, SharesUpTo(f, threads, threads))
  {
    var c := Chunk(|f|, threads);
    var n := threads - 1;
    SharesCover(f, n, threads);
    ChunksCover(|f|, threads);
    assert 0 <= n * c;
    LinesJoin(f, 0, 0, n * c, n * c + |f|);
    LinesClip(f, 0, 0, n * c + |f|, 0, |f|);
    LinesCharacterised(f, Lines(f));
  }

  /** What the first k threads push, thread by thread. */
  function ShareList<E>(f: string, k: nat, threads: nat, parse: string -> Option<E>): (shares: seq<seq<E>>)
    requires k <= threads
    ensures |shares| == k
  {
    if k == 0 then []
    else ShareList(f, k - 1, threads, parse) + [Parsed(ThreadShare(f, k - 1, threads), parse)]
  }

  lemma SharesStep<E>(f: string, k: nat, threads: nat, parse: string -> Option<E>, shares: seq<seq<E>>, share: seq<E>)
    requires k < threads
    requires Flatten(shares) == Parsed(SharesUpTo(f, k, threads), parse)
    requires share == Parsed(ThreadShare(f, k, threads), parse)
    ensures Flatten(shares + [share]) == Parsed(SharesUpTo(f, k + 1, threads), parse)
    ensures |SharesUpTo(f, k + 1, threads)| == |SharesUpTo(f, k, threads)| + |ThreadShare(f, k, threads)|
    ensures |Flatten(shares + [share])| == |Flatten(shares)| + |share|
  {
    FlattenSnoc(shares, share);
    ParsedJoin(SharesUpTo(f, k, threads), ThreadShare(f, k, threads), parse);
  }

  /** Together the threads of a reader push the parsed lines of its file, each once, in file order. */
  lemma {:induction false} SharesArePushed<E>(f: string, k: nat, threads: nat, parse: string -> Option<E>)
    requires k <= threads
    ensures Flatten(ShareList(f, k, threads, parse)) == Parsed(SharesUpTo(f, k, threads), parse)
    ensures k == threads > 0 ==> Flatten(ShareList(f, k, threads, parse)) == Parsed(Lines(f), parse)
  {
    if k > 0 {
      SharesArePushed(f, k - 1, threads, parse);
      SharesStep(f, k - 1, threads, parse, ShareList(f, k - 1, threads, parse),
                 Parsed(ThreadShare(f, k - 1, threads), parse));
    }
    if k == threads > 0 {
      SplitIsSequential(f, threads);
    }
  }

  /** The part of thread i in a reader process. */
  method ReadShare<E>(f: string, i: nat, threads: nat, parse: string -> Option<E>)
    returns (pushed: seq<E>, linesRead: nat, malformed: nat)
    requires i < threads
    ensures pushed == Parsed(ThreadShare(f, i, threads), parse)
    ensures linesRead == |ThreadShare(f, i, threads)| && malformed == linesRead - |pushed|
  {
    var chunk := Chunk(|f|, threads);
    var end := (i + 1) * chunk;
    if end > |f| {
      end := |f|;
    }
    pushed, linesRead, malformed := ReadRange(f, i * chunk, end, i == threads - 1, parse);
  }

  /** One reader process: all its threads, in thread order, read the file exactly once. */
  method ReadFile<E>(f: string, threads: nat, parse: string -> Option<E>)
    returns (shares: seq<seq<E>>, linesRead: nat, malformed: nat)
    requires threads > 0
    ensures |shares| == threads
    ensures shares == ShareList(f, threads, threads, parse)
    ensures Flatten(shares) == Parsed(Lines(f), parse)
    ensures linesRead == |Lines(f)| && malformed == linesRead - |Flatten(shares)|
  {
    shares, linesRead, malformed := [], 0, 0;
    var i := 0;
    while i < threads
      invariant i == |shares| <= threads
      invariant shares == ShareList(f, i, threads, parse)
      invariant Flatten(shares) == Parsed(SharesUpTo(f, i, threads), parse)
      invariant linesRead == |SharesUpTo(f, i, threads)|
      invariant malformed == linesRead - |Flatten(shares)|
    {
      var share, count, bad := ReadShare(f, i, threads, parse);
      SharesStep(f, i, threads, parse, shares, share);
      shares, linesRead, malformed := shares + [share], linesRead + count, malformed + bad;
      i := i + 1;
    }
    SplitIsSequential(f, threads);
  }
}
