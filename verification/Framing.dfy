/** Cutting the input of a text session into command lines (src/session.cc, src/buffer.h, src/utils.cc). */
module Framing {
  import opened Basics

  const BUFFER_SIZE: nat := 4096

  const NEWLINE: Byte := 10

  // ---------------------------------------------------------------- the lines of a stream

  ghost predicate NoNewline(s: Bytes) { forall i | 0 <= i < |s| :: s[i] != NEWLINE }

  /** `s` is one line: its last byte is its only newline. */
  ghost predicate IsLine(s: Bytes) { s != [] && s[|s| - 1] == NEWLINE && NoNewline(s[..|s| - 1]) }

  /** The length of the first line of `s`, newline included, or 0. */
  function LineLength(s: Bytes): (n: nat)
    ensures n <= |s|
    ensures n > 0 ==> s[n - 1] == NEWLINE && forall i | 0 <= i < n - 1 :: s[i] != NEWLINE
    ensures n == 0 ==> forall i | 0 <= i < |s| :: s[i] != NEWLINE
  {
    if s == [] then 0
    else if s[0] == NEWLINE then 1
    else var n := LineLength(s[1..]); if n == 0 then 0 else n + 1
  }

  /** The lines, whether the session then hangs up, and what is left unread. */
  datatype Framed = Framed(lines: seq<Bytes>, overflow: bool, left: Bytes)

  function Frame(s: Bytes): Framed
    decreases |s|
  {
    var n := LineLength(s);
    if 0 < n <= BUFFER_SIZE then
      var f := Frame(s[n..]);
      f.(lines := [s[..n]] + f.lines)
    else Framed([], |s| >= BUFFER_SIZE, s)
  }

  lemma JoinAssociates(a: Bytes, b: Bytes, c: Bytes)
    ensures (a + b) + c == a + (b + c)
  {
  }

  lemma FrameStep(s: Bytes)
    requires 0 < LineLength(s) <= BUFFER_SIZE
    ensures var n := LineLength(s); Frame(s) == After([s[..n]], Frame(s[n..]))
  {
  }

  ghost predicate Conserved(f: Framed, s: Bytes) { Flat(f.lines) + f.left == s }

  lemma ConservesStep(s: Bytes, n: nat, f: Framed, rest: Framed)
    requires n <= |s| && Conserved(rest, s[n..]) && f == After([s[..n]], rest)
    ensures Conserved(f, s)
  {
    FlatFirst(s[..n], rest.lines);
    JoinAssociates(s[..n], Flat(rest.lines), rest.left);
    assert s[..n] + s[n..] == s;
  }

  lemma FrameStop(s: Bytes)
    requires !(0 < LineLength(s) <= BUFFER_SIZE)
    ensures Conserved(Frame(s), s)
  {
  }

  lemma {:induction false} FrameConserves(s: Bytes)
    ensures Conserved(Frame(s), s)
    decreases |s|
  {
    var n := LineLength(s);
    if 0 < n <= BUFFER_SIZE {
      FrameConserves(s[n..]);
      FrameStep(s);
      ConservesStep(s, n, Frame(s), Frame(s[n..]));
    } else {
      FrameStop(s);
    }
  }

  lemma FlatFirst(line: Bytes, lines: seq<Bytes>)
    ensures Flat([line] + lines) == line + Flat(lines)
  {
    assert ([line] + lines)[1..] == lines;
  }

  lemma FirstLine(s: Bytes)
    requires LineLength(s) > 0
    ensures IsLine(s[..LineLength(s)])
  {
    var n := LineLength(s);
    assert s[..n][..n - 1] == s[..n - 1];
  }

  lemma {:induction false} FrameLines(s: Bytes, k: nat)
    requires k < |Frame(s).lines|
    ensures IsLine(Frame(s).lines[k]) && |Frame(s).lines[k]| <= BUFFER_SIZE
    decreases |s|
  {
    var n := LineLength(s);
    if k == 0 { FirstLine(s); } else { FrameLines(s[n..], k - 1); }
  }

  lemma {:induction false} FrameEnds(s: Bytes)
    ensures var f := Frame(s);
            && (f.overflow <==> |f.left| >= BUFFER_SIZE)
            && (f.overflow ==> NoNewline(f.left[..BUFFER_SIZE])) && (!f.overflow ==> NoNewline(f.left))
    decreases |s|
  {
    var n := LineLength(s);
    if 0 < n <= BUFFER_SIZE { FrameEnds(s[n..]); }
  }

  /** Nothing is lost or added, every line is a whole line that fits the buffer, and the session hangs up
      exactly when at least a buffer's worth of bytes is left with no newline in the first of them. */
  lemma FrameMeans(s: Bytes)
    ensures Flat(Frame(s).lines) + Frame(s).left == s
    ensures forall k | 0 <= k < |Frame(s).lines| :: IsLine(Frame(s).lines[k]) && |Frame(s).lines[k]| <= BUFFER_SIZE
    ensures var f := Frame(s);
            && (f.overflow <==> |f.left| >= BUFFER_SIZE)
            && (f.overflow ==> NoNewline(f.left[..BUFFER_SIZE])) && (!f.overflow ==> NoNewline(f.left))
  {
    FrameConserves(s);
    FrameEnds(s);
    forall k | 0 <= k < |Frame(s).lines| ensures IsLine(Frame(s).lines[k]) && |Frame(s).lines[k]| <= BUFFER_SIZE {
      FrameLines(s, k);
    }
  }

  lemma {:induction false} LineLengthExtends(a: Bytes, b: Bytes)
    ensures LineLength(a) > 0 ==> LineLength(a + b) == LineLength(a)
    ensures LineLength(a) == 0 ==> LineLength(a + b) == if LineLength(b) == 0 then 0 else |a| + LineLength(b)
  {
    if a == [] {
      assert a + b == b;
    } else {
      LineLengthExtends(a[1..], b);
      assert (a + b)[1..] == a[1..] + b;
    }
  }

  /** More input never changes the lines already found, nor takes back a hang-up. */
  lemma {:induction false} FrameExtends(a: Bytes, b: Bytes)
    ensures Frame(a).lines <= Frame(a + b).lines
    ensures Frame(a).overflow ==> Frame(a + b).overflow && Frame(a + b).lines == Frame(a).lines
    decreases |a|
  {
    var n := LineLength(a);
    LineLengthExtends(a, b);
    if 0 < n <= BUFFER_SIZE {
      assert (a + b)[..n] == a[..n] && (a + b)[n..] == a[n..] + b;
      FrameExtends(a[n..], b);
    }
  }

  /** Lines that came before. */
  function After(lines: seq<Bytes>, f: Framed): Framed { f.(lines := lines + f.lines) }

  lemma AfterLine(lines: seq<Bytes>, s: Bytes)
    requires 0 < LineLength(s) <= BUFFER_SIZE
    ensures After(lines, Frame(s)) == After(lines + [s[..LineLength(s)]], Frame(s[LineLength(s)..]))
  {
  }

  // ---------------------------------------------------------------- the buffer

  class Buffer {
    const b: array<Byte>
    var head: int
    var tail: int

    ghost predicate Valid()
      reads this
    {
      0 <= head <= tail <= b.Length
    }

    ghost function Contents(): Bytes
      requires Valid()
      reads this, b
    {
      b[head..tail]
    }

    constructor (size: nat)
      ensures Valid() && head == 0 && Contents() == [] && b.Length == size && fresh(b)
    {
      b := new Byte[size](_ => 0);
      head, tail := 0, 0;
    }

    function Used(): int
      reads this
    {
      tail - head
    }

    function Available(): int
      reads this
    {
      b.Length - Used()
    }

    /** Refused if there is not that much to read. */
    method NotifyRead(n: nat) returns (at: Option<int>)
      requires Valid()
      modifies this
      ensures Valid() && tail == old(tail)
      ensures at == if n <= old(Used()) then Some(old(head)) else None
      ensures head == old(head) + if at.Some? then n else 0
    {
      if n > Used() { return None; }
      at := Some(head);
      head := head + n;
    }

    /** Refused if there is not that much room. The room counts what lies before `head` too, so that the
        indices stay within the buffer only if there is nothing before it: that is what compacting is for. */
    method NotifyWrite(n: nat) returns (ok: bool)
      requires Valid()
      modifies this
      ensures ok <==> n <= old(Available())
      ensures head == old(head) && tail == old(tail) + if ok then n else 0
      ensures ok ==> (Valid() <==> old(tail) + n <= b.Length)
      ensures head == 0 || n == 0 || !ok ==> Valid()
    {
      if n > Available() { return false; }
      tail := tail + n;
      ok := true;
    }

    /** Move the contents to the front. */
    method Compact()
      requires Valid()
      modifies this, b
      ensures Valid() && head == 0 && Contents() == old(Contents())
    {
      ghost var was := b[..];
      var i := 0;
      while i < Used()
        invariant 0 <= i <= Used() && head == old(head) && tail == old(tail)
        invariant b[..i] == was[head..head + i]
        invariant b[head + i..] == was[head + i..]
      {
        assert b[head + i] == b[head + i..][0] == was[head + i];
        b[i] := b[head + i];
        i := i + 1;
      }
      tail := Used();
      head := 0;
    }

    /** Take `n` bytes off the front. */
    method Sub(n: nat) returns (r: Option<Bytes>)
      requires Valid()
      modifies this
      ensures Valid() && tail == old(tail)
      ensures r == if n <= old(Used()) then Some(old(Contents())[..n]) else None
      ensures Contents() == if r.Some? then old(Contents())[n..] else old(Contents())
    {
      var at := NotifyRead(n);
      if at.None? { return None; }
      r := Some(b[at.value..at.value + n]);
      assert old(b[head..tail])[..n] == b[at.value..at.value + n];
    }
  }

  /** A write that `NotifyWrite` accepts without a compaction before it, and that ends outside the buffer: of
      four bytes three are written and two read, which leaves room for three but only one after `tail`. */
  method WriteWithoutCompact() returns (ok: bool, tail: int, size: nat)
    ensures ok && tail > size
  {
    var buf := new Buffer(4);
    ok := buf.NotifyWrite(3);
    var at := buf.NotifyRead(2);
    ok := buf.NotifyWrite(3);
    tail, size := buf.tail, buf.b.Length;
  }

  /** The first newline among the `len` bytes from `from` on: the number of bytes up to and including it. */
  method FindEndOfCommand(b: array<Byte>, from: nat, len: nat) returns (n: nat)
    requires from + len <= b.Length
    ensures n == LineLength(b[from..from + len])
  {
    var i := 0;
    while i < len
      invariant 0 <= i <= len && forall k | from <= k < from + i :: b[k] != NEWLINE
    {
      if b[from + i] == NEWLINE {
        ghost var s := b[from..from + len];
        forall k | 0 <= k < i ensures s[k] != NEWLINE { assert b[from + k] != NEWLINE; }
        LineIs(s, i);
        return i + 1;
      }
      i := i + 1;
    }
    NoLine(b[from..from + len]);
    n := 0;
  }

  lemma NoLine(s: Bytes)
    requires NoNewline(s)
    ensures LineLength(s) == 0
  {
  }

  lemma LineIs(s: Bytes, i: nat)
    requires i < |s| && s[i] == NEWLINE && forall k | 0 <= k < i :: s[k] != NEWLINE
    ensures LineLength(s) == i + 1
  {
  }

  // ---------------------------------------------------------------- the session

  /** What has become of the unread bytes `all`: the session stops, or takes their first line. */
  ghost predicate Outcome(all: Bytes, stopping: bool, command: Bytes, left: Bytes) {
    if stopping then Frame(all) == Framed([], true, all)
    else
      var n := LineLength(all);
      0 < n <= BUFFER_SIZE && command == all[..n] && left == all[n..]
  }

  ghost predicate Waits(all: Bytes) { Frame(all) == Framed([], false, all) }

  /** What the bytes in the buffer tell about all the bytes to come. */
  lemma Examined(here: Bytes, rest: Bytes)
    requires |here| <= BUFFER_SIZE
    ensures var n := LineLength(here); n > 0 ==> Outcome(here + rest, false, here[..n], here[n..] + rest)
    ensures LineLength(here) == 0 && |here| == BUFFER_SIZE ==> Frame(here + rest) == Framed([], true, here + rest)
    ensures LineLength(here) == 0 && |here| < BUFFER_SIZE && rest == [] ==> Waits(here + rest)
  {
    LineLengthExtends(here, rest);
    var n := LineLength(here);
    if n > 0 { assert (here + rest)[..n] == here[..n] && (here + rest)[n..] == here[n..] + rest; }
    if rest == [] { assert here + rest == here; }
  }

  class Session {
    const ibuf: Buffer
    var stopping: bool
    var command: Bytes

    ghost predicate Valid()
      reads this, ibuf
    {
      ibuf.Valid() && ibuf.b.Length == BUFFER_SIZE
    }

    constructor ()
      ensures Valid() && ibuf.Contents() == [] && !stopping && fresh(ibuf) && fresh(ibuf.b)
    {
      ibuf := new Buffer(BUFFER_SIZE);
      stopping, command := false, [];
    }

    /** The bytes in the buffer and the `additional` ones a read has put behind them. */
    ghost function Unread(additional: nat): Bytes
      requires Valid() && ibuf.tail + additional <= BUFFER_SIZE
      reads this, ibuf, ibuf.b
    {
      ibuf.b[ibuf.head..ibuf.tail + additional]
    }

    /** The first `n` bytes become the command. */
    method TakeLine(n: nat, additional: nat)
      requires Valid() && ibuf.tail + additional <= BUFFER_SIZE && n <= ibuf.Used() + additional
      modifies this`command, ibuf
      ensures Valid() && command == old(Unread(additional))[..n] && ibuf.Contents() == old(Unread(additional))[n..]
    {
      var ok := ibuf.NotifyWrite(additional);
      var line := ibuf.Sub(n);
      command := line.value;
    }

    /** A whole line is taken as the command; a full buffer without one stops the session. */
    method CmdReady(additional: nat) returns (done: bool)
      requires Valid() && !stopping && ibuf.tail + additional <= BUFFER_SIZE && (ibuf.head == 0 || additional == 0)
      modifies this, ibuf
      ensures Valid()
      ensures var n := LineLength(old(Unread(additional)));
              if n > 0 then
                && done && !stopping && command == old(Unread(additional))[..n]
                && ibuf.Contents() == old(Unread(additional))[n..]
              else
                && (done <==> stopping) && (stopping <==> old(ibuf.Used()) + additional == BUFFER_SIZE)
                && ibuf.head == old(ibuf.head) && ibuf.tail == old(ibuf.tail)
    {
      var n := FindEndOfCommand(ibuf.b, ibuf.head, ibuf.Used() + additional);
      if n > 0 {
        TakeLine(n, additional);
        return true;
      }
      if additional == ibuf.Available() {
        stopping := true;
        return true;
      }
      done := false;
    }
  
    /** One read: the network delivers the next `amount` bytes of the stream behind what is there. */
    method Deliver(stream: Bytes, pos: nat, additional: nat, amount: nat)
      requires Valid() && pos + amount <= |stream| && ibuf.tail + additional + amount <= BUFFER_SIZE
      modifies ibuf.b
      ensures Unread(additional + amount) == old(Unread(additional)) + stream[pos..pos + amount]
    {
      var i := 0;
      var at := ibuf.tail + additional;
      while i < amount
        invariant 0 <= i <= amount
        invariant forall k | 0 <= k < at :: ibuf.b[k] == old(ibuf.b[k])
        invariant forall k | at <= k < at + i :: ibuf.b[k] == stream[k - at + pos]
      {
        ibuf.b[at + i] := stream[pos + i];
        i := i + 1;
      }
      ghost var was := old(ibuf.b[ibuf.head..ibuf.tail + additional]);
      assert ibuf.b[ibuf.head..at] == was;
      assert ibuf.b[at..at + amount] == stream[pos..pos + amount];
      assert ibuf.b[ibuf.head..at + amount] == ibuf.b[ibuf.head..at] + ibuf.b[at..at + amount];
    }

    /** A read delivers at least one byte, and at most what there is room for. */
    method ReadSome(stream: Bytes, pos: nat, additional: nat, cut: nat) returns (amount: nat)
      requires Valid() && pos < |stream| && ibuf.head == 0 && ibuf.tail + additional < BUFFER_SIZE
      modifies ibuf.b
      ensures 0 < amount <= |stream| - pos && ibuf.tail + additional + amount <= BUFFER_SIZE
      ensures Unread(additional + amount) + stream[pos + amount..] == old(Unread(additional)) + stream[pos..]
    {
      amount := 1 + cut % Least(ibuf.Available() - additional, |stream| - pos);
      Deliver(stream, pos, additional, amount);
      ghost var was, got, rest := old(Unread(additional)), stream[pos..pos + amount], stream[pos + amount..];
      JoinAssociates(was, got, rest);
      assert stream[pos..] == got + rest;
    }

    /** Wait for a command line: reads of any sizes, as `cuts` says, until a line is complete, the buffer
        is full, or the stream ends. */
    method AwaitCommand(stream: Bytes, start: nat, cuts: nat -> nat, n0: nat) returns (done: bool, pos: nat, n: nat)
      requires Valid() && !stopping && start <= |stream| && ibuf.head == 0
      modifies this, ibuf, ibuf.b
      ensures Valid() && start <= pos <= |stream|
      ensures var all, left := old(ibuf.Contents()) + stream[start..], ibuf.Contents() + stream[pos..];
              done ==> Outcome(all, stopping, command, left)
      ensures !done ==> !stopping && Waits(old(ibuf.Contents()) + stream[start..])
    {
      ghost var all := ibuf.Contents() + stream[start..];
      var additional := 0;
      pos, n := start, n0;
      while true
        invariant Valid() && !stopping && ibuf.head == 0 && ibuf.tail == old(ibuf.tail) && start <= pos <= |stream|
        invariant additional >= 0 && ibuf.tail + additional <= BUFFER_SIZE
        invariant Unread(additional) + stream[pos..] == all
        decreases |stream| - pos
      {
        Examined(Unread(additional), stream[pos..]);
        done := CmdReady(additional);
        if done || pos == |stream| { return; }
        var amount := ReadSome(stream, pos, additional, cuts(n));
        additional, pos, n := additional + amount, pos + amount, n + 1;
      }
    }

    /** Take a line already in the buffer, or compact the buffer and wait for one. */
    method RecvCommand(stream: Bytes, start: nat, cuts: nat -> nat, n0: nat) returns (done: bool, pos: nat, n: nat)
      requires Valid() && !stopping && start <= |stream|
      modifies this, ibuf, ibuf.b
      ensures Valid() && start <= pos <= |stream|
      ensures var all, left := old(ibuf.Contents()) + stream[start..], ibuf.Contents() + stream[pos..];
              done ==> Outcome(all, stopping, command, left)
      ensures !done ==> !stopping && Waits(old(ibuf.Contents()) + stream[start..])
    {
      Examined(ibuf.Contents(), stream[start..]);
      pos, n := start, n0;
      done := CmdReady(0);
      if !done {
        ibuf.Compact();
        done, pos, n := AwaitCommand(stream, pos, cuts, n);
      }
    }

    /** Read a stream to its end or to a hang-up. */
    method Serve(stream: Bytes, cuts: nat -> nat) returns (lines: seq<Bytes>)
      requires Valid() && !stopping && ibuf.Contents() == []
      modifies this, ibuf, ibuf.b
      ensures Valid() && lines == Frame(stream).lines && stopping == Frame(stream).overflow
    {
      lines := [];
      var pos, n := 0, 0;
      assert ibuf.Contents() + stream[0..] == stream;
      while true
        invariant Valid() && !stopping && 0 <= pos <= |stream|
        invariant Frame(stream) == After(lines, Frame(ibuf.Contents() + stream[pos..]))
        decreases |ibuf.Contents() + stream[pos..]|
      {
        ghost var all := ibuf.Contents() + stream[pos..];
        var done;
        done, pos, n := RecvCommand(stream, pos, cuts, n);
        if !done || stopping { return; }
        AfterLine(lines, all);
        lines := lines + [command];
      }
    }
  }

  function Least(a: int, b: int): int { if a < b then a else b }

  /** Framing does not depend on fragmentation: whatever sizes the reads have, a new session yields the
      lines of the stream and stops exactly on overflow. */
  method ServeNew(stream: Bytes, cuts: nat -> nat) returns (lines: seq<Bytes>, stopped: bool)
    ensures lines == Frame(stream).lines && stopped == Frame(stream).overflow
  {
    var s := new Session();
    lines := s.Serve(stream, cuts);
    stopped := s.stopping;
  }
}
