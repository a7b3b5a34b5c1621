/** Following a log that another program copies and truncates in place. */
module LogFollower {
  import opened Common
  import opened LogLines

  const MAX_READ := 4194304
  const CHUNK := 65536
  const MAX_OFFSET := 0x7FFF_FFFF_FFFF_FFFF

  /** A file: which one it is, and what it holds. */
  datatype File = File(id: nat, text: Text)

  datatype Mark = Mark(id: nat, size: nat)

  datatype Position = Position(open: Option<nat>, off: nat, carry: Carry, tail: Text, mark: Option<Mark>)

  const CLOSED := Position(None, 0, Carry([], false), [], None)

  function Min(x: nat, y: nat): nat {
    if x <= y then x else y
  }

  // ------------------------------------------------------------ specification

  /** Where a read that begins at from ends. */
  function Stop(text: Text, from: nat, limit: nat): (stop: nat)
    ensures from <= stop
    ensures from < stop ==> stop <= |text| && stop <= limit
  {
    var end := Min(|text|, limit);
    if from >= end then from else Min(from + MAX_READ, end)
  }

  /** What it reads. */
  function Got(text: Text, from: nat, limit: nat): Text {
    Piece(text, from, Stop(text, from, limit))
  }

  /** The bytes before the offset are those read last. */
  predicate Unchanged(f: Position, log: Text) {
    f.tail == [] || (|f.tail| <= f.off <= |log| && log[f.off - |f.tail|..f.off] == f.tail)
  }

  /** The copy grew while nothing of the log had been read, and the log does not
      begin with what the copy was given. */
  predicate Cleared(f: Position, log: Text, copy: Option<File>) {
    && f.off == 0 && f.mark.Some? && copy.Some? && copy.value.id == f.mark.value.id
    && |copy.value.text| > f.mark.value.size
    && (log == [] ||
        (var n := Min(Min(|log|, |copy.value.text| - f.mark.value.size), TAIL_SIZE);
         log[..n] != copy.value.text[f.mark.value.size..f.mark.value.size + n]))
  }

  predicate Detected(f: Position, log: Text, copy: Option<File>) {
    |log| < f.off || !Unchanged(f, log) || Cleared(f, log, copy)
  }

  /** The copy holds what was read, and after it what was not. */
  predicate Recoverable(f: Position, copy: Option<File>) {
    && f.mark.Some? && copy.Some? && copy.value.id == f.mark.value.id
    && var from := f.mark.value.size + f.off;
       && |f.tail| <= from <= |copy.value.text|
       && copy.value.text[from - |f.tail|..from] == f.tail
  }

  function Recovered(f: Position, copy: Option<File>): seq<Text> {
    if Recoverable(f, copy)
    then Feed(f.carry, Got(copy.value.text, f.mark.value.size + f.off, |copy.value.text|)).lines
    else []
  }

  /** What is behind the log's start when it is opened there: the end of the copy. */
  function CopyTail(copy: Option<File>): seq<Text> {
    if copy.None? then []
    else
      var text := copy.value.text;
      var from := if |text| > MAX_READ then |text| - MAX_READ else 0;
      Feed(Carry([], from > 0), Got(text, from, |text|)).lines
  }

  function Marked(copy: Option<File>): Option<Mark> {
    if copy.Some? then Some(Mark(copy.value.id, |copy.value.text|)) else None
  }

  /** Reads on from a position that begins nowhere before its tail. */
  function ReadOn(f: Position, log: File, copy: Option<File>): (Position, seq<Text>) {
    var data := Got(log.text, f.off, MAX_OFFSET);
    var fed := Feed(f.carry, data);
    (Position(Some(log.id), f.off + |data|, fed.carry, TailOf(f.tail + data), Marked(copy)), fed.lines)
  }

  datatype Polled = Polled(position: Position, lines: seq<Text>, backlog: bool, failed: bool)

  function Joins(log: File): Position {
    var off := if |log.text| > MAX_READ then |log.text| - MAX_READ else 0;
    Position(Some(log.id), off, Carry([], off > 0), [], None)
  }

  /** One poll: what it passes on, and where it ends. */
  function Poll(f: Position, log: Option<File>, copy: Option<File>): Polled {
    if log.None? then Polled(f, [], false, true)
    else if f.open != Some(log.value.id) then
      var at := Joins(log.value);
      var before := if at.off == 0 then CopyTail(copy) else [];
      var (next, lines) := ReadOn(at, log.value, copy);
      Polled(next, before + lines, true, false)
    else if Detected(f, log.value.text, copy) then
      var before := Recovered(f, copy);
      var (next, lines) := ReadOn(f.(off := 0, carry := Carry([], false), tail := []), log.value, copy);
      Polled(next, before + lines, false, false)
    else
      var (next, lines) := ReadOn(f, log.value, copy);
      Polled(next, lines, false, false)
  }

  // ---------------------------------------------------------- implementation

  class Follower {
    var open: Option<nat>
    var off: nat
    var partial: Text
    var skip: bool
    var tail: Text
    var mark: Option<Mark>

    constructor ()
      ensures View() == CLOSED
    {
      open, off, partial, skip, tail, mark := None, 0, [], false, [], None;
    }

    function View(): Position
      reads this
    {
      Position(open, off, Carry(partial, skip), tail, mark)
    }

    method Split(chunk: Text) returns (lines: seq<Text>)
      modifies this`partial, this`skip
      ensures Fed(lines, Carry(partial, skip)) == Feed(Carry(old(partial), old(skip)), chunk)
    {
      lines := [];
      var data := chunk;
      while data != []
        invariant Feed(Carry(old(partial), old(skip)), chunk) == Behind(lines, Feed(Carry(partial, skip), data))
        decreases |data|
      {
        var i := FirstNewline(data);
        if i == |data| {
          if skip || |partial| + |data| > MAX_LINE {
            partial, skip := [], true;
          } else {
            partial := partial + data;
          }
          return;
        }
        ghost var c := Carry(partial, skip);
        BehindOn(lines, FirstLine(c, data), Feed(Carry([], false), After(data)));
        if !skip && |partial| + i <= MAX_LINE {
          lines := lines + [partial + data[..i]];
        }
        partial, skip := [], false;
        data := data[i + 1..];
      }
    }

    method Remember(data: Text)
      modifies this`tail
      ensures tail == TailOf(old(tail) + data)
    {
      if |data| >= TAIL_SIZE {
        tail := data[|data| - TAIL_SIZE..];
        return;
      }
      tail := tail + data;
      if |tail| > TAIL_SIZE {
        tail := tail[|tail| - TAIL_SIZE..];
      }
    }

    /** A chunk more, after what was read since a carry and a tail. */
    method Take(data: Text, ghost c: Carry, ghost was: Text, ghost sofar: Text,
                ghost out: seq<Text>) returns (lines: seq<Text>)
      requires Fed(out, Carry(partial, skip)) == Feed(c, sofar) && tail == TailOf(was + sofar)
      modifies this`partial, this`skip, this`tail
      ensures Fed(out + lines, Carry(partial, skip)) == Feed(c, sofar + data)
      ensures tail == TailOf(was + (sofar + data))
    {
      hide Feed, TailOf;
      FeedFeed(c, sofar, data);
      lines := Split(data);
      Remember(data);
      TailOn(was + sofar, data);
      assert was + sofar + data == was + (sofar + data);
    }

    /** Passes the lines of a file from an offset, at most MAX_READ bytes, chunk by chunk. */
    method Read(text: Text, from: nat, limit: nat) returns (stop: nat, lines: seq<Text>, ghost data: Text)
      requires |tail| <= TAIL_SIZE
      modifies this`partial, this`skip, this`tail
      ensures stop == Stop(text, from, limit) && data == Got(text, from, limit)
      ensures Fed(lines, Carry(partial, skip)) == Feed(Carry(old(partial), old(skip)), data)
      ensures tail == TailOf(old(tail) + data)
      ensures |tail| <= TAIL_SIZE && |tail| <= |old(tail)| + |data|
    {
      hide Feed, Underway, Stop, Piece, TailOf;
      FeedNothing(Carry(partial, skip));
      NothingRead(text, from, limit, tail);
      ghost var rounds := 0;
      stop, lines, data := from, [], [];
      assert old(tail) + data == old(tail);
      var read := 0;
      while read < MAX_READ && stop < limit
        invariant stop == from + read && Underway(|text|, from, limit, stop, rounds)
        invariant data == Piece(text, from, stop)
        invariant Fed(lines, Carry(partial, skip)) == Feed(Carry(old(partial), old(skip)), data)
        invariant tail == TailOf(old(tail) + data)
        decreases limit - stop
      {
        var want := Min(CHUNK, limit - stop);
        var n := if stop >= |text| then 0 else Min(want, |text| - stop);
        if n == 0 {
          break;
        }
        UnderwayOn(|text|, from, limit, stop, rounds, n);
        var more := Take(text[stop..stop + n], Carry(old(partial), old(skip)), old(tail), data, lines);
        PieceOn(text, from, stop, n);
        data := data + text[stop..stop + n];
        lines := lines + more;
        stop, read, rounds := stop + n, read + n, rounds + 1;
        if n < want {
          break;
        }
      }
      Arrived(text, from, limit, stop, rounds);
      TailLength(old(tail) + data);
    }

    method Unaltered(log: Text) returns (same: bool)
      ensures same == Unchanged(View(), log)
    {
      if tail == [] {
        return true;
      }
      return |tail| <= off <= |log| && log[off - |tail|..off] == tail;
    }

    method WasCleared(log: Text, copy: Option<File>) returns (cleared: bool)
      ensures cleared == Cleared(View(), log, copy)
    {
      if off != 0 || mark.None? || copy.None? {
        return false;
      }
      var size := mark.value.size;
      var text := copy.value.text;
      if copy.value.id != mark.value.id || |text| <= size {
        return false;
      }
      var n := Min(Min(|log|, |text| - size), TAIL_SIZE);
      var head, appended := log[..n], text[size..size + n];
      return log == [] || head != appended;
    }

    method Recover(copy: Option<File>) returns (lines: seq<Text>)
      requires |tail| <= TAIL_SIZE && |tail| <= off
      modifies this`partial, this`skip, this`tail
      ensures lines == Recovered(old(View()), copy)
    {
      hide Feed, Got, Stop, TailOf;
      if mark.None? || copy.None? {
        return [];
      }
      var text := copy.value.text;
      var from := mark.value.size + off;
      if copy.value.id != mark.value.id || |text| < from || text[from - |tail|..from] != tail {
        return [];
      }
      var stop;
      ghost var data;
      stop, lines, data := Read(text, from, |text|);
    }

    method ReadCopyTail(copy: Option<File>) returns (lines: seq<Text>)
      requires |tail| <= TAIL_SIZE && partial == []
      modifies this`partial, this`skip, this`tail
      ensures lines == CopyTail(copy)
      ensures copy.Some? ==> partial == [] && !skip && tail == []
      ensures copy.None? ==> partial == old(partial) && skip == old(skip) && tail == old(tail)
    {
      hide Feed, Got, Stop, TailOf;
      if copy.None? {
        return [];
      }
      var text := copy.value.text;
      var from := if |text| > MAX_READ then |text| - MAX_READ else 0;
      skip := from > 0;
      var stop;
      ghost var data;
      stop, lines, data := Read(text, from, |text|);
      partial, skip, tail := [], false, [];
    }

    method ReadMore(log: File, copy: Option<File>) returns (lines: seq<Text>)
      requires |tail| <= TAIL_SIZE && |tail| <= off && open == Some(log.id)
      modifies this
      ensures (View(), lines) == ReadOn(old(View()), log, copy)
      ensures |tail| <= TAIL_SIZE && |tail| <= off
    {
      hide Feed, TailOf, Stop, Piece;
      mark := if copy.Some? then Some(Mark(copy.value.id, |copy.value.text|)) else None;
      var stop;
      ghost var data;
      stop, lines, data := Read(log.text, off, MAX_OFFSET);
      GotLength(log.text, off, MAX_OFFSET);
      off := stop;
    }

    method Open(log: File, copy: Option<File>) returns (lines: seq<Text>)
      modifies this
      ensures View() == Joins(log)
      ensures lines == if off == 0 then CopyTail(copy) else []
    {
      open := Some(log.id);
      off := if |log.text| > MAX_READ then |log.text| - MAX_READ else 0;
      partial, skip, tail, mark := [], |log.text| > MAX_READ, [], None;
      lines := [];
      if off == 0 {
        lines := ReadCopyTail(copy);
      }
    }

    method Restart(log: File, copy: Option<File>) returns (lines: seq<Text>)
      requires |tail| <= TAIL_SIZE && |tail| <= off
      modifies this
      ensures if Detected(old(View()), log.text, copy)
              then View() == old(View()).(off := 0, carry := Carry([], false), tail := [])
                  && lines == Recovered(old(View()), copy)
              else View() == old(View()) && lines == []
    {
      lines := [];
      var same := Unaltered(log.text);
      var cleared := WasCleared(log.text, copy);
      if |log.text| < off || !same || cleared {
        lines := Recover(copy);
        off, partial, skip, tail := 0, [], false, [];
      }
    }

    /** One poll: gives out what was written since the one before; a line found when the
        file is opened is marked as old. */
    method TakePoll(log: Option<File>, copy: Option<File>) returns (lines: seq<Text>, backlog: bool, failed: bool)
      requires |tail| <= TAIL_SIZE && |tail| <= off
      modifies this
      ensures Polled(View(), lines, backlog, failed) == Poll(old(View()), log, copy)
      ensures |tail| <= TAIL_SIZE && |tail| <= off
    {
      if log.None? {
        return [], false, true;
      }
      backlog, failed := open != Some(log.value.id), false;
      if backlog {
        lines := Open(log.value, copy);
      } else {
        lines := Restart(log.value, copy);
      }
      var more := ReadMore(log.value, copy);
      assert [] + more == more;
      lines := lines + more;
    }
  }

  lemma GotLength(text: Text, from: nat, limit: nat)
    ensures Stop(text, from, limit) == from + |Got(text, from, limit)|
  {
  }

  /** Whole chunks were read so far, or all there is. */
  ghost predicate Underway(size: nat, from: nat, limit: nat, stop: nat, rounds: nat) {
    && from <= stop <= from + MAX_READ
    && (from < stop ==> stop <= size && stop <= limit)
    && (stop == from + CHUNK * rounds || stop == limit || (from < stop && stop == size))
  }

  lemma NothingRead(text: Text, from: nat, limit: nat, tail: Text)
    ensures Underway(|text|, from, limit, from, 0) && Piece(text, from, from) == []
    ensures |tail| <= TAIL_SIZE ==> TailOf(tail) == tail
  {
  }

  lemma Arrived(text: Text, from: nat, limit: nat, stop: nat, rounds: nat)
    requires Underway(|text|, from, limit, stop, rounds)
    requires stop >= from + MAX_READ || stop >= limit || stop >= |text|
    ensures stop == Stop(text, from, limit)
  {
  }

  lemma TailLength(t: Text)
    ensures |TailOf(t)| <= TAIL_SIZE && |TailOf(t)| <= |t|
  {
  }

  lemma UnderwayOn(size: nat, from: nat, limit: nat, stop: nat, rounds: nat, n: nat)
    requires Underway(size, from, limit, stop, rounds) && stop < limit && stop < size && stop < from + MAX_READ
    requires n == Min(Min(CHUNK, limit - stop), size - stop)
    ensures Underway(size, from, limit, stop + n, rounds + 1)
    ensures n < Min(CHUNK, limit - stop) ==> stop + n == size
  {
  }

  function Piece(text: Text, from: nat, stop: nat): Text {
    if from < stop <= |text| then text[from..stop] else []
  }

  lemma PieceOn(text: Text, from: nat, stop: nat, n: nat)
    requires from <= stop && stop + n <= |text|
    ensures Piece(text, from, stop) + text[stop..stop + n] == Piece(text, from, stop + n)
  {
  }

  lemma FeedNothing(c: Carry)
    ensures Feed(c, []) == Fed([], c)
  {
  }

  /** Reading in two pieces from any carry is reading at once. */
  lemma {:induction false} FeedFeed(c: Carry, a: Text, b: Text)
    ensures Feed(c, a + b) == Behind(Feed(c, a).lines, Feed(Feed(c, a).carry, b))
    decreases |a|
  {
    if Ends(a) {
      EndsFirst(a, b);
      FeedFeed(Carry([], false), After(a), b);
      BehindOn(FirstLine(c, a), Feed(Carry([], false), After(a)).lines, Feed(Feed(c, a).carry, b));
    } else if a == [] {
      assert a + b == b;
    } else {
      EndsSecond(a, b);
      if Ends(b) {
        assert c.partial + (a + Head(b)) == c.partial + a + Head(b);
      } else if b == [] {
        assert a + b == a;
      } else {
        assert c.partial + (a + b) == c.partial + a + b;
      }
    }
  }
}
