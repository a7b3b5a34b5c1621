/** Over any interleaving of appends, clears and polls, the lines passed on are
    those of the whole written stream, once and in order. */
module LogFollowerRuns {
  import opened Common
  import opened LogLines
  import opened LogFollower

  const LOG := 1
  const COPY := 2

  /** What a truncation since the last poll did: there was none, or what was not read
      is in the copy, or all had been read. */
  datatype Cleared = Untouched | Behind | AllRead

  /** The first size bytes of the log are at the end of the copy; whether a poll came
      since they were put there. */
  datatype Copied = Copied(size: nat, polled: bool)

  /** The two files, the follower, what it passed on, and the whole stream written
      from where it joined. A clear is two steps: the log is copied, then truncated. */
  datatype World = World(log: Text, copy: Text, pos: Position, out: seq<Text>, written: Text,
                         cleared: Cleared, copied: Option<Copied>, joined: bool)

  datatype Event = Append(data: Text) | Copy | Truncate | Poll

  function LogFile(w: World): Option<File> {
    Some(File(LOG, w.log))
  }

  function CopyFile(w: World): Option<File> {
    Some(File(COPY, w.copy))
  }

  /** The first poll: from the start of the log, or, when it is long, from a point
      that may be inside a line. */
  function Opened(log: Text, copy: Text): World {
    var p := LogFollower.Poll(CLOSED, Some(File(LOG, log)), Some(File(COPY, copy)));
    var from := Joins(File(LOG, log)).off;
    World(log, copy, p.position, p.lines, log[from..], Untouched, None, from > 0)
  }

  /** What was passed on of the copy when the log was opened. */
  function Earlier(log: Text, copy: Text): seq<Text> {
    if Joins(File(LOG, log)).off == 0 then CopyTail(Some(File(COPY, copy))) else []
  }

  function Next(w: World, ev: Event): World {
    match ev
    case Append(data) => w.(log := w.log + data, written := w.written + data)
    case Copy => w.(copy := w.copy + w.log, copied := Some(Copied(|w.log|, false)))
    case Truncate =>
      w.(log := [], copied := None,
         cleared := if w.copied.Some? && w.copied.value.polled then AllRead else Behind)
    case Poll =>
      var p := LogFollower.Poll(w.pos, LogFile(w), CopyFile(w));
      w.(pos := p.position, out := w.out + p.lines, cleared := Untouched,
         copied := if w.copied.Some? then Some(w.copied.value.(polled := true)) else None)
  }

  predicate AtLineEnd(w: World) {
    if w.written == [] then !w.joined else w.written[|w.written| - 1] == NEWLINE
  }

  /** Where the unread text begins in the copy, once the log was cleared. */
  function From(w: World): nat {
    (if w.pos.mark.Some? then w.pos.mark.value.size else 0) + w.pos.off
  }

  /** The clear took nothing: all of what was read before is in the copy the log was
      opened behind, and the log that was cleared was empty. */
  predicate Idle(w: World) {
    w.pos.off == 0 && |w.copy| == From(w)
  }

  /** A truncation comes between two lines and takes nothing that was neither copied nor
      read: nothing came since the copy and no poll, or polls read it all. After one, a
      poll comes before the next truncation unless what was not read is in the copy; it
      can tell that it happened, comes before the log is copied again, and finds at most
      one read's worth of text in the copy, or there is nothing to find. */
  predicate Legal(w: World, ev: Event) {
    match ev
    case Append(data) => |w.log| + |data| <= MAX_OFFSET
    case Copy => w.copied.None? && w.cleared != AllRead
    case Truncate =>
      && AtLineEnd(w) && w.copied.Some?
      && (if w.copied.value.polled then w.pos.off == |w.log| else w.copied.value.size == |w.log|)
    case Poll =>
      || w.cleared == Untouched
      || (w.copied.None?
          && (Idle(w) || (Detected(w.pos, w.log, CopyFile(w))
              && (w.cleared == Behind ==> |w.copy| <= From(w) + MAX_READ))))
  }

  function After(w: World, evs: seq<Event>): World {
    if evs == [] then w else Next(After(w, evs[..|evs| - 1]), evs[|evs| - 1])
  }

  predicate LegalRun(w: World, evs: seq<Event>) {
    evs == [] || (LegalRun(w, evs[..|evs| - 1]) && Legal(After(w, evs[..|evs| - 1]), evs[|evs| - 1]))
  }

  /** How much of the log is at the end of the copy. */
  function Size(w: World): nat {
    if w.copied.Some? then w.copied.value.size else 0
  }

  /** How much of the stream is not read yet. */
  function Unread(w: World): int {
    match w.cleared
    case Untouched => |w.log| - w.pos.off
    case Behind => |w.copy| - Size(w) - From(w) + |w.log|
    case AllRead => |w.log|
  }

  // --------------------------------------------------------------- invariant

  predicate Follows(w: World, consumed: Text, earlier: seq<Text>) {
    && w.out == earlier + LinesOf(w.joined, consumed)
    && w.pos.carry == CarryAfter(w.joined, consumed)
    && w.pos.open == Some(LOG) && w.pos.mark.Some? && w.pos.mark.value.id == COPY
    && |w.pos.tail| <= TAIL_SIZE && |w.pos.tail| <= w.pos.off && |w.log| <= MAX_OFFSET
  }

  /** The text up to a point ends with the tail. */
  predicate TailAt(text: Text, at: nat, tail: Text) {
    |tail| <= at <= |text| && text[at - |tail|..at] == tail
  }

  /** What was copied of the log is there. */
  predicate CopyHolds(w: World) {
    Size(w) <= |w.log| && Size(w) <= |w.copy| && w.copy[|w.copy| - Size(w)..] == w.log[..Size(w)]
  }

  /** Not cleared since the last poll: the unread text is the end of the log. */
  predicate InLog(w: World, consumed: Text) {
    && TailAt(w.log, w.pos.off, w.pos.tail) && CopyHolds(w)
    && w.written == consumed + w.log[w.pos.off..]
    && w.pos.mark == Some(Mark(COPY, if w.copied.Some? && !w.copied.value.polled then |w.copy| - Size(w) else |w.copy|))
    && (w.copied.Some? && !w.copied.value.polled ==> w.pos.off <= Size(w))
  }

  /** The copy without what is still in the log. */
  function Earliest(w: World): Text
    requires CopyHolds(w)
  {
    w.copy[..|w.copy| - Size(w)]
  }

  /** Cleared: the unread text is the end of the copy and all of the log. */
  predicate InCopy(w: World, consumed: Text) {
    && CopyHolds(w) && (w.copied.Some? ==> !w.copied.value.polled)
    && TailAt(Earliest(w), From(w), w.pos.tail)
    && w.written == consumed + Earliest(w)[From(w)..] + w.log
    && CarryAfter(w.joined, consumed + Earliest(w)[From(w)..]) == Carry([], false)
  }

  /** Cleared after all was read: the unread text is the log. */
  predicate AllGone(w: World, consumed: Text) {
    && w.copied.None? && w.pos.mark == Some(Mark(COPY, |w.copy|))
    && w.written == consumed + w.log && CarryAfter(w.joined, consumed) == Carry([], false)
  }

  predicate Inv(w: World, consumed: Text, earlier: seq<Text>) {
    && Follows(w, consumed, earlier)
    && match w.cleared
       case Untouched => InLog(w, consumed)
       case Behind => InCopy(w, consumed)
       case AllRead => AllGone(w, consumed)
  }

  lemma TailGrows(text: Text, at: nat, tail: Text, more: Text)
    requires TailAt(text, at, tail)
    ensures TailAt(text + more, at, tail)
    ensures (text + more)[at..] == text[at..] + more
  {
    assert (text + more)[at - |tail|..at] == text[at - |tail|..at];
  }

  lemma TailBehind(before: Text, text: Text, at: nat, tail: Text)
    requires TailAt(text, at, tail)
    ensures TailAt(before + text, |before| + at, tail)
    ensures (before + text)[|before| + at..] == text[at..]
  {
    assert (before + text)[|before| + at - |tail|..|before| + at] == text[at - |tail|..at];
  }

  /** The tail of what was read last, after reading on. */
  lemma TailReads(text: Text, at: nat, tail: Text, n: nat)
    requires TailAt(text, at, tail) && at + n <= |text|
    ensures TailAt(text, at + n, TailOf(tail + text[at..at + n]))
  {
    assert tail + text[at..at + n] == text[at - |tail|..at + n];
  }

  lemma Assoc<T>(a: seq<T>, b: seq<T>, c: seq<T>)
    ensures a + (b + c) == a + b + c
  {
  }

  // --------------------------------------------------------------- each step

  /** What is there after a poll. */
  function Polled(w: World, pos: Position, lines: seq<Text>): World {
    w.(pos := pos, out := w.out + lines, cleared := Untouched,
       copied := if w.copied.Some? then Some(w.copied.value.(polled := true)) else None)
  }

  /** Reading on in the log, from a position that follows what was consumed. */
  lemma ReadOnInv(w: World, at: Position, lines: seq<Text>, consumed: Text, earlier: seq<Text>) returns (now: Text)
    requires w.out + lines == earlier + LinesOf(w.joined, consumed) && at.carry == CarryAfter(w.joined, consumed)
    requires |at.tail| <= TAIL_SIZE && TailAt(w.log, at.off, at.tail) && |w.log| <= MAX_OFFSET && CopyHolds(w)
    requires w.written == consumed + w.log[at.off..]
    ensures var (pos, more) := ReadOn(at, File(LOG, w.log), CopyFile(w));
            Inv(Polled(w, pos, lines + more), now, earlier)
    ensures |w.log| - at.off <= MAX_READ ==> now == w.written
  {
    hide LinesOf, CarryAfter, Feed, Got, Stop, Piece, TailOf, TailAt, CopyHolds;
    var data := Got(w.log, at.off, MAX_OFFSET);
    var more := Feed(at.carry, data).lines;
    now := consumed + data;
    ReadsLog(w.written, consumed, w.log, at.off, at.tail);
    ReadsLines(w.out, lines, w.joined, consumed, data, earlier);
    var (pos, read) := ReadOn(at, File(LOG, w.log), CopyFile(w));
    assert read == more;
    PolledHolds(w, pos, lines + more);
  }

  lemma PolledHolds(w: World, pos: Position, lines: seq<Text>)
    requires CopyHolds(w)
    ensures CopyHolds(Polled(w, pos, lines))
  {
    assert Size(Polled(w, pos, lines)) == Size(w);
  }

  lemma ReadsLines(out: seq<Text>, lines: seq<Text>, joined: bool, consumed: Text, data: Text, earlier: seq<Text>)
    requires out + lines == earlier + LinesOf(joined, consumed)
    ensures var fed := Feed(CarryAfter(joined, consumed), data);
            && out + (lines + fed.lines) == earlier + LinesOf(joined, consumed + data)
            && fed.carry == CarryAfter(joined, consumed + data)
  {
    hide LinesOf, CarryAfter, Feed;
    FeedOn(joined, consumed, data);
    var more := Feed(CarryAfter(joined, consumed), data).lines;
    Assoc(out, lines, more);
    Assoc(earlier, LinesOf(joined, consumed), more);
  }

  lemma GotIs(log: Text, off: nat)
    requires off <= |log| <= MAX_OFFSET
    ensures off + |Got(log, off, MAX_OFFSET)| <= |log|
    ensures Got(log, off, MAX_OFFSET) == log[off..off + |Got(log, off, MAX_OFFSET)|]
    ensures |log| - off <= MAX_READ ==> off + |Got(log, off, MAX_OFFSET)| == |log|
  {
  }

  lemma ReadsLog(written: Text, consumed: Text, log: Text, off: nat, tail: Text)
    requires TailAt(log, off, tail) && |log| <= MAX_OFFSET && written == consumed + log[off..]
    ensures var data := Got(log, off, MAX_OFFSET);
            && off + |data| <= |log| && written == consumed + data + log[off + |data|..]
            && TailAt(log, off + |data|, TailOf(tail + data))
            && |TailOf(tail + data)| <= TAIL_SIZE && |TailOf(tail + data)| <= off + |data|
            && (|log| - off <= MAX_READ ==> written == consumed + data)
  {
    GotIs(log, off);
    hide Got, TailOf, TailAt;
    ReadsCut(written, consumed, log, off, tail, Got(log, off, MAX_OFFSET));
  }

  lemma ReadsCut(written: Text, consumed: Text, log: Text, off: nat, tail: Text, data: Text)
    requires TailAt(log, off, tail) && written == consumed + log[off..]
    requires off + |data| <= |log| && data == log[off..off + |data|]
    ensures written == consumed + data + log[off + |data|..]
    ensures off + |data| == |log| ==> written == consumed + data
    ensures TailAt(log, off + |data|, TailOf(tail + data))
    ensures |TailOf(tail + data)| <= TAIL_SIZE && |TailOf(tail + data)| <= off + |data|
  {
    hide TailOf, TailAt;
    var n := |data|;
    CutAt(written, consumed, log, off, n);
    TailPart(log, off, tail, n);
  }

  lemma CutAt(written: Text, consumed: Text, log: Text, off: nat, n: nat)
    requires off + n <= |log| && written == consumed + log[off..]
    ensures written == consumed + log[off..off + n] + log[off + n..]
    ensures off + n == |log| ==> written == consumed + log[off..off + n]
  {
    assert log[off..] == log[off..off + n] + log[off + n..];
    Assoc(consumed, log[off..off + n], log[off + n..]);
  }

  lemma TailPart(log: Text, off: nat, tail: Text, n: nat)
    requires TailAt(log, off, tail) && off + n <= |log|
    ensures var next := TailOf(tail + log[off..off + n]);
            TailAt(log, off + n, next) && |next| <= TAIL_SIZE && |next| <= off + n
  {
    TailReads(log, off, tail, n);
    TailLength(tail + log[off..off + n]);
    hide TailOf;
  }

  lemma OpensWell(log: Text, copy: Text) returns (now: Text)
    requires |log| <= MAX_OFFSET
    ensures Inv(Opened(log, copy), now, Earlier(log, copy)) && now == Opened(log, copy).written
  {
    var at := Joins(File(LOG, log));
    var before := Earlier(log, copy);
    var w := World(log, copy, at, [], log[at.off..], Untouched, None, at.off > 0);
    assert w.out + before == before + LinesOf(w.joined, []);
    assert [] + log[at.off..] == log[at.off..];
    now := ReadOnInv(w, at, before, [], before);
    var (pos, more) := ReadOn(at, File(LOG, log), CopyFile(w));
    assert w.out + (before + more) == before + more;
    assert Opened(log, copy) == w.(pos := pos, out := before + more);
  }

  lemma HoldsOn(w: World, data: Text)
    requires CopyHolds(w)
    ensures CopyHolds(Next(w, Append(data))) && Earliest(Next(w, Append(data))) == Earliest(w)
  {
    assert (w.log + data)[..Size(w)] == w.log[..Size(w)];
  }

  lemma AppendInv(w: World, data: Text, consumed: Text, earlier: seq<Text>)
    requires Inv(w, consumed, earlier) && Legal(w, Append(data))
    ensures Inv(Next(w, Append(data)), consumed, earlier)
  {
    hide LinesOf, CarryAfter;
    match w.cleared
    case Untouched =>
      HoldsOn(w, data);
      TailGrows(w.log, w.pos.off, w.pos.tail, data);
      Assoc(consumed, w.log[w.pos.off..], data);
    case Behind =>
      HoldsOn(w, data);
      Assoc(consumed + Earliest(w)[From(w)..], w.log, data);
    case AllRead => Assoc(consumed, w.log, data);
  }

  lemma EndsOf<T>(copy: seq<T>, log: seq<T>)
    ensures (copy + log)[|copy|..] == log && (copy + log)[..|copy|] == copy && log[..|log|] == log
              && copy[..|copy|] == copy
  {
  }

  /** The copy, once the whole log was added to it. */
  lemma CopiedHolds(w: World)
    requires w.copied.None?
    ensures CopyHolds(w) && Earliest(w) == w.copy && CopyHolds(Next(w, Copy)) && Earliest(Next(w, Copy)) == w.copy
  {
    EndsOf(w.copy, w.log);
    assert w.copy[|w.copy|..] == w.log[..0];
  }

  /** The log is copied: nothing changes for who has not looked. */
  lemma CopyInv(w: World, consumed: Text, earlier: seq<Text>)
    requires Inv(w, consumed, earlier) && Legal(w, Copy)
    ensures Inv(Next(w, Copy), consumed, earlier)
  {
    hide LinesOf, CarryAfter;
    CopiedHolds(w);
    assert |Next(w, Copy).copy| == |w.copy| + |w.log|;
    hide CopyHolds, Earliest;
  }

  lemma TruncateFirst(w: World, consumed: Text)
    requires w.cleared == Untouched && InLog(w, consumed) && CarryAfter(w.joined, w.written) == Carry([], false)
    requires w.copied.Some? && !w.copied.value.polled && Size(w) == |w.log|
    ensures InCopy(Next(w, Truncate), consumed)
  {
    hide CarryAfter;
    var next, before := Next(w, Truncate), Earliest(w);
    WholeLog(w);
    TailBehind(before, w.log, w.pos.off, w.pos.tail);
    hide CopyHolds, Earliest, TailAt;
    assert w.copy[From(next)..] == w.log[w.pos.off..];
    assert w.written + [] == w.written;
  }

  /** When all of the log is at the end of the copy, nothing is when it is truncated. */
  lemma WholeLog(w: World)
    requires CopyHolds(w) && Size(w) == |w.log|
    ensures w.copy == Earliest(w) + w.log && |Earliest(w)| == |w.copy| - |w.log|
    ensures CopyHolds(Next(w, Truncate)) && Earliest(Next(w, Truncate)) == w.copy
  {
    EndsOf(w.copy, w.log);
    assert w.copy == w.copy[..|w.copy| - |w.log|] + w.copy[|w.copy| - |w.log|..];
    assert w.copy[|w.copy|..] == [];
  }

  lemma TruncateAgain(w: World, consumed: Text)
    requires w.cleared == Behind && InCopy(w, consumed) && CarryAfter(w.joined, w.written) == Carry([], false)
    requires w.copied.Some? && Size(w) == |w.log|
    ensures InCopy(Next(w, Truncate), consumed)
  {
    hide CarryAfter;
    var next, before := Next(w, Truncate), Earliest(w);
    WholeLog(w);
    TailGrows(before, From(w), w.pos.tail, w.log);
    Assoc(consumed, before[From(w)..], w.log);
    hide CopyHolds, Earliest, TailAt;
    assert w.written + [] == w.written;
  }

  lemma TruncateRead(w: World, consumed: Text)
    requires w.cleared == Untouched && InLog(w, consumed) && CarryAfter(w.joined, w.written) == Carry([], false)
    requires w.copied.Some? && w.copied.value.polled && w.pos.off == |w.log|
    ensures AllGone(Next(w, Truncate), consumed)
  {
    hide CarryAfter;
    assert w.log[w.pos.off..] == [] && consumed + [] == consumed;
  }

  lemma TruncateInv(w: World, consumed: Text, earlier: seq<Text>)
    requires Inv(w, consumed, earlier) && Legal(w, Truncate)
    ensures Inv(Next(w, Truncate), consumed, earlier)
  {
    LineEnd(w.joined, w.written);
    TruncateOff(w, consumed, earlier);
    hide LinesOf, CarryAfter, InCopy, InLog, AllGone;
    if w.copied.value.polled {
      PolledOnly(w, consumed, earlier);
      TruncateRead(w, consumed);
    } else if w.cleared == Behind {
      TruncateAgain(w, consumed);
    } else {
      TruncateFirst(w, consumed);
    }
  }

  lemma TruncateOff(w: World, consumed: Text, earlier: seq<Text>)
    requires Inv(w, consumed, earlier) && w.copied.Some?
    ensures w.cleared != AllRead
  {
  }

  lemma PolledOnly(w: World, consumed: Text, earlier: seq<Text>)
    requires Inv(w, consumed, earlier) && w.copied.Some? && w.copied.value.polled
    ensures w.cleared == Untouched
  {
  }

  /** A poll with no truncation behind it sees none, whether or not the log was copied. */
  lemma SeesNoClear(w: World, consumed: Text, earlier: seq<Text>)
    requires Inv(w, consumed, earlier) && w.cleared == Untouched
    ensures !Detected(w.pos, w.log, CopyFile(w))
  {
    if w.copied.Some? && !w.copied.value.polled && w.log != [] {
      var size, at := Size(w), |w.copy| - Size(w);
      var n := Min(Min(|w.log|, size), TAIL_SIZE);
      assert w.copy[at..][..n] == w.log[..size][..n];
      assert w.copy[at..at + n] == w.copy[at..][..n] && w.log[..n] == w.log[..size][..n];
    }
  }

  /** What a detected clear took is read back from the copy. */
  lemma ReadsBack(w: World, consumed: Text, earlier: seq<Text>)
    requires Inv(w, consumed, earlier) && w.cleared == Behind && w.copied.None? && |w.copy| <= From(w) + MAX_READ
    ensures w.out + Recovered(w.pos, CopyFile(w)) == earlier + LinesOf(w.joined, consumed + w.copy[From(w)..])
  {
    hide LinesOf, CarryAfter, Feed;
    var data := w.copy[From(w)..];
    assert Earliest(w) == w.copy;
    assert Got(w.copy, From(w), |w.copy|) == data;
    FeedOn(w.joined, consumed, data);
    Assoc(earlier, LinesOf(w.joined, consumed), Recovered(w.pos, CopyFile(w)));
  }

  /** A clear that took nothing is as none. */
  lemma IdleInv(w: World, consumed: Text, earlier: seq<Text>)
    requires Inv(w, consumed, earlier) && w.cleared != Untouched && w.copied.None? && Idle(w)
    ensures Inv(w.(cleared := Untouched), consumed, earlier)
    ensures Next(w.(cleared := Untouched), Poll) == Next(w, Poll)
  {
    hide LinesOf, CarryAfter;
    assert w.cleared == Behind ==> Earliest(w) == w.copy && w.copy[From(w)..] == [];
    assert consumed + [] == consumed && w.log[0..] == w.log && w.copy[|w.copy|..] == w.log[..0];
  }

  lemma PollInv(w: World, consumed: Text, earlier: seq<Text>) returns (now: Text)
    requires Inv(w, consumed, earlier) && Legal(w, Poll)
    ensures Inv(Next(w, Poll), now, earlier)
    ensures |w.log| - (if w.cleared == Untouched then w.pos.off else 0) <= MAX_READ ==> now == w.written
  {
    if w.cleared == Untouched {
      now := UnclearedPollInv(w, consumed, earlier);
    } else if Idle(w) {
      IdleInv(w, consumed, earlier);
      now := UnclearedPollInv(w.(cleared := Untouched), consumed, earlier);
    } else if w.cleared == Behind {
      now := BehindPollInv(w, consumed, earlier);
    } else {
      now := AllReadPollInv(w, consumed, earlier);
    }
  }

  /** A poll that finds the log truncated reads on from its start. */
  lemma RestartInv(w: World, before: seq<Text>, consumed: Text, earlier: seq<Text>) returns (now: Text)
    requires w.out + before == earlier + LinesOf(w.joined, consumed)
               && CarryAfter(w.joined, consumed) == Carry([], false)
    requires w.written == consumed + w.log && |w.log| <= MAX_OFFSET && w.copied.None?
               && before == Recovered(w.pos, CopyFile(w))
    requires w.pos.open == Some(LOG) && Detected(w.pos, w.log, CopyFile(w))
    ensures Inv(Next(w, Poll), now, earlier)
    ensures |w.log| <= MAX_READ ==> now == w.written
  {
    hide LinesOf, CarryAfter, Feed, Detected, Recovered;
    var at := w.pos.(off := 0, carry := Carry([], false), tail := []);
    assert w.log[0..] == w.log && w.copy[|w.copy|..] == w.log[..0];
    now := ReadOnInv(w, at, before, consumed, earlier);
    var (pos, more) := ReadOn(at, File(LOG, w.log), CopyFile(w));
    assert Next(w, Poll) == Polled(w, pos, before + more);
  }

  lemma BehindPollInv(w: World, consumed: Text, earlier: seq<Text>) returns (now: Text)
    requires Inv(w, consumed, earlier) && w.cleared == Behind && w.copied.None?
    requires Detected(w.pos, w.log, CopyFile(w)) && |w.copy| <= From(w) + MAX_READ
    ensures Inv(Next(w, Poll), now, earlier)
    ensures |w.log| <= MAX_READ ==> now == w.written
  {
    hide LinesOf, CarryAfter, Feed, Detected;
    ReadsBack(w, consumed, earlier);
    assert Earliest(w) == w.copy;
    now := RestartInv(w, Recovered(w.pos, CopyFile(w)), consumed + w.copy[From(w)..], earlier);
  }

  lemma AllReadPollInv(w: World, consumed: Text, earlier: seq<Text>) returns (now: Text)
    requires Inv(w, consumed, earlier) && w.cleared == AllRead && !Idle(w) && Detected(w.pos, w.log, CopyFile(w))
    ensures Inv(Next(w, Poll), now, earlier)
    ensures |w.log| <= MAX_READ ==> now == w.written
  {
    hide LinesOf, CarryAfter, Feed, Detected;
    assert Recovered(w.pos, CopyFile(w)) == [];
    assert w.out + [] == w.out;
    now := RestartInv(w, [], consumed, earlier);
  }

  lemma UnclearedPollInv(w: World, consumed: Text, earlier: seq<Text>) returns (now: Text)
    requires Inv(w, consumed, earlier) && w.cleared == Untouched
    ensures Inv(Next(w, Poll), now, earlier)
    ensures |w.log| - w.pos.off <= MAX_READ ==> now == w.written
  {
    hide LinesOf, CarryAfter, Feed;
    SeesNoClear(w, consumed, earlier);
    assert w.out + [] == w.out;
    now := ReadOnInv(w, w.pos, [], consumed, earlier);
    var (pos, more) := ReadOn(w.pos, File(LOG, w.log), CopyFile(w));
    assert [] + more == more;
  }

  lemma {:induction false} RunInv(log: Text, copy: Text, evs: seq<Event>) returns (consumed: Text)
    requires |log| <= MAX_OFFSET && LegalRun(Opened(log, copy), evs)
    ensures Inv(After(Opened(log, copy), evs), consumed, Earlier(log, copy))
  {
    if evs == [] {
      consumed := OpensWell(log, copy);
    } else {
      var n := |evs| - 1;
      var before := RunInv(log, copy, evs[..n]);
      var w := After(Opened(log, copy), evs[..n]);
      consumed := before;
      match evs[n] {
        case Append(data) => AppendInv(w, data, before, Earlier(log, copy));
        case Copy => CopyInv(w, before, Earlier(log, copy));
        case Truncate => TruncateInv(w, before, Earlier(log, copy));
        case Poll => consumed := PollInv(w, before, Earlier(log, copy));
      }
    }
  }

  /** At every moment of every run: after the end of the copy it was opened behind,
      the lines passed on are exactly those of a beginning of the written stream,
      the part read so far. */
  lemma PassesTheStream(log: Text, copy: Text, evs: seq<Event>)
    requires |log| <= MAX_OFFSET && LegalRun(Opened(log, copy), evs)
    ensures var w := After(Opened(log, copy), evs);
            && 0 <= Unread(w) <= |w.written|
            && w.out == Earlier(log, copy) + LinesOf(w.joined, w.written[..|w.written| - Unread(w)])
  {
    hide LinesOf, CarryAfter;
    var w := After(Opened(log, copy), evs);
    var consumed := RunInv(log, copy, evs);
    var rest := match w.cleared
      case Untouched => w.log[w.pos.off..]
      case Behind => Earliest(w)[From(w)..] + w.log
      case AllRead => w.log;
    assert w.written == consumed + rest by {
      if w.cleared == Behind {
        Assoc(consumed, Earliest(w)[From(w)..], w.log);
      }
    }
    assert |rest| == Unread(w);
    assert consumed == w.written[..|w.written| - Unread(w)];
  }

  /** And after a poll that had at most one read's worth of the log to read:
      exactly the complete lines of everything written, each once and in order. */
  lemma PollCatchesUp(log: Text, copy: Text, evs: seq<Event>)
    requires |log| <= MAX_OFFSET && LegalRun(Opened(log, copy), evs + [Poll])
    requires var w := After(Opened(log, copy), evs);
               |w.log| - (if w.cleared == Untouched then w.pos.off else 0) <= MAX_READ
    ensures var w := After(Opened(log, copy), evs + [Poll]);
            w.out == Earlier(log, copy) + LinesOf(w.joined, w.written)
  {
    var all := evs + [Poll];
    assert all[..|all| - 1] == evs;
    var consumed := RunInv(log, copy, evs);
    var now := PollInv(After(Opened(log, copy), evs), consumed, Earlier(log, copy));
  }

  // ----------------------------------------------- a poll between two clears' steps

  /** A poll that finds a truncation comes before the log is copied again: otherwise what
      was copied again is passed on from the copy and then from the log. */
  lemma CopiedAgainTwice(w: World, consumed: Text, earlier: seq<Text>)
    requires Inv(w, consumed, earlier) && w.cleared == Behind && w.copied.Some? && Size(w) == |w.log|
    requires Detected(w.pos, w.log, CopyFile(w)) && |w.copy| <= From(w) + MAX_READ && |w.log| <= MAX_READ
    ensures Next(w, Poll).out == earlier + LinesOf(w.joined, w.written) + LinesOf(false, w.log)
  {
    hide LinesOf, CarryAfter, Feed, Detected;
    var data, before := w.copy[From(w)..], Earliest(w);
    assert w.log[..|w.log|] == w.log && w.copy == before + w.log;
    TailGrows(before, From(w), w.pos.tail, w.log);
    Assoc(consumed, before[From(w)..], w.log);
    assert consumed + data == w.written;
    assert Got(w.copy, From(w), |w.copy|) == data && Recoverable(w.pos, CopyFile(w));
    FeedOn(w.joined, consumed, data);
    var back := Recovered(w.pos, CopyFile(w));
    Assoc(earlier, LinesOf(w.joined, consumed), back);
    assert w.out + back == earlier + LinesOf(w.joined, w.written);
    FromStart(w.log);
    assert Got(w.log, 0, MAX_OFFSET) == w.log[0..] == w.log;
    Assoc(w.out, back, Feed(Carry([], false), w.log).lines);
  }

  lemma FromStart(log: Text)
    ensures Feed(Carry([], false), log).lines == LinesOf(false, log)
  {
    FeedOn(false, [], log);
    assert [] + log == log;
  }
}
