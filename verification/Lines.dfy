/** Cutting a byte stream into lines, in whatever chunks it is read. */
module LogLines {

  newtype Byte = b: int | 0 <= b < 256

  type Text = seq<Byte>

  const NEWLINE: Byte := 10
  const MAX_LINE := 4096
  const TAIL_SIZE := 64

  /** Where the first newline is, or the length when there is none. */
  function FirstNewline(t: Text): (i: nat)
    ensures i <= |t|
    ensures forall k :: 0 <= k < i ==> t[k] != NEWLINE
    ensures i < |t| ==> t[i] == NEWLINE
  {
    if t == [] || t[0] == NEWLINE then 0 else FirstNewline(t[1..]) + 1
  }

  /** Whether the text holds the end of a line. */
  predicate Ends(t: Text) {
    FirstNewline(t) < |t|
  }

  /** The first line of a text, and what follows its newline. */
  function Head(t: Text): Text
    requires Ends(t)
  {
    t[..FirstNewline(t)]
  }

  function After(t: Text): (r: Text)
    requires Ends(t)
    ensures |r| < |t|
  {
    t[FirstNewline(t) + 1..]
  }

  // ------------------------------------------------------------ specification

  /** The newline-terminated lines of a text, without the newlines. */
  function Complete(t: Text): seq<Text>
    decreases |t|
  {
    if Ends(t) then [Head(t)] + Complete(After(t)) else []
  }

  /** The text after the last newline. */
  function Rest(t: Text): Text
    decreases |t|
  {
    if Ends(t) then Rest(After(t)) else t
  }

  /** The lines that are not too long. */
  function Short(ls: seq<Text>): seq<Text> {
    if ls == [] then [] else (if |ls[0]| <= MAX_LINE then [ls[0]] else []) + Short(ls[1..])
  }

  /** The lines a stream holds: all of them, or, when it was joined in the middle
      of a line, those after that one. */
  function LinesOf(joined: bool, t: Text): seq<Text> {
    if !joined then Short(Complete(t)) else if Ends(t) then Short(Complete(After(t))) else []
  }

  /** What is kept of the line that is not complete. */
  datatype Carry = Carry(partial: Text, skip: bool)

  function CarryOf(rest: Text): Carry {
    if |rest| <= MAX_LINE then Carry(rest, false) else Carry([], true)
  }

  function CarryAfter(joined: bool, t: Text): Carry {
    if !joined then CarryOf(Rest(t)) else if Ends(t) then CarryOf(Rest(After(t))) else Carry([], true)
  }

  /** The last bytes of a text. */
  function TailOf(t: Text): Text {
    if |t| <= TAIL_SIZE then t else t[|t| - TAIL_SIZE..]
  }

  // ------------------------------------------------------------ the algorithm

  /** One line more of the chunk: what it gives out, and what is kept. */
  datatype Fed = Fed(lines: seq<Text>, carry: Carry)

  function Feed(c: Carry, data: Text): Fed
    decreases |data|
  {
    if Ends(data) then
      var rest := Feed(Carry([], false), After(data));
      Fed(FirstLine(c, data) + rest.lines, rest.carry)
    else
      Fed([], if data == [] then c
              else if c.skip || |c.partial| + |data| > MAX_LINE then Carry([], true)
              else Carry(c.partial + data, false))
  }

  function FirstLine(c: Carry, data: Text): seq<Text>
    requires Ends(data)
  {
    if !c.skip && |c.partial| + |Head(data)| <= MAX_LINE then [c.partial + Head(data)] else []
  }

  // ------------------------------------------------------------------- proofs

  lemma {:induction false} FirstNewlineOf(a: Text, b: Text)
    ensures FirstNewline(a + b) == if Ends(a) then FirstNewline(a) else |a| + FirstNewline(b)
  {
    if a == [] {
      assert a + b == b;
    } else {
      assert (a + b)[1..] == a[1..] + b;
      FirstNewlineOf(a[1..], b);
    }
  }

  lemma EndsFirst(a: Text, b: Text)
    requires Ends(a)
    ensures Ends(a + b) && Head(a + b) == Head(a) && After(a + b) == After(a) + b
  {
    FirstNewlineOf(a, b);
  }

  lemma EndsSecond(a: Text, b: Text)
    requires !Ends(a)
    ensures Ends(a + b) <==> Ends(b)
    ensures Ends(b) ==> Head(a + b) == a + Head(b) && After(a + b) == After(b)
  {
    FirstNewlineOf(a, b);
  }

  lemma {:induction false} ShortOf(a: seq<Text>, b: seq<Text>)
    ensures Short(a + b) == Short(a) + Short(b)
  {
    if a == [] {
      assert a + b == b;
    } else {
      assert (a + b)[1..] == a[1..] + b;
      ShortOf(a[1..], b);
    }
  }

  /** What comes after a text continues its last, incomplete line. */
  lemma {:induction false} CompleteOf(a: Text, b: Text)
    ensures Complete(a + b) == Complete(a) + Complete(Rest(a) + b)
    ensures Rest(a + b) == Rest(Rest(a) + b)
    ensures !Ends(Rest(a))
    decreases |a|
  {
    if Ends(a) {
      EndsFirst(a, b);
      CompleteOf(After(a), b);
    }
  }

  /** Feeding a chunk after an incomplete line gives the lines of both together. */
  lemma FeedRest(rest: Text, data: Text)
    requires !Ends(rest)
    ensures Feed(CarryOf(rest), data) == Fed(Short(Complete(rest + data)), CarryOf(Rest(rest + data)))
    decreases |data|, 1
  {
    EndsSecond(rest, data);
    if Ends(data) {
      FeedFresh(After(data));
      ShortOf([rest + Head(data)], Complete(After(data)));
      assert Short([rest + Head(data)]) == FirstLine(CarryOf(rest), data);
    } else if data == [] {
      assert rest + data == rest;
    }
  }

  lemma FeedFresh(data: Text)
    ensures Feed(Carry([], false), data) == Fed(Short(Complete(data)), CarryOf(Rest(data)))
    decreases |data|, 2
  {
    FeedRest([], data);
    assert [] + data == data;
  }

  lemma FeedJoined(data: Text)
    ensures Feed(Carry([], true), data) == Fed(LinesOf(true, data), CarryAfter(true, data))
  {
    if Ends(data) {
      FeedFresh(After(data));
    }
  }

  /** Whatever was read before, one chunk more gives exactly the lines it
      completes, so the chunks a stream is read in do not matter. */
  lemma FeedOn(joined: bool, t: Text, data: Text)
    ensures LinesOf(joined, t + data) == LinesOf(joined, t) + Feed(CarryAfter(joined, t), data).lines
    ensures CarryAfter(joined, t + data) == Feed(CarryAfter(joined, t), data).carry
  {
    if !joined {
      FeedAfter(t, data);
    } else if Ends(t) {
      EndsFirst(t, data);
      FeedAfter(After(t), data);
    } else {
      EndsSecond(t, data);
      FeedJoined(data);
    }
  }

  lemma FeedAfter(t: Text, data: Text)
    ensures Short(Complete(t + data)) == Short(Complete(t)) + Feed(CarryOf(Rest(t)), data).lines
    ensures CarryOf(Rest(t + data)) == Feed(CarryOf(Rest(t)), data).carry
  {
    CompleteOf(t, data);
    FeedRest(Rest(t), data);
    ShortOf(Complete(t), Complete(Rest(t) + data));
  }

  function Joined(chunks: seq<Text>): Text {
    if chunks == [] then [] else Joined(chunks[..|chunks| - 1]) + chunks[|chunks| - 1]
  }

  /** All the lines given out while reading chunk after chunk, and what is left. */
  function FeedAll(c: Carry, chunks: seq<Text>): Fed {
    if chunks == [] then Fed([], c)
    else
      var before := FeedAll(c, chunks[..|chunks| - 1]);
      var last := Feed(before.carry, chunks[|chunks| - 1]);
      Fed(before.lines + last.lines, last.carry)
  }

  /** For every way of cutting a stream into chunks: exactly its complete lines of
      at most MAX_LINE bytes, in order, once. */
  lemma {:induction false} ChunksDoNotMatter(chunks: seq<Text>)
    ensures FeedAll(Carry([], false), chunks) == Fed(Short(Complete(Joined(chunks))), CarryOf(Rest(Joined(chunks))))
  {
    if chunks != [] {
      ChunksDoNotMatter(chunks[..|chunks| - 1]);
      FeedOn(false, Joined(chunks[..|chunks| - 1]), chunks[|chunks| - 1]);
    }
  }

  /** At the end of a line nothing is kept. */
  lemma {:induction false} LineEnd(joined: bool, t: Text)
    requires t == [] ==> !joined
    requires t != [] ==> t[|t| - 1] == NEWLINE
    ensures CarryAfter(joined, t) == Carry([], false)
    decreases |t|
  {
    if t != [] {
      assert Ends(t);
      LineEnd(false, After(t));
    }
  }

  /** The tail of a text read in two pieces. */
  lemma TailOn(t: Text, data: Text)
    ensures TailOf(TailOf(t) + data) == TailOf(t + data)
    ensures |data| >= TAIL_SIZE ==> data[|data| - TAIL_SIZE..] == TailOf(t + data)
  {
  }

  /** Lines given out before the others. */
  function Behind(lines: seq<Text>, fed: Fed): Fed {
    Fed(lines + fed.lines, fed.carry)
  }

  lemma BehindOn(lines: seq<Text>, first: seq<Text>, rest: Fed)
    ensures Behind(lines, Fed(first + rest.lines, rest.carry)) == Behind(lines + first, rest)
    ensures lines + [] == lines
  {
    assert lines + (first + rest.lines) == lines + first + rest.lines;
  }
}
