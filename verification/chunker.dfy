/**
 * The log chunking loop of `get_container_logs`, lifted into a pure left fold
 * over the formatted lines. Lines are packed greedily into chunks whose
 * tracked size stays within a 1900-character budget; each chunk is later
 * rendered as a fenced block opened by its "Part N" header.
 *
 * Two behaviours of the source are kept as written: the size counter reserves
 * 6 characters for the fences although the fences add 8, so a rendered chunk
 * is 2 characters longer than its tracked size; and when the very first line
 * overflows a fresh chunk, Part 1 is sealed holding nothing but its header.
 */
module Chunker {
  import opened Text

  /** The size budget the counter is compared against. */
  const Budget: int := 1900

  /** What the counter reserves for the code-block fences. */
  const FenceAllowance: nat := 6

  const OpenFence: string := "```\n"
  const CloseFence: string := "\n```"

  /** One chunk: its part number (1-based) and the content lines it holds, in order. */
  datatype Chunk = Chunk(part: nat, lines: seq<string>)

  /** What the counter adds for one line: the line and its newline. */
  function LineCost(line: string): nat
  {
    |line| + 1
  }

  function LinesCost(lines: seq<string>): nat
    decreases |lines|
  {
    if |lines| == 0 then 0 else LineCost(lines[0]) + LinesCost(lines[1..])
  }

  /** The counter's value for a fresh chunk holding only its header. */
  function FreshSize(header: nat -> string, part: nat): nat
  {
    |header(part)| + FenceAllowance
  }

  /** The counter's value for a chunk: header, fence allowance and every line with its newline. */
  function TrackedSize(header: nat -> string, c: Chunk): nat
  {
    FreshSize(header, c.part) + LinesCost(c.lines)
  }

  /** The content lines of all chunks, in order. */
  function Flatten(cs: seq<Chunk>): seq<string>
    decreases |cs|
  {
    if |cs| == 0 then [] else cs[0].lines + Flatten(cs[1..])
  }

  /**
   * The framing every chunk list the chunker returns satisfies: at least one
   * chunk; chunk i carries part number i + 1; every chunk after the first holds
   * a line; a chunk over budget holds at most one line (the line that overflowed
   * a fresh chunk); and the packing is greedy: the first line of each chunk
   * would have pushed the previous chunk over budget; and Part 1 holds its first
   * line only if that line fit a fresh chunk (otherwise Part 1 is sealed empty).
   */
  ghost predicate Framed(header: nat -> string, cs: seq<Chunk>)
  {
    && |cs| >= 1
    && (forall i :: 0 <= i < |cs| ==> cs[i].part == i + 1)
    && (forall i :: 0 < i < |cs| ==> |cs[i].lines| >= 1)
    && (forall i :: 0 <= i < |cs| && TrackedSize(header, cs[i]) > Budget ==> |cs[i].lines| <= 1)
    && (forall i :: 0 < i < |cs| ==> TrackedSize(header, cs[i - 1]) + LineCost(cs[i].lines[0]) > Budget)
    && (|cs[0].lines| >= 1 ==> FreshSize(header, 1) + LineCost(cs[0].lines[0]) <= Budget)
  }

  /** The loop state: the sealed chunks, the open chunk, and the running size counter. */
  datatype Packing = Packing(sealed: seq<Chunk>, current: Chunk, size: int)

  /** The chunks a state stands for once the open chunk is sealed too. */
  function Chunks(st: Packing): seq<Chunk>
  {
    st.sealed + [st.current]
  }

  ghost predicate Valid(header: nat -> string, st: Packing)
  {
    && st.current.part == |st.sealed| + 1
    && st.size == TrackedSize(header, st.current)
    && Framed(header, Chunks(st))
  }

  /** The state before the first line: Part 1 holds only its header. */
  function Start(header: nat -> string): Packing
  {
    Packing([], Chunk(1, []), FreshSize(header, 1))
  }

  /**
   * One loop iteration: the open chunk is sealed, and a chunk for the next part
   * opened, exactly when the line would take the counter over budget; either way
   * the line ends the open chunk and the counter grows by its cost.
   */
  function Push(header: nat -> string, st: Packing, line: string): (r: Packing)
    ensures r.sealed == st.sealed + [st.current] <==> st.size + LineCost(line) > Budget
    ensures r.sealed == st.sealed <==> st.size + LineCost(line) <= Budget
    ensures |r.current.lines| >= 1 && r.current.lines[|r.current.lines| - 1] == line
    ensures st.size + LineCost(line) <= Budget ==> r.current.lines == st.current.lines + [line]
    ensures r.size == (if st.size + LineCost(line) > Budget then FreshSize(header, |st.sealed| + 2) else st.size)
      + LineCost(line)
  {
    if st.size + LineCost(line) > Budget then
      var part := |st.sealed| + 2;
      Packing(st.sealed + [st.current], Chunk(part, [line]), FreshSize(header, part) + LineCost(line))
    else
      Packing(st.sealed, Chunk(st.current.part, st.current.lines + [line]), st.size + LineCost(line))
  }

  /**
   * The loop over all lines, left to right. A sealed chunk is never touched again,
   * and at most one chunk is sealed per line.
   */
  function Pack(header: nat -> string, st: Packing, lines: seq<string>): (r: Packing)
    ensures st.sealed <= r.sealed
    ensures |r.sealed| <= |st.sealed| + |lines|
    ensures lines == [] ==> r == st
    decreases |lines|
  {
    if |lines| == 0 then st else Pack(header, Push(header, st, lines[0]), lines[1..])
  }

  lemma {:induction false} LinesCostAppend(lines: seq<string>, line: string)
    ensures LinesCost(lines + [line]) == LinesCost(lines) + LineCost(line)
    decreases |lines|
  {
    if |lines| > 0 {
      assert (lines + [line])[1..] == lines[1..] + [line];
      LinesCostAppend(lines[1..], line);
    }
  }

  lemma {:induction false} FlattenAppend(cs: seq<Chunk>, c: Chunk)
    ensures Flatten(cs + [c]) == Flatten(cs) + c.lines
    decreases |cs|
  {
    if |cs| == 0 {
      assert Flatten([c]) == c.lines + Flatten([]);
    } else {
      assert (cs + [c])[1..] == cs[1..] + [c];
      FlattenAppend(cs[1..], c);
    }
  }

  /** One iteration keeps the state valid and appends exactly the pushed line to the content. */
  lemma PushStep(header: nat -> string, st: Packing, line: string)
    requires Valid(header, st)
    ensures Valid(header, Push(header, st, line))
    ensures Flatten(Chunks(Push(header, st, line))) == Flatten(Chunks(st)) + [line]
  {
    var st' := Push(header, st, line);
    var cs, cs' := Chunks(st), Chunks(st');
    if st.size + LineCost(line) > Budget {
      assert cs' == cs + [st'.current];
      assert LinesCost([line]) == LineCost(line) + LinesCost([]);
      FlattenAppend(cs, st'.current);
    } else {
      var n := |st.sealed|;
      LinesCostAppend(st.current.lines, line);
      assert forall k :: 0 <= k < n ==> cs'[k] == cs[k];
      assert cs'[n] == st'.current && cs[n] == st.current;
      assert TrackedSize(header, st'.current) <= Budget;
      forall i | 0 < i < |cs'|
        ensures |cs'[i].lines| >= 1
        ensures TrackedSize(header, cs'[i - 1]) + LineCost(cs'[i].lines[0]) > Budget
      {
        assert cs'[i - 1] == cs[i - 1];
        assert cs'[i].lines[0] == cs[i].lines[0];
      }
      FlattenAppend(st.sealed, st.current);
      FlattenAppend(st.sealed, st'.current);
    }
  }

  lemma {:induction false} PackStep(header: nat -> string, st: Packing, lines: seq<string>)
    requires Valid(header, st)
    ensures Valid(header, Pack(header, st, lines))
    ensures Flatten(Chunks(Pack(header, st, lines))) == Flatten(Chunks(st)) + lines
    decreases |lines|
  {
    if |lines| > 0 {
      PushStep(header, st, lines[0]);
      PackStep(header, Push(header, st, lines[0]), lines[1..]);
      assert [lines[0]] + lines[1..] == lines;
    }
  }

  /**
   * The chunking loop: the chunks' content lines, concatenated in order, are
   * exactly the input lines, and the chunks are framed as `Framed` describes.
   * Empty input gives the single chunk for Part 1 holding no line.
   */
  function ChunkLines(header: nat -> string, lines: seq<string>): (cs: seq<Chunk>)
    ensures Flatten(cs) == lines
    ensures Framed(header, cs)
    ensures lines == [] ==> cs == [Chunk(1, [])]
  {
    assert Flatten(Chunks(Start(header))) == [] by {
      assert Flatten([Chunk(1, [])]) == [] + Flatten([]);
    }
    PackStep(header, Start(header), lines);
    Chunks(Pack(header, Start(header), lines))
  }

  lemma {:induction false} JoinLength(first: string, rest: seq<string>)
    ensures |Join("\n", [first] + rest)| == |first| + LinesCost(rest)
    decreases |rest|
  {
    if |rest| > 0 {
      assert ([first] + rest)[1..] == [rest[0]] + rest[1..];
      JoinLength(rest[0], rest[1..]);
    }
  }

  lemma JoinStartsWithFirst(first: string, rest: seq<string>)
    ensures first <= Join("\n", [first] + rest)
  {
  }

  /**
   * The message for one chunk: the header and the lines, newline-separated,
   * inside the fences. Its length is the tracked size plus 2, because the fences
   * are 8 characters and the counter reserves 6.
   */
  function RenderChunk(header: nat -> string, c: Chunk): (text: string)
    ensures |text| == TrackedSize(header, c) + 2
    ensures OpenFence + header(c.part) <= text
    ensures text[|text| - |CloseFence|..] == CloseFence
  {
    var body := Join("\n", [header(c.part)] + c.lines);
    JoinLength(header(c.part), c.lines);
    JoinStartsWithFirst(header(c.part), c.lines);
    OpenFence + body + CloseFence
  }

  function RenderChunks(header: nat -> string, cs: seq<Chunk>): (texts: seq<string>)
    ensures |texts| == |cs|
    ensures forall i :: 0 <= i < |cs| ==> texts[i] == RenderChunk(header, cs[i])
  {
    seq(|cs|, i requires 0 <= i < |cs| => RenderChunk(header, cs[i]))
  }
}
