/** A writer that splits its input into lines. */
module LineProcessor {
  import opened Wrappers

  const NEWLINE: Byte := 10
  const CARRIAGE_RETURN: Byte := 13
  const DEFAULT_MAXIMUM_BUFFER_SIZE := 64 * 1024

  /** bytes.IndexByte for a newline. */
  function IndexOfNewline(s: seq<Byte>): (i: int)
    ensures -1 <= i < |s|
    ensures i >= 0 ==> s[i] == NEWLINE
    ensures forall k | 0 <= k < (if i == -1 then |s| else i) :: s[k] != NEWLINE
  {
    if |s| == 0 then -1
    else if s[0] == NEWLINE then 0
    else
      var i := IndexOfNewline(s[1..]);
      if i == -1 then -1 else i + 1
  }

  /** trimCarriageReturn. */
  function Trim(line: seq<Byte>): seq<Byte> {
    if |line| > 0 && line[|line| - 1] == CARRIAGE_RETURN then line[..|line| - 1] else line
  }

  // ----- Reference: splitting the whole input at once -----

  function RawLines(input: seq<Byte>): seq<seq<Byte>>
    decreases |input|
  {
    var i := IndexOfNewline(input);
    if i == -1 then [] else [input[..i]] + RawLines(input[i + 1..])
  }

  function Remainder(input: seq<Byte>): seq<Byte>
    decreases |input|
  {
    var i := IndexOfNewline(input);
    if i == -1 then input else Remainder(input[i + 1..])
  }

  function Lines(input: seq<Byte>): seq<seq<Byte>> { TrimAll(RawLines(input)) }

  function TrimAll(lines: seq<seq<Byte>>): seq<seq<Byte>> {
    if |lines| == 0 then [] else [Trim(lines[0])] + TrimAll(lines[1..])
  }

  predicate WithoutNewline(s: seq<Byte>) { forall i | 0 <= i < |s| :: s[i] != 10 }

  /** The text of the lines, each with its newline. */
  function Unlines(lines: seq<seq<Byte>>): seq<Byte> {
    if |lines| == 0 then [] else lines[0] + [10] + Unlines(lines[1..])
  }

  lemma FirstLine(line: seq<Byte>, rest: seq<Byte>)
    requires WithoutNewline(line)
    ensures IndexOfNewline(line + [NEWLINE] + rest) == |line|
    ensures (line + [NEWLINE] + rest)[..|line|] == line && (line + [NEWLINE] + rest)[|line| + 1..] == rest
  {
    var s := line + [NEWLINE] + rest;
    assert s[|line|] == NEWLINE;
    assert forall k | 0 <= k < |line| :: s[k] == line[k];
  }

  /** Text that consists of lines and an unfinished line splits into just these, and every
      text does. */
  lemma {:induction false} LinesAreUnique(lines: seq<seq<Byte>>, rest: seq<Byte>)
    requires (forall i | 0 <= i < |lines| :: WithoutNewline(lines[i])) && WithoutNewline(rest)
    ensures RawLines(Unlines(lines) + rest) == lines && Remainder(Unlines(lines) + rest) == rest
    decreases |lines|
  {
    if |lines| == 0 {
      assert Unlines(lines) + rest == rest;
    } else {
      LinesAreUnique(lines[1..], rest);
      JoinLine(lines[0], Unlines(lines[1..]), rest);
      RawLinesFirst(lines[0], Unlines(lines[1..]) + rest);
    }
  }

  lemma Assemble(input: seq<Byte>, i: nat, lines: seq<seq<Byte>>, rest: seq<Byte>)
    requires i < |input| && input[i] == NEWLINE && Unlines(lines) + rest == input[i + 1..]
    ensures Unlines([input[..i]] + lines) + rest == input
  {
    var all := [input[..i]] + lines;
    assert all[1..] == lines && all[0] == input[..i];
    assert Unlines(all) == input[..i] + [NEWLINE] + Unlines(lines);
    assert Unlines(all) + rest == input[..i] + [NEWLINE] + (Unlines(lines) + rest);
    assert input == input[..i] + [NEWLINE] + input[i + 1..];
  }

  lemma {:induction false} LinesAreWhole(input: seq<Byte>)
    ensures Unlines(RawLines(input)) + Remainder(input) == input
    decreases |input|
  {
    var i := IndexOfNewline(input);
    if i == -1 {
      assert RawLines(input) == [] && Remainder(input) == input;
      NoLines(input);
    } else {
      var line, after := input[..i], input[i + 1..];
      LinesAreWhole(after);
      CutLine(input, i);
      RawLinesFirst(line, after);
      Assemble(input, i, RawLines(after), Remainder(after));
    }
  }

  lemma NoLines(rest: seq<Byte>)
    ensures Unlines([]) + rest == rest
  {
  }

  lemma {:induction false} LinesAreSingle(input: seq<Byte>)
    ensures forall i | 0 <= i < |RawLines(input)| :: WithoutNewline(RawLines(input)[i])
    ensures WithoutNewline(Remainder(input))
    decreases |input|
  {
    var i := IndexOfNewline(input);
    if i != -1 {
      LinesAreSingle(input[i + 1..]);
    }
  }

  /** Input that arrives in two parts splits as if the unfinished line of the first part had
      been written together with the second. */
  lemma {:induction false} SplitInParts(a: seq<Byte>, b: seq<Byte>)
    ensures RawLines(a + b) == RawLines(a) + RawLines(Remainder(a) + b)
    ensures Remainder(a + b) == Remainder(Remainder(a) + b)
    decreases |a|
  {
    var i := IndexOfNewline(a);
    if i == -1 {
      assert Remainder(a) == a && RawLines(a) == [];
      Associate([], [], RawLines(a + b));
    } else {
      SplitInParts(a[i + 1..], b);
      CutLine(a, i);
      SplitAfterLine(a, a[..i], a[i + 1..], b);
    }
  }

  lemma SplitAfterLine(a: seq<Byte>, first: seq<Byte>, rest: seq<Byte>, b: seq<Byte>)
    requires a == first + [NEWLINE] + rest && WithoutNewline(first)
    requires RawLines(rest + b) == RawLines(rest) + RawLines(Remainder(rest) + b)
    requires Remainder(rest + b) == Remainder(Remainder(rest) + b)
    ensures RawLines(a + b) == RawLines(a) + RawLines(Remainder(a) + b)
    ensures Remainder(a + b) == Remainder(Remainder(a) + b)
  {
    RawLinesFirst(first, rest);
    RawLinesFirst(first, rest + b);
    JoinLine(first, rest, b);
    Associate([first], RawLines(rest), RawLines(Remainder(rest) + b));
  }

  lemma JoinLine(first: seq<Byte>, rest: seq<Byte>, b: seq<Byte>)
    ensures (first + [NEWLINE] + rest) + b == first + [NEWLINE] + (rest + b)
  {
  }

  lemma RawLinesFirst(first: seq<Byte>, rest: seq<Byte>)
    requires WithoutNewline(first)
    ensures RawLines(first + [NEWLINE] + rest) == [first] + RawLines(rest)
    ensures Remainder(first + [NEWLINE] + rest) == Remainder(rest)
  {
    FirstLine(first, rest);
  }

  lemma Associate(a: seq<seq<Byte>>, b: seq<seq<Byte>>, c: seq<seq<Byte>>)
    ensures a + (b + c) == (a + b) + c
  {
  }

  lemma CutLine(a: seq<Byte>, i: nat)
    requires i < |a| && a[i] == NEWLINE
    ensures a == a[..i] + [NEWLINE] + a[i + 1..]
  {
  }

  lemma {:induction false} TrimAllConcat(a: seq<seq<Byte>>, b: seq<seq<Byte>>)
    ensures TrimAll(a + b) == TrimAll(a) + TrimAll(b)
  {
    if |a| == 0 {
      assert a + b == b;
    } else {
      assert (a + b)[1..] == a[1..] + b;
      TrimAllConcat(a[1..], b);
    }
  }

  lemma LinesInParts(a: seq<Byte>, b: seq<Byte>)
    ensures Lines(a + b) == Lines(a) + Lines(Remainder(a) + b)
    ensures Remainder(a + b) == Remainder(Remainder(a) + b)
  {
    SplitInParts(a, b);
    TrimAllConcat(RawLines(a), RawLines(Remainder(a) + b));
  }

  function Concat(chunks: seq<seq<Byte>>): seq<Byte> {
    if |chunks| == 0 then [] else Concat(chunks[..|chunks| - 1]) + chunks[|chunks| - 1]
  }

  /** The lines reported and the buffer left after writing the chunks one by one. */
  function Feed(chunks: seq<seq<Byte>>): (seq<seq<Byte>>, seq<Byte>) {
    if |chunks| == 0 then ([], [])
    else
      var (lines, buffer) := Feed(chunks[..|chunks| - 1]);
      var text := buffer + chunks[|chunks| - 1];
      (lines + Lines(text), Remainder(text))
  }

  /** However the input was cut into chunks, they make no difference. */
  lemma {:induction false} ChunksMakeNoDifference(chunks: seq<seq<Byte>>)
    ensures Feed(chunks) == (Lines(Concat(chunks)), Remainder(Concat(chunks)))
  {
    if |chunks| > 0 {
      var before, last := chunks[..|chunks| - 1], chunks[|chunks| - 1];
      ChunksMakeNoDifference(before);
      LinesInParts(Concat(before), last);
    } else {
      assert Lines([]) == [];
    }
  }

  lemma {:induction false} TrimAllTrims(lines: seq<seq<Byte>>)
    ensures |TrimAll(lines)| == |lines|
    ensures forall i | 0 <= i < |lines| :: Trims(lines[i], TrimAll(lines)[i])
  {
    if |lines| > 0 {
      TrimAllTrims(lines[1..]);
      assert forall i | 1 <= i < |lines| :: lines[i] == lines[1..][i - 1];
    }
  }

  /** At most one trailing carriage return has been removed. */
  predicate Trims(raw: seq<Byte>, line: seq<Byte>) {
    if |raw| > 0 && raw[|raw| - 1] == 13 then line + [13] == raw else line == raw
  }

  /** The lines reported are the lines of the input, each without one trailing carriage return
      if it has one. */
  lemma LinesAreTrimmed(input: seq<Byte>)
    ensures |Lines(input)| == |RawLines(input)|
    ensures forall i | 0 <= i < |Lines(input)| :: Trims(RawLines(input)[i], Lines(input)[i])
  {
    TrimAllTrims(RawLines(input));
  }

  class LineProcessor {
    const maximumBufferSize: int
    var storage: array<Byte>
    var length: nat                      // the buffer is the first `length` bytes
    var lines: seq<seq<Byte>>            // the callbacks made so far
    ghost var accepted: seq<Byte>        // the concatenation of all accepted writes

    ghost predicate Valid()
      reads this, storage
    {
      && length <= storage.Length
      && lines == Lines(accepted)
      && storage[..length] == Remainder(accepted)
    }

    constructor (maximumBufferSize: int)
      ensures Valid() && lines == [] && accepted == [] && fresh(storage)
      ensures this.maximumBufferSize == maximumBufferSize
    {
      this.maximumBufferSize := maximumBufferSize;
      storage, length, lines, accepted := new Byte[0], 0, [], [];
    }

    /** append, which moves to a larger array if it must. */
    method Append(data: seq<Byte>)
      requires length <= storage.Length
      modifies this`storage, this`length, storage
      ensures length <= storage.Length && (storage == old(storage) || fresh(storage))
      ensures storage[..length] == old(storage[..length]) + data
    {
      var total := length + |data|;
      if total > storage.Length {
        var moved := storage[..length];
        storage := new Byte[2 * total](i => if 0 <= i < |moved| then moved[i] else 0);
      }
      assert storage[..length] == old(storage[..length]);
      for i := 0 to |data|
        invariant length == old(length) && total <= storage.Length && (storage == old(storage) || fresh(storage))
        invariant storage[..length + i] == old(storage[..length]) + data[..i]
      {
        storage[length + i] := data[i];
        assert storage[..length + i + 1] == storage[..length + i] + [data[i]];
        assert data[..i + 1] == data[..i] + [data[i]];
      }
      length := total;
    }

    /** Shifts the bytes after `processed` to the front, where they may overlap. */
    method Shift(processed: nat)
      requires 0 < processed <= length <= storage.Length
      modifies this`length, storage
      ensures length <= storage.Length && storage[..length] == old(storage[processed..length])
    {
      var leftover := length - processed;
      for i := 0 to leftover
        invariant forall k | 0 <= k < i :: storage[k] == old(storage[processed + k])
        invariant forall k | i <= k < storage.Length :: storage[k] == old(storage[k])
      {
        storage[i] := storage[processed + i];
      }
      length := leftover;
    }

    /** A write is refused if the buffer would exceed its limit, and otherwise adds to what
        has been accepted; Valid() then says which lines were reported and what is left. */
    method Write(data: seq<Byte>) returns (count: nat, exceeded: bool)
      requires Valid()
      modifies this`storage, this`length, this`lines, this`accepted, storage
      ensures Valid() && (storage == old(storage) || fresh(storage))
      ensures
        var total := |Remainder(old(accepted))| + |data|;
        exceeded <==>
          || (maximumBufferSize == 0 && total > 65536)
          || (maximumBufferSize > 0 && total > maximumBufferSize)
      ensures exceeded ==> count == 0 && accepted == old(accepted) && storage[..length] == old(storage[..length])
      ensures !exceeded ==> count == |data| && accepted == old(accepted) + data
    {
      if maximumBufferSize == 0 && length + |data| > DEFAULT_MAXIMUM_BUFFER_SIZE { return 0, true; }
      if maximumBufferSize > 0 && length + |data| > maximumBufferSize { return 0, true; }
      Process(data);
      return |data|, false;
    }

    method Process(data: seq<Byte>)
      requires Valid()
      modifies this`storage, this`length, this`lines, this`accepted, storage
      ensures Valid() && (storage == old(storage) || fresh(storage))
      ensures accepted == old(accepted) + data
    {
      ghost var text := Remainder(accepted) + data;
      LinesInParts(accepted, data);
      Append(data);
      assert storage[..length] == text;
      var processed := ProcessLines();
      Truncate(processed);
      accepted := accepted + data;
    }

    /** Drops the bytes that have been processed, if any. */
    method Truncate(processed: nat)
      requires processed <= length <= storage.Length
      modifies this`length, storage
      ensures length <= storage.Length && storage[..length] == old(storage[processed..length])
    {
      if processed > 0 {
        Shift(processed);
      } else {
        assert storage[0..length] == storage[..length];
      }
    }

    /** Reports every complete line in the buffer. */
    method ProcessLines() returns (processed: nat)
      requires length <= storage.Length
      modifies this`lines
      ensures processed <= length
      ensures lines == old(lines) + Lines(storage[..length])
      ensures storage[processed..length] == Remainder(storage[..length])
    {
      var buffer := storage[..length];
      var remaining := buffer;
      processed := 0;
      var index := IndexOfNewline(remaining);
      while index != -1
        invariant processed <= |buffer| && remaining == buffer[processed..] && index == IndexOfNewline(remaining)
        invariant lines + Lines(remaining) == old(lines) + Lines(buffer)
        invariant Remainder(remaining) == Remainder(buffer)
        decreases |remaining|
      {
        LinesFirst(remaining);
        Regroup(lines, Trim(remaining[..index]), Lines(remaining[index + 1..]));
        Suffix(buffer, processed, index + 1);
        lines := lines + [Trim(remaining[..index])];
        processed := processed + index + 1;
        remaining := remaining[index + 1..];
        index := IndexOfNewline(remaining);
      }
      assert storage[processed..length] == buffer[processed..];
    }
  }

  lemma Suffix(s: seq<Byte>, i: nat, j: nat)
    requires i + j <= |s|
    ensures s[i..][j..] == s[i + j..]
  {
  }

  lemma Regroup(lines: seq<seq<Byte>>, line: seq<Byte>, rest: seq<seq<Byte>>)
    ensures lines + ([line] + rest) == (lines + [line]) + rest
  {
  }

  lemma {:induction false} LinesFirst(input: seq<Byte>)
    requires IndexOfNewline(input) != -1
    ensures
      var i := IndexOfNewline(input);
      && Lines(input) == [Trim(input[..i])] + Lines(input[i + 1..])
      && Remainder(input) == Remainder(input[i + 1..])
  {
    var i := IndexOfNewline(input);
    var line, rest := input[..i], input[i + 1..];
    CutLine(input, i);
    RawLinesFirst(line, rest);
    TrimAllFirst(line, RawLines(rest));
  }

  lemma TrimAllFirst(line: seq<Byte>, lines: seq<seq<Byte>>)
    ensures TrimAll([line] + lines) == [Trim(line)] + TrimAll(lines)
  {
    assert ([line] + lines)[1..] == lines;
  }
}
