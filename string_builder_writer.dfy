/**
  StringBuilderWriter: an append-only character sink that serialised records
  are written into, drained with getAndReset and then reused for the next
  record. It counts how many times it has been drained.

  The writer's behaviour is specified by Step, one operation on a
  (buffer, usage count) state; the class's methods are proved to follow Step,
  and the lemmas below say what any sequence of operations does.
 */
module Writers {

  const Int32Min: int := -0x8000_0000
  const Int32Max: int := 0x7fff_ffff

  /** Java's `int`. */
  type Int32 = x: int | -0x8000_0000 <= x <= 0x7fff_ffff

  /** The 32-bit two's-complement value congruent to `x` modulo 2^32. */
  function Wrap32(x: int): Int32 {
    (x + 0x8000_0000) % 0x1_0000_0000 - 0x8000_0000
  }

  /** Java's `x++` on an `int`: one more, wrapping from the largest value to the smallest. */
  function Increment(x: Int32): (r: Int32)
    ensures r == Wrap32(x + 1)
    ensures x < Int32Max ==> r > x
  {
    if x == Int32Max then Int32Min else x + 1
  }

  datatype WriterState = WriterState(buffer: string, usageCount: Int32)

  /** The state of a newly constructed writer, whatever its capacity. */
  const Fresh: WriterState := WriterState([], 0)

  datatype WriterOp =
    | WriteOp(chars: string)  // write(cbuf, off, len) of the slice `chars`
    | GetAndResetOp           // getAndReset()

  /** One operation: the state after it, and what it returns (nothing for a write,
      the drained text for getAndReset). */
  function Step(s: WriterState, op: WriterOp): (WriterState, seq<string>)
  {
    match op
    case WriteOp(chars) => (s.(buffer := s.buffer + chars), [])
    case GetAndResetOp => (WriterState([], Increment(s.usageCount)), [s.buffer])
  }

  /** A sequence of operations from `s`: the final state and every drained text, in order. */
  function Run(s: WriterState, ops: seq<WriterOp>): (WriterState, seq<string>)
    decreases |ops|
  {
    if ops == [] then (s, [])
    else
      var first := Step(s, ops[0]);
      var rest := Run(first.0, ops[1..]);
      (rest.0, first.1 + rest.1)
  }

  /** Everything the operations write, in order. */
  function Written(ops: seq<WriterOp>): string
    decreases |ops|
  {
    if ops == [] then []
    else (if ops[0].WriteOp? then ops[0].chars else []) + Written(ops[1..])
  }

  /** How many of the operations are getAndReset. */
  function Drains(ops: seq<WriterOp>): nat
    decreases |ops|
  {
    if ops == [] then 0
    else (if ops[0].GetAndResetOp? then 1 else 0) + Drains(ops[1..])
  }

  function Concat(texts: seq<string>): string
    decreases |texts|
  {
    if texts == [] then [] else texts[0] + Concat(texts[1..])
  }

  lemma {:induction false} ConcatAppend(a: seq<string>, b: seq<string>)
    ensures Concat(a + b) == Concat(a) + Concat(b)
    decreases |a|
  {
    if a == [] {
      assert a + b == b;
    } else {
      assert (a + b)[1..] == a[1..] + b;
      ConcatAppend(a[1..], b);
    }
  }

  /** Running two sequences one after the other is running their concatenation. */
  lemma {:induction false} RunAppend(s: WriterState, a: seq<WriterOp>, b: seq<WriterOp>)
    ensures Run(s, a + b) == (Run(Run(s, a).0, b).0, Run(s, a).1 + Run(Run(s, a).0, b).1)
    decreases |a|
  {
    if a == [] {
      assert a + b == b;
      assert [] + Run(s, b).1 == Run(s, b).1;
    } else {
      var first := Step(s, a[0]);
      assert (a + b)[0] == a[0];
      assert (a + b)[1..] == a[1..] + b;
      RunAppend(first.0, a[1..], b);
      var mid := Run(first.0, a[1..]);
      var tail := Run(mid.0, b);
      assert Run(s, a) == (mid.0, first.1 + mid.1);
      assert Run(s, a + b) == (tail.0, first.1 + (mid.1 + tail.1));
      assert first.1 + (mid.1 + tail.1) == (first.1 + mid.1) + tail.1;
    }
  }

  /** No character is lost, duplicated or reordered: the drained texts followed by
      what is still buffered are the initial buffer followed by everything written. */
  lemma {:induction false} RunConservesCharacters(s: WriterState, ops: seq<WriterOp>)
    ensures Concat(Run(s, ops).1) + Run(s, ops).0.buffer == s.buffer + Written(ops)
    decreases |ops|
  {
    if ops != [] {
      var first := Step(s, ops[0]);
      var rest := Run(first.0, ops[1..]);
      RunConservesCharacters(first.0, ops[1..]);
      ConcatAppend(first.1, rest.1);
      var w := if ops[0].WriteOp? then ops[0].chars else [];
      assert Concat(first.1) + first.0.buffer == s.buffer + w;
      calc {
        Concat(Run(s, ops).1) + Run(s, ops).0.buffer;
        Concat(first.1) + Concat(rest.1) + rest.0.buffer;
        Concat(first.1) + (first.0.buffer + Written(ops[1..]));
        s.buffer + w + Written(ops[1..]);
      }
    }
  }

  /** Each getAndReset yields one text and raises the usage count by one
      (in 32-bit arithmetic); writes do neither. */
  lemma {:induction false} RunCountsDrains(s: WriterState, ops: seq<WriterOp>)
    ensures |Run(s, ops).1| == Drains(ops)
    ensures Run(s, ops).0.usageCount == Wrap32(s.usageCount + Drains(ops))
    decreases |ops|
  {
    if ops == [] {
      assert Wrap32(s.usageCount) == s.usageCount;
    } else {
      var s1 := Step(s, ops[0]).0;
      RunCountsDrains(s1, ops[1..]);
      if ops[0].GetAndResetOp? {
        WrapCompose(s.usageCount + 1, Drains(ops[1..]));
      }
    }
  }

  /** Wrapping part of a sum first does not change the wrapped sum. */
  lemma WrapCompose(x: int, d: int)
    ensures Wrap32(Wrap32(x) + d) == Wrap32(x + d)
  {
  }

  /** Below 2^31 drains from a fresh writer the usage count is exactly the number of drains. */
  lemma UsageCountFromFresh(ops: seq<WriterOp>)
    requires Drains(ops) <= Int32Max
    ensures Run(Fresh, ops).0.usageCount == Drains(ops)
  {
    RunCountsDrains(Fresh, ops);
  }

  /** Without a drain, operations only append to the buffer and return nothing. */
  lemma {:induction false} RunWithoutDrains(s: WriterState, ops: seq<WriterOp>)
    requires Drains(ops) == 0
    ensures Run(s, ops) == (s.(buffer := s.buffer + Written(ops)), [])
    decreases |ops|
  {
    if ops == [] {
      assert s.buffer + [] == s.buffer;
    } else {
      var s1 := Step(s, ops[0]).0;
      RunWithoutDrains(s1, ops[1..]);
      assert s1.buffer == s.buffer + ops[0].chars;
      assert s1.buffer + Written(ops[1..]) == s.buffer + Written(ops);
      assert s1.(buffer := s1.buffer + Written(ops[1..])) == s.(buffer := s.buffer + Written(ops));
      assert Run(s, ops) == (Run(s1, ops[1..]).0, [] + Run(s1, ops[1..]).1);
      assert Run(s1, ops[1..]).1 == [];
      assert Run(s1, ops[1..]).0 == s.(buffer := s.buffer + Written(ops));
      var empty: seq<string> := [];
      assert empty + empty == empty;
    }
  }

  lemma SingleDrain(s: WriterState)
    ensures Run(s, [GetAndResetOp]) == (WriterState([], Increment(s.usageCount)), [s.buffer])
  {
    assert [GetAndResetOp][1..] == [];
    assert [s.buffer] + [] == [s.buffer];
  }

  /** Reuse: after a getAndReset, the buffer holds only what was written since,
      whatever came before; the next getAndReset returns exactly that. */
  lemma DrainIsolates(s: WriterState, before: seq<WriterOp>, after: seq<WriterOp>)
    requires Drains(after) == 0
    ensures Run(s, before + [GetAndResetOp] + after).0.buffer == Written(after)
    ensures Run(s, before + [GetAndResetOp] + after + [GetAndResetOp]).1
            == Run(s, before).1 + [Run(s, before).0.buffer, Written(after)]
  {
    var mid := Run(s, before);
    var drained := Step(mid.0, GetAndResetOp).0;
    RunAppend(s, before, [GetAndResetOp]);
    SingleDrain(mid.0);
    RunAppend(s, before + [GetAndResetOp], after);
    RunWithoutDrains(drained, after);
    assert drained.buffer + Written(after) == Written(after);
    var last := Run(s, before + [GetAndResetOp] + after);
    RunAppend(s, before + [GetAndResetOp] + after, [GetAndResetOp]);
    SingleDrain(last.0);
  }

  class StringBuilderWriter {
    var builder: string     // the characters held by the internal StringBuilder
    var usageCount: Int32

    /** `new StringBuilderWriter(capacity)`: the capacity only sizes the builder. */
    constructor (capacity: int)
      requires 0 <= capacity
      ensures State() == Fresh
    {
      builder := [];
      usageCount := 0;
    }

    /** `new StringBuilderWriter()`, which asks for the default capacity of 38400. */
    constructor Default()
      ensures State() == Fresh
    {
      builder := [];
      usageCount := 0;
    }

    function State(): WriterState
      reads this
    {
      WriterState(builder, usageCount)
    }

    /** Appends `cbuf[off..off+len]` after what is already buffered. */
    method Write(cbuf: array<char>, off: int, len: int)
      requires 0 <= off && 0 <= len && off + len <= cbuf.Length
      modifies this
      ensures State() == Step(old(State()), WriteOp(cbuf[off..off + len])).0
      ensures builder == old(builder) + cbuf[off..off + len]
      ensures usageCount == old(usageCount)
    {
      builder := builder + cbuf[off..off + len];
    }

    /** Returns everything buffered, empties the buffer and counts the use. */
    method GetAndReset() returns (result: string)
      modifies this
      ensures (State(), [result]) == Step(old(State()), GetAndResetOp)
      ensures result == old(builder) && builder == []
      ensures usageCount == Increment(old(usageCount))
    {
      result := builder;
      builder := [];
      usageCount := Increment(usageCount);
    }

    function GetUsageCount(): (n: Int32)
      reads this`usageCount
      ensures n == State().usageCount
    {
      usageCount
    }

    method Flush()
      ensures State() == old(State())
    {
    }

    method Close()
      ensures State() == old(State())
    {
    }
  }

  /** One writer serialises two records in turn: each drain yields exactly that
      record's characters, a drain with no write in between yields nothing, and
      every drain is counted. */
  method ReuseForTwoRecords(first: array<char>, second: array<char>)
    returns (firstOut: string, secondOut: string, emptyOut: string, uses: Int32)
    ensures firstOut == first[..] && secondOut == second[..]
    ensures emptyOut == [] && uses == 3
  {
    var w := new StringBuilderWriter.Default();
    w.Write(first, 0, first.Length);
    w.Flush();
    firstOut := w.GetAndReset();
    w.Write(second, 0, second.Length);
    secondOut := w.GetAndReset();
    emptyOut := w.GetAndReset();
    w.Close();
    uses := w.GetUsageCount();
  }
}
