/**
 * The push-back reader of regretable/regretreader.go as a window on a stream: a mark to which
 * Regret goes back, a position from which Read goes on, and the bytes taken from the reader below.
 */
module RegretReader {
  import opened Basics

  /** The reader below: a stream, cut up and interrupted by errors as it likes. */
  class Source {
    const data: seq<byte>
    var taken: nat
    /** The answers to the calls of Read so far. */
    ghost var log: seq<(nat, Option<nat>)>

    constructor (data: seq<byte>)
      ensures this.data == data && taken == 0 && log == []
    {
      this.data := data;
      taken, log := 0, [];
    }

    /** io.Reader: at most len(p) bytes, the next ones of the stream; the rest of p is scratch space. */
    method Read(p: array<byte>) returns (n: nat, err: Option<nat>)
      requires taken <= |data|
      modifies this`taken, this`log, p
      ensures n <= p.Length && old(taken) + n == taken <= |data|
      ensures log == old(log) + [(n, err)]
      ensures p[..n] == data[old(taken)..taken]
    {
      var most := if p.Length < |data| - taken then p.Length else |data| - taken;
      n :| 0 <= n <= most;
      err := *;
      forall i | 0 <= i < n { p[i] := data[taken + i]; }
      assert p[..n] == data[taken..taken + n];
      taken, log := taken + n, log + [(n, err)];
    }
  }

  // ----- the abstract reader -----

  /** `cap` is the length of the buffer; bytes mark..taken have been taken since the last Forget. */
  datatype View = View(data: seq<byte>, cap: nat, taken: nat, mark: nat, pos: nat)

  datatype Op = Take(n: nat) | Regret | Forget

  predicate Overflow(v: View) { v.taken > v.mark + v.cap }

  predicate WellFormed(v: View) {
    v.mark <= v.pos <= v.taken <= |v.data| && (Overflow(v) ==> v.pos == v.taken)
  }

  /** A read returns what can be replayed or, when there is nothing to replay, new bytes.
      Regret and Forget panic after overflow. */
  predicate Legal(v: View, op: Op) {
    match op
    case Take(n) => if v.pos < v.taken then v.pos + n <= v.taken else v.taken + n <= |v.data|
    case Regret => !Overflow(v)
    case Forget => !Overflow(v)
  }

  function Step(v: View, op: Op): View {
    match op
    case Take(n) => if v.pos < v.taken then v.(pos := v.pos + n) else v.(taken := v.taken + n, pos := v.taken + n)
    case Regret => v.(pos := v.mark)
    case Forget => v.(mark := v.taken, pos := v.taken)
  }

  predicate LegalRun(v: View, ops: seq<Op>)
    decreases |ops|
  {
    ops != [] ==> Legal(v, ops[0]) && LegalRun(Step(v, ops[0]), ops[1..])
  }

  lemma StepKeepsForm(v: View, op: Op)
    requires WellFormed(v) && Legal(v, op)
    ensures WellFormed(Step(v, op)) && Step(v, op).data == v.data && Step(v, op).cap == v.cap
    ensures op.Take? ==> v.pos + op.n <= |v.data|
  {
  }

  /** The bytes each operation hands out. */
  function Outputs(v: View, ops: seq<Op>): seq<seq<byte>>
    requires WellFormed(v) && LegalRun(v, ops)
    decreases |ops|
  {
    if ops == [] then []
    else
      var out := if ops[0].Take? then v.data[v.pos..v.pos + ops[0].n] else [];
      StepKeepsForm(v, ops[0]);
      [out] + Outputs(Step(v, ops[0]), ops[1..])
  }

  // ----- a stream with a mark and a position -----

  datatype Ideal = Ideal(mark: nat, pos: nat)

  function IdealStep(i: Ideal, op: Op): Ideal {
    match op
    case Take(n) => i.(pos := i.pos + n)
    case Regret => i.(pos := i.mark)
    case Forget => i.(mark := i.pos)
  }

  predicate InData(data: seq<byte>, i: Ideal, ops: seq<Op>)
    decreases |ops|
  {
    ops != [] ==> i.pos <= |data| && (ops[0].Take? ==> i.pos + ops[0].n <= |data|)
                  && InData(data, IdealStep(i, ops[0]), ops[1..])
  }

  function IdealOutputs(data: seq<byte>, i: Ideal, ops: seq<Op>): seq<seq<byte>>
    requires InData(data, i, ops)
    decreases |ops|
  {
    if ops == [] then []
    else
      [if ops[0].Take? then data[i.pos..i.pos + ops[0].n] else []]
      + IdealOutputs(data, IdealStep(i, ops[0]), ops[1..])
  }

  /** No Forget while bytes pushed back by Regret are still to be replayed. */
  predicate CleanForgets(v: View, ops: seq<Op>)
    decreases |ops|
  {
    ops != [] ==> (ops[0].Forget? ==> v.pos == v.taken) && CleanForgets(Step(v, ops[0]), ops[1..])
  }

  /** The reader is at the mark and position of the ideal stream after every operation. */
  predicate Agrees(v: View, i: Ideal, ops: seq<Op>)
    decreases |ops|
  {
    v.mark == i.mark && v.pos == i.pos && (ops != [] ==> Agrees(Step(v, ops[0]), IdealStep(i, ops[0]), ops[1..]))
  }

  /** The reader is a stream with a mark and a position exactly on the runs without such a Forget. */
  lemma {:induction false} AgreesIffForgetsAreClean(v: View, ops: seq<Op>)
    requires WellFormed(v) && LegalRun(v, ops)
    ensures Agrees(v, Ideal(v.mark, v.pos), ops) <==> CleanForgets(v, ops)
    decreases |ops|
  {
    if ops != [] {
      var w, j := Step(v, ops[0]), IdealStep(Ideal(v.mark, v.pos), ops[0]);
      StepKeepsForm(v, ops[0]);
      AgreesIffForgetsAreClean(w, ops[1..]);
      if ops[0].Forget? && v.pos < v.taken {
        assert !Agrees(w, j, ops[1..]);
      } else {
        assert j == Ideal(w.mark, w.pos);
      }
    }
  }

  /** On those runs every read returns what the ideal stream returns: no byte is lost, repeated or reordered. */
  lemma {:induction false} ReadsAreIdeal(v: View, ops: seq<Op>)
    requires WellFormed(v) && LegalRun(v, ops) && CleanForgets(v, ops)
    ensures InData(v.data, Ideal(v.mark, v.pos), ops)
    ensures Outputs(v, ops) == IdealOutputs(v.data, Ideal(v.mark, v.pos), ops)
    decreases |ops|
  {
    if ops != [] {
      StepKeepsForm(v, ops[0]);
      ReadsAreIdeal(Step(v, ops[0]), ops[1..]);
    }
  }

  function AfterRun(v: View, ops: seq<Op>): View
    decreases |ops|
  {
    if ops == [] then v else AfterRun(Step(v, ops[0]), ops[1..])
  }

  lemma {:induction false} NeverBehindMark(v: View, ops: seq<Op>)
    requires WellFormed(v) && LegalRun(v, ops)
    ensures WellFormed(AfterRun(v, ops)) && AfterRun(v, ops).pos >= v.mark && AfterRun(v, ops).mark >= v.mark
    decreases |ops|
  {
    if ops != [] {
      StepKeepsForm(v, ops[0]);
      NeverBehindMark(Step(v, ops[0]), ops[1..]);
    }
  }

  /** A Forget in the middle of a replay loses the bytes pos..taken for good: no later run comes back to them,
      and on a run with clean Forgets the reads are those of an ideal stream that starts behind them. */
  lemma ForgetLosesTheReplay(v: View, ops: seq<Op>)
    requires WellFormed(v) && Legal(v, Forget) && LegalRun(Step(v, Forget), ops)
    ensures AfterRun(Step(v, Forget), ops).pos >= v.taken
    ensures CleanForgets(Step(v, Forget), ops) ==>
              && InData(v.data, Ideal(v.taken, v.taken), ops)
              && Outputs(Step(v, Forget), ops) == IdealOutputs(v.data, Ideal(v.taken, v.taken), ops)
  {
    StepKeepsForm(v, Forget);
    NeverBehindMark(Step(v, Forget), ops);
    if CleanForgets(Step(v, Forget), ops) {
      ReadsAreIdeal(Step(v, Forget), ops);
    }
  }

  lemma RegretThenForget(v: View, ops: seq<Op>)
    requires |v.data| == 3 && v.cap >= 2 && v.taken == v.mark == v.pos == 0
    requires ops == [Take(2), Regret, Forget, Take(1)]
    ensures WellFormed(v) && LegalRun(v, ops) && InData(v.data, Ideal(0, 0), ops)
    ensures Outputs(v, ops) == [v.data[0..2], [], [], v.data[2..3]]
    ensures IdealOutputs(v.data, Ideal(0, 0), ops) == [v.data[0..2], [], [], v.data[0..1]]
  {
    var ops1, ops2, ops3 := ops[1..], ops[1..][1..], ops[1..][1..][1..];
    var v1, i1 := Step(v, ops[0]), IdealStep(Ideal(0, 0), ops[0]);
    var v2, i2 := Step(v1, ops1[0]), IdealStep(i1, ops1[0]);
    var v3, i3 := Step(v2, ops2[0]), IdealStep(i2, ops2[0]);
    assert ops1 == [Regret, Forget, Take(1)] && ops2 == [Forget, Take(1)] && ops3 == [Take(1)] && ops3[1..] == [];
    assert LegalRun(v3, ops3) && InData(v.data, i3, ops3);
    assert Outputs(v3, ops3) == [v.data[2..3]] && IdealOutputs(v.data, i3, ops3) == [v.data[0..1]];
    assert LegalRun(v2, ops2) && InData(v.data, i2, ops2);
    assert Outputs(v2, ops2) == [[]] + Outputs(v3, ops3);
    assert IdealOutputs(v.data, i2, ops2) == [[]] + IdealOutputs(v.data, i3, ops3);
    assert LegalRun(v1, ops1) && InData(v.data, i1, ops1);
    assert Outputs(v1, ops1) == [[]] + Outputs(v2, ops2);
    assert IdealOutputs(v.data, i1, ops1) == [[]] + IdealOutputs(v.data, i2, ops2);
    assert Outputs(v, ops) == [v.data[0..2]] + Outputs(v1, ops1);
    assert IdealOutputs(v.data, Ideal(0, 0), ops) == [v.data[0..2]] + IdealOutputs(v.data, i1, ops1);
  }

  /** Two bytes of 1, 2, 3 are read and pushed back; after Forget the next byte is 3 where it should be 1. */
  lemma ForgetSkipsTwo(v: View, ops: seq<Op>)
    requires v == View([1, 2, 3], 3, 0, 0, 0) && ops == [Take(2), Regret, Forget, Take(1)]
    ensures WellFormed(v) && LegalRun(v, ops) && InData(v.data, Ideal(0, 0), ops)
    ensures Outputs(v, ops) == [[1, 2], [], [], [3]]
    ensures IdealOutputs(v.data, Ideal(0, 0), ops) == [[1, 2], [], [], [1]]
  {
    RegretThenForget(v, ops);
    assert v.data[0..2] == [1, 2] && v.data[2..3] == [3] && v.data[0..1] == [1];
  }

  /** Until the next Forget every Regret that is legal goes back to the same mark, however often it is called
      and whatever was read before, and keeps all that was taken since. */
  lemma {:induction false} RegretReturnsToMark(v: View, ops: seq<Op>)
    requires WellFormed(v) && LegalRun(v, ops) && Forget !in ops
    ensures var w := AfterRun(v, ops);
            && WellFormed(w) && w.mark == v.mark && w.taken >= v.taken && w.data == v.data
            && Step(w, Regret) == w.(pos := v.mark)
            && (Legal(w, Regret) <==> w.taken - v.mark <= v.cap)
    decreases |ops|
  {
    if ops != [] {
      StepKeepsForm(v, ops[0]);
      assert ops[0] in ops && Forget !in ops[1..];
      RegretReturnsToMark(Step(v, ops[0]), ops[1..]);
    }
  }

  // ----- the object -----

  lemma Within(data: seq<byte>, a: nat, b: nat, i: nat, j: nat)
    requires a <= b <= |data| && i <= j <= b - a
    ensures data[a..b][i..j] == data[a + i..a + j]
  {
    var x, y := data[a..b][i..j], data[a + i..a + j];
    assert |x| == |y| && forall k :: 0 <= k < |x| ==> x[k] == y[k];
  }

  lemma Adjacent(data: seq<byte>, a: nat, b: nat, c: nat)
    requires a <= b <= c <= |data|
    ensures data[a..b] + data[b..c] == data[a..c]
  {
  }

  class RegretableReader {
    const reader: Source
    var overflow: bool
    var r: nat
    var w: nat
    const buf: array<byte>
    /** Where in the stream the last Forget was. */
    ghost var mark: nat

    ghost predicate Valid()
      reads this, reader, buf
    {
      && mark <= reader.taken <= |reader.data|
      && (overflow <==> reader.taken > mark + buf.Length)
      && (!overflow ==>
            && r <= w <= buf.Length && mark + w == reader.taken
            && buf[..w] == reader.data[mark..reader.taken])
    }

    ghost function Contents(): View
      reads this, reader, buf
      requires Valid()
      ensures WellFormed(Contents()) && (overflow <==> Overflow(Contents()))
    {
      View(reader.data, buf.Length, reader.taken, mark, if overflow then reader.taken else mark + r)
    }

    constructor (reader: Source, size: nat)
      requires reader.taken <= |reader.data|
      ensures Valid() && this.reader == reader && fresh(buf)
      ensures Contents() == View(reader.data, size, reader.taken, reader.taken, reader.taken)
    {
      this.reader := reader;
      buf := new byte[size](_ => 0);
      overflow, r, w := false, 0, 0;
      mark := reader.taken;
    }

    /** Panics after overflow. */
    method Regret()
      requires Valid() && !overflow
      modifies this`r
      ensures Valid() && Contents() == Step(old(Contents()), Op.Regret)
    {
      r := 0;
    }

    /** Panics after overflow. */
    method Forget()
      requires Valid() && !overflow
      modifies this`r, this`w, this`mark
      ensures Valid() && Contents() == Step(old(Contents()), Op.Forget)
    {
      r, w := 0, 0;
      mark := reader.taken;
    }

    /** The second branch of Read: bytes from the buffer. */
    method Replay(p: array<byte>) returns (n: nat)
      requires Valid() && p != buf && !overflow && r < w
      modifies this`r, p
      ensures Valid() && n == if old(w - r) < p.Length then old(w - r) else p.Length
      ensures Contents() == old(Contents()).(pos := old(Contents()).pos + n)
      ensures var at := old(Contents()).pos; p[..n] == reader.data[at..at + n]
    {
      n := if w - r < p.Length then w - r else p.Length;
      ghost var replay := buf[..w][r..r + n];
      Within(reader.data, mark, reader.taken, r, r + n);
      forall i | 0 <= i < n { p[i] := buf[r + i]; }
      assert p[..n] == replay == reader.data[mark + r..mark + r + n];
      r := r + n;
    }

    /** The third branch of Read: new bytes, copied to the buffer as far as it has room. */
    method Fetch(p: array<byte>) returns (n: nat, err: Option<nat>)
      requires Valid() && p != buf && !overflow && r == w
      modifies this`overflow, this`r, this`w, buf, reader`taken, reader`log, p
      ensures Valid() && n <= p.Length
      ensures reader.log == old(reader.log) + [(n, err)]
      ensures var taken := old(Contents()).taken + n; Contents() == old(Contents()).(taken := taken, pos := taken)
      ensures var at := old(Contents()).pos; at + n <= |reader.data| && p[..n] == reader.data[at..at + n]
    {
      ghost var kept, from := buf[..w], reader.taken;
      n, err := reader.Read(p);
      Adjacent(reader.data, mark, from, from + n);
      assert kept + p[..n] == reader.data[mark..from + n];
      var room := buf.Length - w;
      var bn := if n < room then n else room;
      forall i | 0 <= i < bn { buf[w + i] := p[i]; }
      assert buf[..w + bn] == kept + p[..bn];
      w, r := w + bn, w + n;
      if bn < n {
        overflow := true;
      }
    }

    /** What can be replayed is, without a call of the reader below; else the answer is that of one such call. */
    method Read(p: array<byte>) returns (n: nat, err: Option<nat>)
      requires Valid() && p != buf
      modifies this`overflow, this`r, this`w, buf, reader`taken, reader`log, p
      ensures Valid() && n <= p.Length
      ensures Legal(old(Contents()), Take(n)) && Contents() == Step(old(Contents()), Take(n))
      ensures var at := old(Contents()).pos; at + n <= |reader.data| && p[..n] == reader.data[at..at + n]
      ensures if old(Contents()).pos < old(Contents()).taken then
                var left := old(Contents().taken - Contents().pos);
                n == (if left < p.Length then left else p.Length) && err == None && reader.log == old(reader.log)
              else
                reader.log == old(reader.log) + [(n, err)]
    {
      if overflow {
        n, err := reader.Read(p);
      } else if r < w {
        n := Replay(p);
        err := None;
      } else {
        n, err := Fetch(p);
      }
    }
  }
}
