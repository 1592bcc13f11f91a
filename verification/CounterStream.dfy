/**
 * The counter-mode byte stream of counterecryptor.go.  The block cipher is any function from blocks
 * to blocks of the same size; how its key is derived is not part of this model.
 */
module CounterStream {
  import opened Basics

  type Block = seq<byte>

  ghost predicate IsCipher(encrypt: Block -> Block, size: nat) {
    && size > 0
    && (forall b :: |b| == size ==> |encrypt(b)| == size)
  }

  /** Decryption exists: different blocks have different encryptions. */
  ghost predicate Injective(encrypt: Block -> Block, size: nat) {
    forall a, b :: |a| == size && |b| == size && encrypt(a) == encrypt(b) ==> a == b
  }

  // ----- the counter as a little-endian number -----

  function Pow256(n: nat): (p: nat)
    ensures p > 0
  {
    if n == 0 then 1 else 256 * Pow256(n - 1)
  }

  function Value(c: Block): nat {
    if c == [] then 0 else c[0] + 256 * Value(c[1..])
  }

  /** The counter after one pass of the carry loop. */
  function Inc(c: Block): Block {
    if c == [] then [] else if c[0] == 255 then [0] + Inc(c[1..]) else [c[0] + 1] + c[1..]
  }

  /** The carry loop stopped at i: zeros below, one more at i, nothing changed above. */
  lemma {:induction false} CarryStopsAt(c: Block, i: nat, r: Block)
    requires |r| == |c| && i <= |c|
    requires forall k :: 0 <= k < i ==> c[k] == 255 && r[k] == 0
    requires i < |c| ==> c[i] != 255 && r[i] == c[i] + 1
    requires forall k :: i < k < |c| ==> r[k] == c[k]
    ensures r == Inc(c)
    decreases i
  {
    if i > 0 {
      CarryStopsAt(c[1..], i - 1, r[1..]);
      assert r == [r[0]] + r[1..];
    } else if c != [] {
      assert r == [r[0]] + c[1..];
    }
  }

  function IncN(c: Block, n: nat): Block
    decreases n
  {
    if n == 0 then c else IncN(Inc(c), n - 1)
  }

  lemma {:induction false} ValueBound(c: Block)
    ensures Value(c) < Pow256(|c|)
  {
    if c != [] {
      ValueBound(c[1..]);
    }
  }

  lemma {:induction false} ValueInjective(a: Block, b: Block)
    requires |a| == |b| && Value(a) == Value(b)
    ensures a == b
  {
    if a != [] {
      assert a[0] == Value(a) % 256 && b[0] == Value(b) % 256;
      ValueInjective(a[1..], b[1..]);
      assert a == [a[0]] + a[1..] && b == [b[0]] + b[1..];
    }
  }

  lemma {:induction false} IncLength(c: Block)
    ensures |Inc(c)| == |c|
  {
    if c != [] {
      IncLength(c[1..]);
    }
  }

  /** One pass of the carry loop adds 1, modulo 256 to the length. */
  lemma {:induction false} IncAddsOne(c: Block)
    ensures |Inc(c)| == |c|
    ensures Value(Inc(c)) == if Value(c) + 1 == Pow256(|c|) then 0 else Value(c) + 1
  {
    IncLength(c);
    ValueBound(c);
    if c != [] {
      IncAddsOne(c[1..]);
      ValueBound(c[1..]);
      if c[0] == 255 {
        assert Inc(c)[1..] == Inc(c[1..]);
      } else {
        assert Inc(c)[1..] == c[1..];
      }
    }
  }

  lemma {:induction false} IncNValue(c: Block, n: nat)
    requires Value(c) + n < 2 * Pow256(|c|)
    ensures |IncN(c, n)| == |c|
    ensures Value(IncN(c, n)) == if Value(c) + n < Pow256(|c|) then Value(c) + n else Value(c) + n - Pow256(|c|)
    decreases n
  {
    ValueBound(c);
    if n > 0 {
      IncAddsOne(c);
      IncNValue(Inc(c), n - 1);
    }
  }

  lemma {:induction false} IncNLength(c: Block, n: nat)
    ensures |IncN(c, n)| == |c|
    decreases n
  {
    if n > 0 {
      IncLength(c);
      IncNLength(Inc(c), n - 1);
    }
  }

  /** The first 256^len counters are pairwise distinct, and so are the blocks made from them. */
  lemma CountersAreDistinct(encrypt: Block -> Block, c: Block, i: nat, j: nat)
    requires Injective(encrypt, |c|) && i < j < Pow256(|c|)
    ensures IncN(c, i) != IncN(c, j) && encrypt(IncN(c, i)) != encrypt(IncN(c, j))
  {
    ValueBound(c);
    IncNValue(c, i);
    IncNValue(c, j);
  }

  // ----- the stream -----

  /** The bytes of the current block that are still to be read, and the counter. */
  datatype Gen = Gen(pending: seq<byte>, counter: Block)

  /** `refill`. */
  function Refilled(encrypt: Block -> Block, g: Gen): Gen { Gen(encrypt(g.counter), Inc(g.counter)) }

  /** `Read` into a buffer of `want` bytes. */
  function ReadGen(encrypt: Block -> Block, g: Gen, want: nat): (seq<byte>, Gen) {
    var h := if g.pending == [] then Refilled(encrypt, g) else g;
    var n := if |h.pending| > want then want else |h.pending|;
    (h.pending[..n], Gen(h.pending[n..], h.counter))
  }

  /** Byte k of everything that is still to come. */
  ghost function StreamByte(encrypt: Block -> Block, g: Gen, k: nat): byte
    requires IsCipher(encrypt, |g.counter|)
    decreases k, |g.pending| == 0
  {
    if k < |g.pending| then g.pending[k]
    else
      IncLength(g.counter);
      StreamByte(encrypt, Refilled(encrypt, g), k - |g.pending|)
  }

  /** A sequence of reads with the given buffer sizes. */
  function Reads(encrypt: Block -> Block, g: Gen, wants: seq<nat>): (seq<byte>, Gen)
    decreases |wants|
  {
    if wants == [] then ([], g)
    else
      var (out, h) := ReadGen(encrypt, g, wants[0]);
      var (more, z) := Reads(encrypt, h, wants[1..]);
      (out + more, z)
  }

  /** `out` is the beginning of the stream of g, and h continues where it ends. */
  ghost predicate Consumed(encrypt: Block -> Block, g: Gen, out: seq<byte>, h: Gen)
    requires IsCipher(encrypt, |g.counter|)
  {
    && |h.counter| == |g.counter|
    && (forall k :: 0 <= k < |out| ==> out[k] == StreamByte(encrypt, g, k))
    && (forall k: nat :: StreamByte(encrypt, h, k) == StreamByte(encrypt, g, |out| + k))
  }

  lemma ReadGenFollowsStream(encrypt: Block -> Block, g: Gen, want: nat)
    requires IsCipher(encrypt, |g.counter|)
    ensures var (out, h) := ReadGen(encrypt, g, want);
            var left := if g.pending == [] then |g.counter| else |g.pending|;
            Consumed(encrypt, g, out, h) && |out| == if want < left then want else left
  {
    IncLength(g.counter);
    var r := if g.pending == [] then Refilled(encrypt, g) else g;
    assert forall k: nat :: StreamByte(encrypt, r, k) == StreamByte(encrypt, g, k);
    var (out, h) := ReadGen(encrypt, g, want);
    forall k: nat ensures StreamByte(encrypt, h, k) == StreamByte(encrypt, g, |out| + k) {
      assert Refilled(encrypt, h) == Refilled(encrypt, r);
      assert StreamByte(encrypt, h, k) == StreamByte(encrypt, r, |out| + k);
    }
  }

  lemma ConsumedInTurn(encrypt: Block -> Block, g: Gen, out: seq<byte>, h: Gen, more: seq<byte>, z: Gen)
    requires IsCipher(encrypt, |g.counter|)
    requires Consumed(encrypt, g, out, h) && Consumed(encrypt, h, more, z)
    ensures Consumed(encrypt, g, out + more, z)
  {
    forall k | 0 <= k < |out + more| ensures (out + more)[k] == StreamByte(encrypt, g, k) {
      if k >= |out| {
        var i: nat := k - |out|;
        assert StreamByte(encrypt, h, i) == StreamByte(encrypt, g, |out| + i);
      }
    }
    forall k: nat ensures StreamByte(encrypt, z, k) == StreamByte(encrypt, g, |out + more| + k) {
      assert StreamByte(encrypt, h, |more| + k) == StreamByte(encrypt, g, |out| + (|more| + k));
    }
  }

  /** Whatever the buffer sizes, the reads together are the beginning of the one stream. */
  lemma {:induction false} ReadsFollowStream(encrypt: Block -> Block, g: Gen, wants: seq<nat>)
    requires IsCipher(encrypt, |g.counter|)
    ensures var (out, h) := Reads(encrypt, g, wants); Consumed(encrypt, g, out, h)
    decreases |wants|
  {
    if wants != [] {
      var (out, h) := ReadGen(encrypt, g, wants[0]);
      ReadGenFollowsStream(encrypt, g, wants[0]);
      ReadsFollowStream(encrypt, h, wants[1..]);
      var (more, z) := Reads(encrypt, h, wants[1..]);
      ConsumedInTurn(encrypt, g, out, h, more, z);
    }
  }

  /** Two readers of equal generators see the same bytes however they cut up their reads. */
  lemma ChunkingDoesNotMatter(encrypt: Block -> Block, g: Gen, wants: seq<nat>, others: seq<nat>)
    requires IsCipher(encrypt, |g.counter|)
    requires |Reads(encrypt, g, wants).0| <= |Reads(encrypt, g, others).0|
    ensures Reads(encrypt, g, wants).0 <= Reads(encrypt, g, others).0
  {
    ReadsFollowStream(encrypt, g, wants);
    ReadsFollowStream(encrypt, g, others);
  }

  /**
   * The stream in closed form: first what is left of the current block, then the encryptions of
   * the counter, of the counter plus one, and so on.
   */
  lemma {:induction false} StreamIsCounterMode(encrypt: Block -> Block, g: Gen, n: nat, k: nat)
    requires IsCipher(encrypt, |g.counter|) && k < |g.counter|
    ensures |encrypt(IncN(g.counter, n))| == |g.counter|
    ensures StreamByte(encrypt, g, |g.pending| + n * |g.counter| + k) == encrypt(IncN(g.counter, n))[k]
    decreases n
  {
    IncNLength(g.counter, n);
    IncLength(g.counter);
    var r := Refilled(encrypt, g);
    var at := |g.pending| + n * |g.counter| + k;
    assert StreamByte(encrypt, g, at) == StreamByte(encrypt, r, n * |g.counter| + k);
    if n > 0 {
      StreamIsCounterMode(encrypt, r, n - 1, k);
      assert n * |g.counter| + k == |r.pending| + (n - 1) * |r.counter| + k;
    }
  }

  /** After `Seed(b)` the rest of the old block still comes first; the counter blocks of b follow. */
  lemma SeedKeepsCurrentBlock(encrypt: Block -> Block, g: Gen, b: Block, n: nat, k: nat)
    requires |b| == |g.counter| && IsCipher(encrypt, |b|) && k < |b|
    ensures forall i :: 0 <= i < |g.pending| ==> StreamByte(encrypt, Gen(g.pending, b), i) == g.pending[i]
    ensures |encrypt(IncN(b, n))| == |b|
    ensures StreamByte(encrypt, Gen(g.pending, b), |g.pending| + n * |b| + k) == encrypt(IncN(b, n))[k]
  {
    StreamIsCounterMode(encrypt, Gen(g.pending, b), n, k);
  }

  // ----- the object -----

  class CounterEncryptorRand {
    const encrypt: Block -> Block
    const counter: array<byte>
    const rand: array<byte>
    var ix: nat

    ghost predicate Valid()
      reads this
    {
      && IsCipher(encrypt, counter.Length) && rand.Length == counter.Length && rand != counter
      && ix <= rand.Length
    }

    /** What the object still has to give. */
    ghost function View(): Gen
      reads this, counter, rand
      requires Valid()
    {
      Gen(rand[ix..], counter[..])
    }

    /** `start` is the digest of the seed cut to one block, or zeros when there is no seed. */
    constructor (encrypt: Block -> Block, start: Block)
      requires IsCipher(encrypt, |start|)
      ensures Valid() && this.encrypt == encrypt && fresh(counter) && fresh(rand)
      ensures View() == Gen([], start)
    {
      this.encrypt := encrypt;
      var c := new byte[|start|](i requires 0 <= i < |start| => start[i]);
      counter := c;
      rand := new byte[|start|](_ => 0);
      ix := |start|;
      new;
      assert counter[..] == start;
    }

    /** Panics unless b has the length of the counter. */
    method Seed(b: array<byte>)
      requires Valid() && b.Length == counter.Length
      modifies counter
      ensures Valid() && View() == Gen(old(View()).pending, old(b[..]))
    {
      forall i | 0 <= i < b.Length { counter[i] := b[i]; }
      assert counter[..] == old(b[..]);
    }

    method Refill()
      requires Valid()
      modifies this`ix, counter, rand
      ensures Valid() && View() == Refilled(encrypt, old(View()))
    {
      ghost var c := counter[..];
      var block := encrypt(counter[..]);
      forall i | 0 <= i < rand.Length { rand[i] := block[i]; }
      var i := 0;
      while i < counter.Length
        invariant 0 <= i <= counter.Length
        invariant forall k :: 0 <= k < i ==> c[k] == 255 && counter[k] == 0
        invariant forall k :: i <= k < counter.Length ==> counter[k] == c[k]
        invariant rand[..] == block
      {
        counter[i] := if counter[i] == 255 then 0 else counter[i] + 1; // a byte wraps around
        if counter[i] != 0 {
          break;
        }
        i := i + 1;
      }
      CarryStopsAt(c, i, counter[..]);
      ix := 0;
    }

    method Read(b: array<byte>) returns (n: nat)
      requires Valid() && b != counter && b != rand
      modifies this`ix, counter, rand, b
      ensures Valid() && n <= b.Length
      ensures b[..n] == ReadGen(encrypt, old(View()), b.Length).0
      ensures View() == ReadGen(encrypt, old(View()), b.Length).1
      ensures b[n..] == old(b[..])[n..]
    {
      if ix == rand.Length {
        Refill();
      }
      ghost var g := View();
      assert g == if old(View()).pending == [] then Refilled(encrypt, old(View())) else old(View());
      n := rand.Length - ix;
      if n > b.Length {
        n := b.Length;
      }
      forall i | 0 <= i < n { b[i] := rand[ix + i]; }
      assert b[..n] == g.pending[..n];
      ix := ix + n;
      assert View() == Gen(g.pending[n..], g.counter);
    }
  }
}
