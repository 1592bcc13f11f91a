/**
 * Chunked framing: `chunkedWriter` and the tail of `forwardMITMResponse`, against a decoder for
 * the chunked transfer coding (section 4.1 of RFC 7230) without chunk extensions and trailers,
 * neither of which the writers emit.
 */
module Chunked {
  import opened Basics

  const CRLF: seq<byte> := [13, 10]
  const ZERO_CRLF: seq<byte> := [48, 13, 10]

  // ----- hexadecimal lengths -----

  function HexDigit(d: nat): byte
    requires d < 16
  {
    if d < 10 then 48 + d else 87 + d
  }

  /** `strconv.FormatInt(n, 16)` and `%x`. */
  function Hex(n: nat): seq<byte> {
    if n < 16 then [HexDigit(n)] else Hex(n / 16) + [HexDigit(n % 16)]
  }

  /** A HEXDIG of the grammar, in either case. */
  function DigitValue(b: byte): Option<nat> {
    if 48 <= b <= 57 then Some(b - 48)
    else if 97 <= b <= 102 then Some(b - 87)
    else if 65 <= b <= 70 then Some(b - 55)
    else None
  }

  predicate AllHex(ds: seq<byte>) { forall i :: 0 <= i < |ds| ==> DigitValue(ds[i]).Some? }

  function HexValue(ds: seq<byte>): nat
    requires AllHex(ds)
  {
    if ds == [] then 0 else 16 * HexValue(ds[..|ds| - 1]) + DigitValue(ds[|ds| - 1]).value
  }

  /** How many HEXDIGs bs starts with. */
  function HexRun(bs: seq<byte>): (k: nat)
    ensures k <= |bs| && AllHex(bs[..k])
    ensures k < |bs| ==> DigitValue(bs[k]).None?
  {
    if bs == [] || DigitValue(bs[0]).None? then 0 else 1 + HexRun(bs[1..])
  }

  /** Parsing undoes printing, for every length. */
  lemma {:induction false} HexRoundTrip(n: nat)
    ensures Hex(n) != [] && AllHex(Hex(n)) && HexValue(Hex(n)) == n
  {
    if n >= 16 {
      HexRoundTrip(n / 16);
      assert Hex(n)[..|Hex(n)| - 1] == Hex(n / 16);
    }
  }

  lemma {:induction false} HexRunStops(ds: seq<byte>, rest: seq<byte>)
    requires AllHex(ds) && rest != [] && DigitValue(rest[0]).None?
    ensures HexRun(ds + rest) == |ds|
  {
    if ds == [] {
      assert ds + rest == rest;
    } else {
      assert (ds + rest)[1..] == ds[1..] + rest;
      HexRunStops(ds[1..], rest);
    }
  }

  // ----- the coding -----

  /** One chunk, as both writers frame it. The chunk for no data is a last-chunk and an empty trailer. */
  function Chunk(data: seq<byte>): seq<byte> { Hex(|data|) + CRLF + data + CRLF }

  /** What `chunkedWriter.Write` puts on the wire. */
  function WriteBytes(data: seq<byte>): seq<byte> { if data == [] then [] else Chunk(data) }

  function Encode(writes: seq<seq<byte>>): seq<byte> {
    if writes == [] then [] else WriteBytes(writes[0]) + Encode(writes[1..])
  }

  function Flatten(writes: seq<seq<byte>>): seq<byte> {
    if writes == [] then [] else writes[0] + Flatten(writes[1..])
  }

  /** The body and what follows it, if bs starts with a chunked-body. */
  function Decode(bs: seq<byte>): Option<(seq<byte>, seq<byte>)> {
    var k := HexRun(bs);
    if k == 0 || |bs| < k + 2 || bs[k..k + 2] != CRLF then None
    else
      var size, rest := HexValue(bs[..k]), bs[k + 2..];
      if |rest| < size + 2 || rest[size..size + 2] != CRLF then None
      else if size == 0 then Some(([], rest[2..]))
      else
        match Decode(rest[size + 2..])
        case None => None
        case Some((body, after)) => Some((rest[..size] + body, after))
  }

  lemma LineHead(digits: seq<byte>, behind: seq<byte>)
    requires digits != [] && AllHex(digits)
    ensures var bs := digits + CRLF + behind;
            && HexRun(bs) == |digits| && bs[..|digits|] == digits
            && bs[|digits|..|digits| + 2] == CRLF && bs[|digits| + 2..] == behind
  {
    var tail := CRLF + behind;
    assert tail[0] == 13;
    HexRunStops(digits, tail);
    assert digits + CRLF + behind == digits + tail;
  }

  lemma FrameAppend(a: seq<byte>, b: seq<byte>, c: seq<byte>, d: seq<byte>, e: seq<byte>)
    ensures (a + b + c + d) + e == a + b + (c + d + e)
  {
  }

  /** What a decoder sees at the head of a chunk. */
  lemma ChunkHead(data: seq<byte>, rest: seq<byte>)
    ensures var bs, digits, behind := Chunk(data) + rest, Hex(|data|), data + CRLF + rest;
            && HexRun(bs) == |digits| > 0 && bs[..|digits|] == digits && AllHex(digits) && HexValue(digits) == |data|
            && |bs| >= |digits| + 2 && bs[|digits|..|digits| + 2] == CRLF && bs[|digits| + 2..] == behind
  {
    var digits, behind := Hex(|data|), data + CRLF + rest;
    HexRoundTrip(|data|);
    LineHead(digits, behind);
    FrameAppend(digits, CRLF, data, CRLF, rest);
  }

  lemma ChunkEnd(data: seq<byte>, rest: seq<byte>)
    ensures var behind := data + CRLF + rest;
            && behind[..|data|] == data && behind[|data|..|data| + 2] == CRLF && behind[|data| + 2..] == rest
  {
  }

  /** A decoder that meets a chunk takes its data and goes on behind it; at an empty chunk it is done. */
  lemma DecodeChunk(data: seq<byte>, rest: seq<byte>)
    ensures data == [] ==> Decode(Chunk(data) + rest) == Some(([], rest))
    ensures data != [] ==>
              Decode(Chunk(data) + rest) ==
              match Decode(rest) case None => None case Some((body, after)) => Some((data + body, after))
  {
    ChunkHead(data, rest);
    ChunkEnd(data, rest);
  }

  /** An empty write is nothing to the decoder. */
  lemma DecodeWrite(data: seq<byte>, rest: seq<byte>)
    ensures Decode(WriteBytes(data) + rest) ==
            match Decode(rest) case None => None case Some((body, after)) => Some((data + body, after))
  {
    if data == [] {
      assert WriteBytes(data) + rest == rest;
      assert forall body: seq<byte> :: data + body == body;
    } else {
      DecodeChunk(data, rest);
    }
  }

  /** Writes in front of what a decoder takes for the end of a body. */
  lemma {:induction false} WritesBefore(writes: seq<seq<byte>>, end: seq<byte>, rest: seq<byte>)
    requires Decode(end) == Some(([], rest))
    ensures Decode(Encode(writes) + end) == Some((Flatten(writes), rest))
    decreases |writes|
  {
    if writes == [] {
      assert Encode(writes) + end == end;
    } else {
      var left := Encode(writes[1..]);
      WritesBefore(writes[1..], end, rest);
      assert (WriteBytes(writes[0]) + left) + end == WriteBytes(writes[0]) + (left + end);
      DecodeWrite(writes[0], left + end);
    }
  }

  /** The bytes of Write*, Close and the final CRLF are one chunked-body that decodes to what was written. */
  lemma ChunkedRoundTrip(writes: seq<seq<byte>>, rest: seq<byte>)
    ensures Decode(Encode(writes) + ZERO_CRLF + CRLF + rest) == Some((Flatten(writes), rest))
  {
    var end := ZERO_CRLF + CRLF + rest;
    assert Hex(0) == [48];
    assert end == Chunk([]) + rest;
    DecodeChunk([], rest);
    WritesBefore(writes, end, rest);
    assert Encode(writes) + ZERO_CRLF + CRLF + rest == Encode(writes) + end;
  }

  /** How a body is cut into writes cannot be seen behind the decoder, nor can empty writes. */
  lemma SplitDoesNotMatter(writes: seq<seq<byte>>, others: seq<seq<byte>>)
    requires Flatten(writes) == Flatten(others)
    ensures Decode(Encode(writes) + ZERO_CRLF + CRLF) == Decode(Encode(others) + ZERO_CRLF + CRLF)
  {
    ChunkedRoundTrip(writes, []);
    ChunkedRoundTrip(others, []);
    assert Encode(writes) + ZERO_CRLF + CRLF + [] == Encode(writes) + ZERO_CRLF + CRLF;
    assert Encode(others) + ZERO_CRLF + CRLF + [] == Encode(others) + ZERO_CRLF + CRLF;
  }

  /** A receiver that was told the length of the body: the body and what is left, once enough has come. */
  function Receive(announced: int, sent: seq<byte>): Option<(seq<byte>, seq<byte>)> {
    if 0 <= announced <= |sent| then Some((sent[..announced], sent[announced..])) else None
  }

  /** The receiver gets the body exactly when its length was announced, and never without two stray bytes. */
  ghost predicate LeavesCrlf(announced: int, sent: seq<byte>, body: seq<byte>) {
    && (Receive(announced, sent) == Some((body, CRLF)) <==> announced == |body|)
    && (forall after :: Receive(announced, sent) == Some((body, after)) ==> after == CRLF)
  }

  lemma FixedLengthLeavesStrayBytes(body: seq<byte>, announced: int)
    ensures LeavesCrlf(announced, body + CRLF, body)
  {
    if 0 <= announced <= |body + CRLF| {
      assert |(body + CRLF)[..announced]| == announced;
      assert announced == |body| ==> (body + CRLF)[..announced] == body && (body + CRLF)[announced..] == CRLF;
    }
  }

  // ----- the writers -----

  /** What a sequence of writes has put on the wire. */
  function Accepted(log: seq<(seq<byte>, nat)>): seq<byte> {
    if log == [] then []
    else
      var (p, n) := log[|log| - 1];
      Accepted(log[..|log| - 1]) + (if n <= |p| then p[..n] else p)
  }

  predicate Whole(log: seq<(seq<byte>, nat)>) { forall i :: 0 <= i < |log| ==> log[i].1 == |log[i].0| }

  /** An io.Writer. `lawful`: a short write comes with an error. `failed`: some write was short or had one. */
  class Wire {
    const lawful: bool
    var out: seq<byte>
    var failed: bool
    /** Every write so far, and how much of it was accepted. */
    ghost var log: seq<(seq<byte>, nat)>

    ghost predicate Valid()
      reads this
    {
      out == Accepted(log) && (failed || Whole(log))
    }

    constructor (lawful: bool)
      ensures Valid() && this.lawful == lawful && out == [] && log == [] && !failed
    {
      this.lawful := lawful;
      out, failed, log := [], false, [];
    }

    method Write(p: seq<byte>) returns (n: nat, err: Option<nat>)
      modifies this
      ensures n <= |p| && out == old(out) + p[..n]
      ensures lawful && err == None ==> n == |p|
      ensures failed <==> old(failed) || n < |p| || err.Some?
      ensures log == old(log) + [(p, n)] && (old(Valid()) ==> Valid())
    {
      n :| 0 <= n <= |p|;
      err := *;
      if lawful && n < |p| && err == None {
        err := Some(0);
      }
      out, log := out + p[..n], log + [(p, n)];
      failed := failed || n < |p| || err.Some?;
    }
  }

  datatype Error = WireError(code: nat) | ShortWrite | BodyError

  class ChunkedWriter {
    const wire: Wire

    constructor (wire: Wire)
      ensures this.wire == wire
    {
      this.wire := wire;
    }

    method Write(data: seq<byte>) returns (n: nat, err: Option<Error>)
      modifies wire
      ensures data == [] ==> n == 0 && err == None && wire.out == old(wire.out) && wire.failed == old(wire.failed)
      ensures err == None && wire.lawful ==> n == |data| && wire.out == old(wire.out) + WriteBytes(data)
      ensures err != Some(BodyError)
      ensures wire.lawful ==> old(wire.out) <= wire.out <= old(wire.out) + WriteBytes(data)
      ensures err == None ==> n == |data|
      ensures !old(wire.failed) && wire.lawful ==> (err.Some? <==> wire.failed)
      ensures err.Some? ==> wire.failed
    {
      if |data| == 0 {
        return 0, None;
      }
      var head := Hex(|data|) + CRLF;
      ghost var before := wire.out;
      assert WriteBytes(data) == head + data + CRLF;
      var sent, e := wire.Write(head);
      if e.Some? {
        assert head[..sent] <= head + data + CRLF;
        return 0, Some(WireError(e.value));
      }
      n, e := wire.Write(data);
      if e.Some? {
        assert wire.lawful ==> wire.out == before + (head + data[..n]) && head + data[..n] <= head + data + CRLF;
        return n, Some(WireError(e.value));
      }
      if n != |data| {
        return n, Some(ShortWrite);
      }
      sent, e := wire.Write(CRLF);
      assert wire.lawful ==> wire.out == before + (head + data + CRLF[..sent]);
      err := if e.Some? then Some(WireError(e.value)) else None;
    }

    /** The final 0-length chunk, without the CRLF of the trailer. */
    method Close() returns (err: Option<Error>)
      modifies wire
      ensures err == None && wire.lawful ==> wire.out == old(wire.out) + ZERO_CRLF
      ensures err != Some(BodyError)
      ensures wire.lawful ==> old(wire.out) <= wire.out <= old(wire.out) + ZERO_CRLF
      ensures !old(wire.failed) && wire.lawful ==> (err.Some? <==> wire.failed)
      ensures err.Some? ==> wire.failed
    {
      var n, e := wire.Write(ZERO_CRLF);
      err := if e.Some? then Some(WireError(e.value)) else None;
    }
  }

  /** What a response body delivers: pieces, and then its end or an error. */
  datatype Source = Source(pieces: seq<seq<byte>>, broken: bool)

  /** No error: nothing failed. An error of the body: the body is broken. Any other: the wire failed. */
  predicate Blame(err: Option<Error>, broken: bool, failed: bool) {
    && (err == None ==> !broken && !failed)
    && (err == Some(BodyError) ==> broken && !failed)
    && (err.Some? && err.value != BodyError ==> failed)
  }

  /** `io.Copy(chunked, resp.Body)`. */
  method CopyChunked(cw: ChunkedWriter, body: Source) returns (err: Option<Error>)
    modifies cw.wire
    ensures err == None && cw.wire.lawful ==> cw.wire.out == old(cw.wire.out) + Encode(body.pieces)
    ensures err == None ==> !body.broken
    ensures cw.wire.lawful ==> old(cw.wire.out) <= cw.wire.out <= old(cw.wire.out) + Encode(body.pieces)
    ensures !old(cw.wire.failed) && cw.wire.lawful ==> Blame(err, body.broken, cw.wire.failed)
    ensures err == Some(BodyError) && cw.wire.lawful ==> cw.wire.out == old(cw.wire.out) + Encode(body.pieces)
  {
    var i := 0;
    while i < |body.pieces|
      invariant 0 <= i <= |body.pieces|
      invariant cw.wire.lawful ==> cw.wire.out + Encode(body.pieces[i..]) == old(cw.wire.out) + Encode(body.pieces)
      invariant cw.wire.lawful ==> old(cw.wire.out) <= cw.wire.out
      invariant !old(cw.wire.failed) && cw.wire.lawful ==> !cw.wire.failed
    {
      ghost var before, piece, left := cw.wire.out, body.pieces[i], Encode(body.pieces[i + 1..]);
      assert Encode(body.pieces[i..]) == WriteBytes(piece) + left by {
        assert body.pieces[i..][1..] == body.pieces[i + 1..];
      }
      var n, e := cw.Write(body.pieces[i]);
      assert before + (WriteBytes(piece) + left) == (before + WriteBytes(piece)) + left;
      if e.Some? {
        return e;
      }
      i := i + 1;
    }
    err := if body.broken then Some(BodyError) else None;
  }

  /** `ioutil.ReadAll`. */
  method ReadAll(body: Source) returns (bytes: seq<byte>, err: Option<Error>)
    ensures bytes == Flatten(body.pieces) && err == if body.broken then Some(BodyError) else None
  {
    bytes := [];
    var i := 0;
    while i < |body.pieces|
      invariant 0 <= i <= |body.pieces|
      invariant bytes + Flatten(body.pieces[i..]) == Flatten(body.pieces)
    {
      assert body.pieces[i..][1..] == body.pieces[i + 1..];
      bytes := bytes + body.pieces[i];
      i := i + 1;
    }
    err := if body.broken then Some(BodyError) else None;
  }

  /** The bytes behind the header and in front of the last CRLF: NewBodyLength 0 stands for a length not known. */
  function Framed(newBodyLength: int, pieces: seq<seq<byte>>): seq<byte> {
    if newBodyLength == 0 then Encode(pieces) + ZERO_CRLF else Flatten(pieces)
  }

  function MitmBody(newBodyLength: int, pieces: seq<seq<byte>>): seq<byte> { Framed(newBodyLength, pieces) + CRLF }

  /** What a receiver makes of them: chunked, exactly the body; else the body, if it was told the right length,
      and two stray bytes. */
  ghost predicate Understood(newBodyLength: int, sent: seq<byte>, body: seq<byte>) {
    if newBodyLength == 0 then Decode(sent) == Some((body, [])) else LeavesCrlf(newBodyLength, sent, body)
  }

  lemma BodyIsUnderstood(newBodyLength: int, pieces: seq<seq<byte>>)
    ensures Understood(newBodyLength, MitmBody(newBodyLength, pieces), Flatten(pieces))
  {
    if newBodyLength == 0 {
      ChunkedRoundTrip(pieces, []);
      assert Encode(pieces) + ZERO_CRLF + CRLF + [] == Encode(pieces) + ZERO_CRLF + CRLF;
    } else {
      FixedLengthLeavesStrayBytes(Flatten(pieces), newBodyLength);
    }
  }

  /** The chunked branch of forwardMITMResponse. */
  method SendChunked(conn: Wire, body: Source) returns (err: Option<Error>)
    modifies conn
    ensures err == None ==> !body.broken
    ensures err == None && conn.lawful ==> conn.out == old(conn.out) + Framed(0, body.pieces)
    ensures conn.lawful ==> old(conn.out) <= conn.out <= old(conn.out) + Framed(0, body.pieces)
    ensures !old(conn.failed) && conn.lawful ==> Blame(err, body.broken, conn.failed)
    ensures err == Some(BodyError) && conn.lawful ==> conn.out == old(conn.out) + Encode(body.pieces)
  {
    ghost var before, encoded := conn.out, Encode(body.pieces);
    assert before + (encoded + ZERO_CRLF) == (before + encoded) + ZERO_CRLF;
    var chunked := new ChunkedWriter(conn);
    err := CopyChunked(chunked, body);
    if err.Some? {
      return;
    }
    err := chunked.Close();
  }

  /** The fixed-length branch. */
  method SendFixed(conn: Wire, body: Source) returns (err: Option<Error>)
    modifies conn
    ensures err == None ==> !body.broken
    ensures err == None && conn.lawful ==> conn.out == old(conn.out) + Flatten(body.pieces)
    ensures conn.lawful ==> old(conn.out) <= conn.out <= old(conn.out) + Flatten(body.pieces)
    ensures !old(conn.failed) && conn.lawful ==> Blame(err, body.broken, conn.failed)
    ensures err == Some(BodyError) && conn.lawful ==> conn.out == old(conn.out)
  {
    var bytes;
    bytes, err := ReadAll(body);
    if err.Some? {
      return;
    }
    var n, e := conn.Write(bytes);
    err := if e.Some? then Some(WireError(e.value)) else None;
  }

  /** The tail of forwardMITMResponse, behind the header. */
  method ForwardBody(conn: Wire, newBodyLength: int, body: Source) returns (err: Option<Error>)
    modifies conn
    ensures err == None ==> !body.broken
    ensures err == None && conn.lawful ==> conn.out == old(conn.out) + MitmBody(newBodyLength, body.pieces)
    ensures err == None && conn.lawful ==>
              Understood(newBodyLength, conn.out[|old(conn.out)|..], Flatten(body.pieces))
    ensures conn.lawful ==> old(conn.out) <= conn.out <= old(conn.out) + MitmBody(newBodyLength, body.pieces)
    ensures !old(conn.failed) && conn.lawful ==> Blame(err, body.broken, conn.failed)
    ensures err == Some(BodyError) && conn.lawful ==>
              conn.out == old(conn.out) + (if newBodyLength == 0 then Encode(body.pieces) else [])
  {
    ghost var before, framed := conn.out, Framed(newBodyLength, body.pieces);
    assert before + (framed + CRLF) == (before + framed) + CRLF;
    if newBodyLength == 0 {
      err := SendChunked(conn, body);
    } else {
      err := SendFixed(conn, body);
    }
    if err.Some? {
      return;
    }
    var n, e := conn.Write(CRLF);
    err := if e.Some? then Some(WireError(e.value)) else None;
    if err == None {
      assert conn.lawful ==> conn.out[|before|..] == framed + CRLF;
      BodyIsUnderstood(newBodyLength, body.pieces);
    }
  }
}
