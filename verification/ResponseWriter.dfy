/** The wire format of `notsodumbResponseWriter`. */
module ResponseWriter {
  import opened Basics
  import opened Chunked

  /** Canonical names to values; a missing name reads as the empty string. */
  type Header = map<string, string>

  function Get(h: Header, name: string): string { if name in h then h[name] else "" }

  /** What http.Header.Write and the status line look like on the wire is not part of this model. */
  datatype Format = Format(statusLine: int -> seq<byte>, fields: Header -> seq<byte>)

  /** The writer between two calls. */
  datatype Mode = Mode(header: Header, wrote: bool, chunking: bool, hijacked: bool)

  datatype Call = WriteHeader(code: int) | Write(buf: seq<byte>) | Flush | Hijack

  /** The header WriteHeader sends. */
  function SentHeader(h: Header): Header {
    var framed := if Get(h, "Content-Length") == "" then h["Transfer-Encoding" := "chunked"] else h;
    if Get(framed, "Content-Type") == "" then framed["Content-Type" := "text/html; charset=utf-8"] else framed
  }

  /** A chunked response says so, a Content-Type is given if there was none, and nothing else changes. */
  lemma HeaderIsCompleted(h: Header)
    ensures Get(h, "Content-Length") == "" ==> Get(SentHeader(h), "Transfer-Encoding") == "chunked"
    ensures Get(h, "Content-Length") != "" ==> Get(SentHeader(h), "Transfer-Encoding") == Get(h, "Transfer-Encoding")
    ensures Get(h, "Content-Type") == "" ==> Get(SentHeader(h), "Content-Type") == "text/html; charset=utf-8"
    ensures Get(h, "Content-Type") != "" ==> Get(SentHeader(h), "Content-Type") == Get(h, "Content-Type")
    ensures forall name :: name != "Transfer-Encoding" && name != "Content-Type" ==>
              (name in SentHeader(h) <==> name in h) && Get(SentHeader(h), name) == Get(h, name)
    ensures Get(SentHeader(h), "Content-Length") == Get(h, "Content-Length")
  {
  }

  function HeaderBlock(f: Format, h: Header, code: int): seq<byte> {
    f.statusLine(code) + f.fields(SentHeader(h)) + CRLF
  }

  function AfterHeader(m: Mode): Mode {
    if m.hijacked || m.wrote then m
    else Mode(SentHeader(m.header), true, m.chunking || Get(m.header, "Content-Length") == "", m.hijacked)
  }

  function HeaderBytes(f: Format, m: Mode, code: int): seq<byte> {
    if m.hijacked || m.wrote then [] else HeaderBlock(f, m.header, code)
  }

  /** One Write behind the header; chunked, the empty one is framed like any other. */
  function BodyBytes(m: Mode, buf: seq<byte>): seq<byte> { if !m.hijacked && m.chunking then Chunk(buf) else buf }

  function EndBytes(m: Mode): seq<byte> { (if m.chunking then ZERO_CRLF else []) + CRLF }

  function Sent(f: Format, m: Mode, c: Call): seq<byte> {
    match c
    case WriteHeader(code) => HeaderBytes(f, m, code)
    case Write(buf) => HeaderBytes(f, m, 200) + BodyBytes(AfterHeader(m), buf)
    case Flush => if m.hijacked then [] else HeaderBytes(f, m, 200) + EndBytes(AfterHeader(m))
    case Hijack => []
  }

  function After(m: Mode, c: Call): Mode {
    match c
    case Hijack => m.(hijacked := true)
    case _ => AfterHeader(m)
  }

  // ----- the single writes of a call, which are made whatever becomes of the ones before -----

  function HeaderPieces(f: Format, m: Mode, code: int): seq<seq<byte>> {
    if m.hijacked || m.wrote then [] else [f.statusLine(code), f.fields(SentHeader(m.header)), CRLF]
  }

  function BodyPieces(m: Mode, buf: seq<byte>): seq<seq<byte>> {
    if !m.hijacked && m.chunking then [Hex(|buf|) + CRLF, buf, CRLF] else [buf]
  }

  function EndPieces(m: Mode): seq<seq<byte>> { if m.chunking then [ZERO_CRLF, CRLF] else [CRLF] }

  function Pieces(f: Format, m: Mode, c: Call): seq<seq<byte>> {
    match c
    case WriteHeader(code) => HeaderPieces(f, m, code)
    case Write(buf) => HeaderPieces(f, m, 200) + BodyPieces(AfterHeader(m), buf)
    case Flush => if m.hijacked then [] else HeaderPieces(f, m, 200) + EndPieces(AfterHeader(m))
    case Hijack => []
  }

  lemma {:induction false} FlattenAppend(a: seq<seq<byte>>, b: seq<seq<byte>>)
    ensures Flatten(a + b) == Flatten(a) + Flatten(b)
    decreases |a|
  {
    if a == [] {
      assert a + b == b;
    } else {
      assert (a + b)[1..] == a[1..] + b;
      FlattenAppend(a[1..], b);
    }
  }

  lemma FlattenOne(a: seq<byte>)
    ensures Flatten([a]) == a
  {
    assert [a][1..] == [];
    assert Flatten([a]) == a + Flatten([]);
  }

  lemma FlattenTwo(a: seq<byte>, b: seq<byte>)
    ensures Flatten([a, b]) == a + b
  {
    assert [a, b] == [a] + [b];
    FlattenOne(a);
    FlattenOne(b);
    FlattenAppend([a], [b]);
  }

  lemma FlattenThree(a: seq<byte>, b: seq<byte>, c: seq<byte>)
    ensures Flatten([a, b, c]) == a + b + c
  {
    assert [a, b, c] == [a, b] + [c];
    FlattenTwo(a, b);
    FlattenOne(c);
    FlattenAppend([a, b], [c]);
  }

  lemma HeaderPiecesAreSent(f: Format, m: Mode, code: int)
    ensures Flatten(HeaderPieces(f, m, code)) == HeaderBytes(f, m, code)
  {
    FlattenThree(f.statusLine(code), f.fields(SentHeader(m.header)), CRLF);
  }

  /** The pieces of a call, all accepted, are what it sends. */
  lemma PiecesAreSent(f: Format, m: Mode, c: Call)
    ensures Flatten(Pieces(f, m, c)) == Sent(f, m, c)
  {
    var n := AfterHeader(m);
    match c
    case WriteHeader(code) => HeaderPiecesAreSent(f, m, code);
    case Write(buf) =>
      HeaderPiecesAreSent(f, m, 200);
      FlattenThree(Hex(|buf|) + CRLF, buf, CRLF);
      FlattenOne(buf);
      FlattenAppend(HeaderPieces(f, m, 200), BodyPieces(n, buf));
    case Flush =>
      HeaderPiecesAreSent(f, m, 200);
      FlattenTwo(ZERO_CRLF, CRLF);
      FlattenOne(CRLF);
      FlattenAppend(HeaderPieces(f, m, 200), EndPieces(n));
    case Hijack =>
  }

  /** The log has grown by one entry for each piece, which says how much of it was accepted. */
  ghost predicate Logged(before: seq<(seq<byte>, nat)>, after: seq<(seq<byte>, nat)>, pieces: seq<seq<byte>>) {
    && |after| == |before| + |pieces| && after[..|before|] == before
    && forall i :: 0 <= i < |pieces| ==> after[|before| + i].0 == pieces[i] && after[|before| + i].1 <= |pieces[i]|
  }

  lemma LoggedInTurn(a: seq<(seq<byte>, nat)>, b: seq<(seq<byte>, nat)>, c: seq<(seq<byte>, nat)>,
                     first: seq<seq<byte>>, second: seq<seq<byte>>)
    requires Logged(a, b, first) && Logged(b, c, second)
    ensures Logged(a, c, first + second)
  {
    assert c[..|a|] == c[..|b|][..|a|] == a;
    forall i | 0 <= i < |first + second|
      ensures c[|a| + i].0 == (first + second)[i] && c[|a| + i].1 <= |(first + second)[i]|
    {
      if i < |first| {
        assert c[|a| + i] == c[..|b|][|a| + i];
      } else {
        assert c[|a| + i] == c[|b| + (i - |first|)];
      }
    }
  }

  lemma LogOne(a: seq<(seq<byte>, nat)>, b: seq<(seq<byte>, nat)>, pieces: seq<seq<byte>>, p: seq<byte>, n: nat)
    requires Logged(a, b, pieces) && n <= |p|
    ensures Logged(a, b + [(p, n)], pieces + [p])
  {
    assert (b + [(p, n)])[..|a|] == b[..|a|];
  }

  /** Pieces that are accepted whole put their concatenation on the wire. */
  lemma {:induction false} WholePieces(before: seq<(seq<byte>, nat)>, after: seq<(seq<byte>, nat)>,
                                       pieces: seq<seq<byte>>)
    requires Logged(before, after, pieces) && Whole(after)
    ensures Accepted(after) == Accepted(before) + Flatten(pieces)
    decreases |pieces|
  {
    if pieces == [] {
      assert after == before;
    } else {
      var k := |pieces| - 1;
      var mid, p := after[..|after| - 1], pieces[k];
      assert mid[..|before|] == after[..|before|];
      assert after[|before| + k].0 == p;
      WholePieces(before, mid, pieces[..k]);
      FlattenAppend(pieces[..k], [p]);
      assert pieces == pieces[..k] + [p] && Flatten([p]) == p;
    }
  }

  /** If nothing has failed, what is on the wire is what the call sends. */
  lemma WholeCall(f: Format, m: Mode, c: Call, before: seq<(seq<byte>, nat)>, after: seq<(seq<byte>, nat)>)
    requires Logged(before, after, Pieces(f, m, c))
    ensures Whole(after) ==> Accepted(after) == Accepted(before) + Sent(f, m, c)
  {
    PiecesAreSent(f, m, c);
    if Whole(after) {
      WholePieces(before, after, Pieces(f, m, c));
    }
  }

  // ----- whole runs -----

  function SentAll(f: Format, m: Mode, calls: seq<Call>): seq<byte>
    decreases |calls|
  {
    if calls == [] then [] else Sent(f, m, calls[0]) + SentAll(f, After(m, calls[0]), calls[1..])
  }

  function AfterAll(m: Mode, calls: seq<Call>): Mode
    decreases |calls|
  {
    if calls == [] then m else AfterAll(After(m, calls[0]), calls[1..])
  }

  /** The buffers of the Writes, in order. */
  function Written(calls: seq<Call>): seq<seq<byte>> {
    if calls == [] then []
    else (if calls[0].Write? then [calls[0].buf] else []) + Written(calls[1..])
  }

  predicate OnlyBody(calls: seq<Call>) { forall c :: c in calls ==> c.WriteHeader? || c.Write? }

  /** The status of the response: the first WriteHeader, unless a Write came before it. */
  function Status(calls: seq<Call>): int {
    if calls != [] && calls[0].WriteHeader? then calls[0].code else 200
  }

  function Chunks(bufs: seq<seq<byte>>): seq<byte> {
    if bufs == [] then [] else Chunk(bufs[0]) + Chunks(bufs[1..])
  }

  /** The body of the given writes. */
  function Framed(chunked: bool, bufs: seq<seq<byte>>): seq<byte> { if chunked then Chunks(bufs) else Flatten(bufs) }

  lemma WrittenFirst(chunked: bool, calls: seq<Call>)
    requires calls != []
    ensures Framed(chunked, Written(calls)) ==
            (if calls[0].Write? then (if chunked then Chunk(calls[0].buf) else calls[0].buf) else [])
            + Framed(chunked, Written(calls[1..]))
  {
    if calls[0].Write? {
      assert Written(calls)[0] == calls[0].buf && Written(calls)[1..] == Written(calls[1..]);
    } else {
      assert Written(calls) == Written(calls[1..]);
    }
  }

  lemma SentBehindHeader(f: Format, m: Mode, c: Call)
    requires m.wrote && !m.hijacked && !c.Hijack? && !c.Flush?
    ensures After(m, c) == m
    ensures Sent(f, m, c) == if c.Write? then (if m.chunking then Chunk(c.buf) else c.buf) else []
  {
  }

  /** Behind the header, the writes follow one another, framed or plain, and headers are never sent again. */
  lemma {:induction false} BodyFollows(f: Format, m: Mode, calls: seq<Call>)
    requires m.wrote && !m.hijacked && OnlyBody(calls)
    ensures AfterAll(m, calls) == m
    ensures SentAll(f, m, calls) == Framed(m.chunking, Written(calls))
    decreases |calls|
  {
    if calls != [] {
      assert calls[0] in calls && OnlyBody(calls[1..]);
      SentBehindHeader(f, m, calls[0]);
      BodyFollows(f, m, calls[1..]);
      WrittenFirst(m.chunking, calls);
    }
  }

  lemma FirstCall(f: Format, h: Header, m: Mode, n: Mode, calls: seq<Call>)
    requires OnlyBody(calls) && calls != [] && m == Mode(h, false, false, false) && n == AfterHeader(m)
    ensures AfterAll(m, calls) == n
    ensures SentAll(f, m, calls) == HeaderBlock(f, h, Status(calls)) + Framed(n.chunking, Written(calls))
  {
    assert calls[0] in calls && OnlyBody(calls[1..]);
    BodyFollows(f, n, calls[1..]);
    WrittenFirst(n.chunking, calls);
    assert After(m, calls[0]) == n;
    if calls[0].Write? {
      assert Sent(f, m, calls[0]) == HeaderBlock(f, h, 200) + BodyBytes(n, calls[0].buf);
    }
  }

  /**
   * Every response of WriteHeader calls and Writes that ends with one Flush is one header block,
   * then the body, then the end of the body. The header block is the one for the first code.
   */
  lemma ResponseShape(f: Format, h: Header, calls: seq<Call>)
    requires OnlyBody(calls)
    ensures var m := Mode(h, false, false, false);
            var chunked := Get(h, "Content-Length") == "";
            SentAll(f, m, calls) + Sent(f, AfterAll(m, calls), Flush) ==
              HeaderBlock(f, h, Status(calls)) + Framed(chunked, Written(calls))
              + (if chunked then ZERO_CRLF else []) + CRLF
  {
    var m := Mode(h, false, false, false);
    var n := AfterHeader(m);
    if calls == [] {
      assert Sent(f, m, Flush) == HeaderBlock(f, h, 200) + EndBytes(n);
    } else {
      FirstCall(f, h, m, n, calls);
      assert Sent(f, n, Flush) == EndBytes(n);
    }
  }

  /** Without empty writes, chunks are what `chunkedWriter` would send. */
  lemma {:induction false} ChunksOfNonEmpty(bufs: seq<seq<byte>>)
    requires [] !in bufs
    ensures Chunks(bufs) == Encode(bufs)
  {
    if bufs != [] {
      assert bufs[0] in bufs;
      ChunksOfNonEmpty(bufs[1..]);
    }
  }

  lemma ChunksFirst(bufs: seq<seq<byte>>, rest: seq<byte>)
    requires bufs != []
    ensures Chunks(bufs) + rest == Chunk(bufs[0]) + (Chunks(bufs[1..]) + rest)
  {
    assert (Chunk(bufs[0]) + Chunks(bufs[1..])) + rest == Chunk(bufs[0]) + (Chunks(bufs[1..]) + rest);
  }

  lemma EmptyFirst(bufs: seq<seq<byte>>, rest: seq<byte>)
    requires bufs != [] && bufs[0] == []
    ensures Decode(Chunks(bufs) + rest) == Some(([], Chunks(bufs[1..]) + rest))
  {
    ChunksFirst(bufs, rest);
    DecodeChunk([], Chunks(bufs[1..]) + rest);
  }

  lemma FullFirst(bufs: seq<seq<byte>>, rest: seq<byte>, body: seq<byte>, after: seq<byte>)
    requires bufs != [] && bufs[0] != [] && Decode(Chunks(bufs[1..]) + rest) == Some((body, after))
    ensures Decode(Chunks(bufs) + rest) == Some((bufs[0] + body, after))
  {
    ChunksFirst(bufs, rest);
    DecodeChunk(bufs[0], Chunks(bufs[1..]) + rest);
  }

  lemma FlattenUpTo(bufs: seq<seq<byte>>, i: nat)
    requires i + 1 < |bufs|
    ensures Flatten(bufs[..i + 1]) == bufs[0] + Flatten(bufs[1..][..i]) && bufs[1..][i + 1..] == bufs[i + 2..]
    ensures bufs[1..][i] == bufs[i + 1] && bufs[..i + 1] == [bufs[0]] + bufs[1..][..i]
  {
    assert bufs[..i + 1][1..] == bufs[1..][..i];
  }

  /** The first empty write ends the body for the receiver; everything behind it is left over. */
  lemma {:induction false} EmptyWriteEndsBody(bufs: seq<seq<byte>>, rest: seq<byte>) returns (k: nat)
    requires [] in bufs
    ensures k < |bufs| && bufs[k] == [] && [] !in bufs[..k]
    ensures Decode(Chunks(bufs) + rest) == Some((Flatten(bufs[..k]), Chunks(bufs[k + 1..]) + rest))
  {
    if bufs[0] == [] {
      k := 0;
      EmptyFirst(bufs, rest);
    } else {
      var i := EmptyWriteEndsBody(bufs[1..], rest);
      k := i + 1;
      FlattenUpTo(bufs, i);
      FullFirst(bufs, rest, Flatten(bufs[1..][..i]), Chunks(bufs[1..][i + 1..]) + rest);
    }
  }

  /**
   * The chunked body that the writer sends is accepted whole and decodes to the concatenation of the
   * writes if and only if no write was empty: an empty write is the end of the body for the receiver.
   */
  lemma ChunkedBodyDecodesIffNoEmptyWrite(bufs: seq<seq<byte>>)
    ensures Decode(Chunks(bufs) + ZERO_CRLF + CRLF) == Some((Flatten(bufs), [])) <==> [] !in bufs
  {
    var end := ZERO_CRLF + CRLF;
    assert Chunks(bufs) + ZERO_CRLF + CRLF == Chunks(bufs) + end;
    if [] in bufs {
      var k := EmptyWriteEndsBody(bufs, end);
      assert Chunks(bufs[k + 1..]) + end != [];
    } else {
      ChunksOfNonEmpty(bufs);
      ChunkedRoundTrip(bufs, []);
      assert Encode(bufs) + ZERO_CRLF + CRLF + [] == Chunks(bufs) + end;
    }
  }

  /** With a Content-Length the end is two bytes that no receiver takes for a part of the response. */
  lemma FixedLengthResponse(f: Format, h: Header, calls: seq<Call>, announced: int)
    requires OnlyBody(calls) && Get(h, "Content-Length") != ""
    ensures var m := Mode(h, false, false, false);
            var sent := SentAll(f, m, calls) + Sent(f, AfterAll(m, calls), Flush);
            var head := HeaderBlock(f, h, Status(calls));
            head <= sent && LeavesCrlf(announced, sent[|head|..], Flatten(Written(calls)))
  {
    var m := Mode(h, false, false, false);
    var head, body := HeaderBlock(f, h, Status(calls)), Flatten(Written(calls));
    ResponseShape(f, h, calls);
    FixedLengthLeavesStrayBytes(body, announced);
    assert SentAll(f, m, calls) + Sent(f, AfterAll(m, calls), Flush) == head + (body + CRLF);
  }

  /** One empty write in front of the byte 65: the receiver gets an empty body, and "1 CR LF A CR LF 0 ..." after it. */
  lemma EmptyWriteLosesTheBody()
    ensures Written([Call.Write([]), Call.Write([65])]) == [[], [65]] && Flatten([[], [65]]) == [65]
    ensures Decode(Chunks([[], [65]]) + ZERO_CRLF + CRLF) == Some(([], [49, 13, 10, 65, 13, 10] + ZERO_CRLF + CRLF))
  {
    var bufs: seq<seq<byte>> := [[], [65]];
    var calls := [Call.Write([]), Call.Write([65])];
    assert calls[1..] == [Call.Write([65])] && calls[1..][1..] == [];
    assert bufs[1..] == [[65]] && bufs[1..][1..] == [];
    assert Hex(1) == [49];
    assert Chunks(bufs[1..]) == [49, 13, 10, 65, 13, 10];
    EmptyFirst(bufs, ZERO_CRLF + CRLF);
    assert Chunks(bufs) + ZERO_CRLF + CRLF == Chunks(bufs) + (ZERO_CRLF + CRLF);
    assert Chunks(bufs[1..]) + ZERO_CRLF + CRLF == Chunks(bufs[1..]) + (ZERO_CRLF + CRLF);
  }

  lemma SentWhenHijacked(f: Format, m: Mode, c: Call)
    requires m.hijacked
    ensures After(m, c) == m && Sent(f, m, c) == if c.Write? then c.buf else []
  {
  }

  /** Once hijacked, the writer puts exactly the bytes of each Write on the wire, whatever else is called. */
  lemma {:induction false} HijackedIsTransparent(f: Format, m: Mode, calls: seq<Call>)
    requires m.hijacked
    ensures SentAll(f, m, calls) == Flatten(Written(calls)) && AfterAll(m, calls) == m
    decreases |calls|
  {
    if calls != [] {
      SentWhenHijacked(f, m, calls[0]);
      HijackedIsTransparent(f, m, calls[1..]);
      WrittenFirst(false, calls);
    }
  }

  // ----- the object -----

  /** Errors of the connection are not acted upon: every write of a call is made, `conn.log` says how much of it
      was accepted and, by `conn.Valid`, what is on the wire. While no write has failed it is all of `Sent`. */
  class NotSoDumbResponseWriter {
    const conn: Wire
    const format: Format
    var responseHeader: Header
    var wroteheaders: bool
    var chunking: bool
    var ishijacked: bool

    function State(): Mode
      reads this
    {
      Mode(responseHeader, wroteheaders, chunking, ishijacked)
    }

    constructor (conn: Wire, format: Format, header: Header)
      ensures this.conn == conn && this.format == format && State() == Mode(header, false, false, false)
    {
      this.conn, this.format, responseHeader := conn, format, header;
      wroteheaders, chunking, ishijacked := false, false, false;
    }

    /** The writes of WriteHeader. */
    method WriteBlock(code: int)
      requires conn.Valid()
      modifies conn
      ensures conn.Valid() && (old(conn.failed) ==> conn.failed)
      ensures Logged(old(conn.log), conn.log, [format.statusLine(code), format.fields(responseHeader), CRLF])
    {
      ghost var log := conn.log;
      var status, fields := format.statusLine(code), format.fields(responseHeader);
      var n, err := conn.Write(status);
      LogOne(log, log, [], status, n);
      ghost var mid := conn.log;
      n, err := conn.Write(fields);
      LogOne(log, mid, [status], fields, n);
      mid := conn.log;
      n, err := conn.Write(CRLF);
      LogOne(log, mid, [status, fields], CRLF, n);
    }

    method WriteHeader(code: int)
      requires conn.Valid()
      modifies this, conn
      ensures conn.Valid() && (old(conn.failed) ==> conn.failed)
      ensures State() == After(old(State()), Call.WriteHeader(code))
      ensures Logged(old(conn.log), conn.log, Pieces(format, old(State()), Call.WriteHeader(code)))
      ensures !conn.failed ==> conn.out == old(conn.out) + Sent(format, old(State()), Call.WriteHeader(code))
    {
      ghost var m, log := State(), conn.log;
      if ishijacked || wroteheaders {
        return;
      }
      wroteheaders := true;
      if Get(responseHeader, "Content-Length") == "" {
        responseHeader := responseHeader["Transfer-Encoding" := "chunked"];
        chunking := true;
      }
      if Get(responseHeader, "Content-Type") == "" {
        responseHeader := responseHeader["Content-Type" := "text/html; charset=utf-8"];
      }
      WriteBlock(code);
      assert responseHeader == SentHeader(m.header);
      WholeCall(format, m, Call.WriteHeader(code), log, conn.log);
    }

    /** The part of Write behind the header. */
    method WriteBody(buf: seq<byte>) returns (i: nat, err: Option<nat>)
      requires conn.Valid()
      modifies conn
      ensures conn.Valid() && (old(conn.failed) ==> conn.failed)
      ensures Logged(old(conn.log), conn.log, BodyPieces(State(), buf))
      ensures conn.log[|conn.log| - (if !ishijacked && chunking then 2 else 1)] == (buf, i) && i <= |buf|
    {
      ghost var log, pieces := conn.log, [];
      var line := Hex(|buf|) + CRLF;
      if !ishijacked && chunking {
        var n, e := conn.Write(line);
        LogOne(log, log, [], line, n);
        pieces := [line];
      }
      ghost var mid := conn.log;
      i, err := conn.Write(buf);
      LogOne(log, mid, pieces, buf, i);
      if !ishijacked && chunking {
        mid := conn.log;
        var n, e := conn.Write(CRLF);
        LogOne(log, mid, [line, buf], CRLF, n);
      }
    }

    /** The result is that of the write of buf itself. */
    method Write(buf: seq<byte>) returns (i: nat, err: Option<nat>)
      requires conn.Valid()
      modifies this, conn
      ensures conn.Valid() && (old(conn.failed) ==> conn.failed) && State() == After(old(State()), Call.Write(buf))
      ensures Logged(old(conn.log), conn.log, Pieces(format, old(State()), Call.Write(buf)))
      ensures var at := |conn.log| - (if !ishijacked && chunking then 2 else 1);
              at >= 0 && conn.log[at] == (buf, i) && i <= |buf|
      ensures !conn.failed ==> conn.out == old(conn.out) + Sent(format, old(State()), Call.Write(buf)) && i == |buf|
    {
      ghost var m, log := State(), conn.log;
      if !wroteheaders {
        WriteHeader(200);
      }
      ghost var mid := conn.log;
      i, err := WriteBody(buf);
      LoggedInTurn(log, mid, conn.log, HeaderPieces(format, m, 200), BodyPieces(State(), buf));
      WholeCall(format, m, Call.Write(buf), log, conn.log);
    }

    /** The writes of Flush behind the header. */
    method WriteEnd()
      requires conn.Valid()
      modifies conn
      ensures conn.Valid() && (old(conn.failed) ==> conn.failed)
      ensures Logged(old(conn.log), conn.log, EndPieces(State()))
    {
      ghost var log, mid, pieces := conn.log, conn.log, [];
      if chunking {
        var n, e := conn.Write(ZERO_CRLF);
        LogOne(log, log, [], ZERO_CRLF, n);
        mid, pieces := conn.log, [ZERO_CRLF];
      }
      var n, e := conn.Write(CRLF);
      LogOne(log, mid, pieces, CRLF, n);
    }

    method Flush()
      requires conn.Valid()
      modifies this, conn
      ensures conn.Valid() && (old(conn.failed) ==> conn.failed) && State() == After(old(State()), Call.Flush)
      ensures Logged(old(conn.log), conn.log, Pieces(format, old(State()), Call.Flush))
      ensures !conn.failed ==> conn.out == old(conn.out) + Sent(format, old(State()), Call.Flush)
    {
      if ishijacked {
        return;
      }
      ghost var m, log := State(), conn.log;
      if !wroteheaders {
        WriteHeader(200);
      }
      ghost var mid := conn.log;
      WriteEnd();
      LoggedInTurn(log, mid, conn.log, HeaderPieces(format, m, 200), EndPieces(State()));
      WholeCall(format, m, Call.Flush, log, conn.log);
    }

    /** The writer itself becomes the caller's connection. */
    method Hijack() returns (c: NotSoDumbResponseWriter)
      modifies this
      ensures c == this && State() == After(old(State()), Call.Hijack)
    {
      ishijacked := true;
      c := this;
    }
  }
}
