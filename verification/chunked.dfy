/** The reader of a chunked HTTP body (section 7.1 of RFC 9112) off a socket that delivers it in
    arbitrary pieces. */
module Chunked {
  import opened Wrappers
  import opened Seqs

  type Byte = b: int | 0 <= b < 256
  type Bytes = seq<Byte>

  const CR: Byte := 13
  const LF: Byte := 10
  const CRLF: Bytes := [CR, LF]

  // What the program asks its libraries: whether a header block announces success, whether a
  // payload is blank once decoded and stripped, and what integer a size line denotes in base 16
  // when it is not a plain run of hex digits.
  datatype Library = Library(success: Bytes -> bool, blank: Bytes -> bool, odd: Bytes -> Option<int>)

  // How the reading ended: the stream ran out, the closing chunk came, the header was no success,
  // or a size line was no number.
  datatype End = RanOut | LastChunk | Refused | BadSize

  datatype Reading = Reading(payloads: seq<Bytes>, end: End)

  // -- size lines -------------------------------------------------------------------------

  predicate HexDigit(b: Byte) {
    48 <= b <= 57 || 65 <= b <= 70 || 97 <= b <= 102
  }

  function DigitValue(b: Byte): nat
    requires HexDigit(b)
  {
    if b <= 57 then b - 48 else if b <= 70 then b - 55 else b - 87
  }

  predicate PlainHex(line: Bytes) {
    line != [] && forall b :: b in line ==> HexDigit(b)
  }

  function HexValue(line: Bytes): nat
    requires forall b :: b in line ==> HexDigit(b)
  {
    if line == [] then 0 else 16 * HexValue(line[..|line| - 1]) + DigitValue(line[|line| - 1])
  }

  function SizeOf(lib: Library, line: Bytes): Option<int> {
    if PlainHex(line) then Some(HexValue(line)) else lib.odd(line)
  }

  // -- finding ----------------------------------------------------------------------------

  predicate At(pattern: Bytes, s: Bytes, i: nat) {
    i + |pattern| <= |s| && s[i..i + |pattern|] == pattern
  }

  // Where the pattern first occurs at or after i.
  function Find(pattern: Bytes, s: Bytes, i: nat): (r: Option<nat>)
    ensures r.Some? ==> i <= r.value && At(pattern, s, r.value) && forall j :: i <= j < r.value ==> !At(pattern, s, j)
    ensures r.None? ==> forall j :: i <= j ==> !At(pattern, s, j)
    decreases |s| - i
  {
    if i + |pattern| > |s| then None
    else if At(pattern, s, i) then Some(i)
    else Find(pattern, s, i + 1)
  }

  // What was found in the bytes so far stays where it is when more arrive.
  lemma FindStays(pattern: Bytes, s: Bytes, more: Bytes)
    requires Find(pattern, s, 0).Some?
    ensures Find(pattern, s + more, 0) == Find(pattern, s, 0)
  {
    var i := Find(pattern, s, 0).value;
    forall j: nat | j + |pattern| <= |s|
      ensures At(pattern, s + more, j) == At(pattern, s, j)
    {
      assert (s + more)[j..j + |pattern|] == s[j..j + |pattern|];
    }
    var r := Find(pattern, s + more, 0);
    assert At(pattern, s + more, i);
    assert r.Some? && r.value <= i;
    assert At(pattern, s, r.value);
  }

  // -- the stream as a whole --------------------------------------------------------------

  function Handed(lib: Library, payload: Bytes): seq<Bytes> {
    if lib.blank(payload) then [] else [payload]
  }

  function AndThen(first: seq<Bytes>, r: Reading): Reading {
    r.(payloads := first + r.payloads)
  }

  // What the body s holds, sizes being not negative: the payloads handed on, and how it ends.
  function Body(lib: Library, s: Bytes): Reading
    decreases |s|
  {
    match Find(CRLF, s, 0)
    case None => Reading([], RanOut)
    case Some(i) =>
      match SizeOf(lib, s[..i])
      case None => Reading([], BadSize)
      case Some(n) =>
        if n == 0 then Reading([], LastChunk)
        else if n < 0 || |s| < i + 2 + n + 2 then Reading([], RanOut)
        else AndThen(Handed(lib, s[i + 2..i + 2 + n]), Body(lib, s[i + 2 + n + 2..]))
  }

  function Stream(lib: Library, s: Bytes): Reading {
    match Find(CRLF + CRLF, s, 0)
    case None => Reading([], RanOut)
    case Some(i) => if lib.success(s[..i]) then Body(lib, s[i + 4..]) else Reading([], Refused)
  }

  // No size line of the body that is come to is negative.
  predicate NoNegativeSize(lib: Library, s: Bytes)
    decreases |s|
  {
    match Find(CRLF, s, 0)
    case None => true
    case Some(i) =>
      match SizeOf(lib, s[..i])
      case None => true
      case Some(n) => n == 0 || (n > 0 && (|s| < i + 2 + n + 2 || NoNegativeSize(lib, s[i + 2 + n + 2..])))
  }

  // A successful header is followed by such a body.
  predicate SaneStream(lib: Library, s: Bytes) {
    match Find(CRLF + CRLF, s, 0)
    case None => true
    case Some(i) => lib.success(s[..i]) ==> NoNegativeSize(lib, s[i + 4..])
  }

  // -- pieces -----------------------------------------------------------------------------

  function Joined(pieces: seq<Bytes>): Bytes {
    if pieces == [] then [] else pieces[0] + Joined(pieces[1..])
  }

  // A slice with a bound that may be negative or too large, as the language takes it.
  function Upto(s: Bytes, n: int): Bytes {
    if n >= |s| then s else if n >= 0 then s[..n] else if |s| + n >= 0 then s[..|s| + n] else []
  }

  function From(s: Bytes, n: int): Bytes {
    if n >= |s| then [] else if n >= 0 then s[n..] else if |s| + n >= 0 then s[|s| + n..] else s
  }

  // Receiving until the pattern is in what is pending, or the socket has nothing more: what is
  // pending then, and the pieces still to come.
  function Receive(pattern: Bytes, pending: Bytes, pieces: seq<Bytes>): (r: (Bytes, seq<Bytes>))
    ensures r.0 + Joined(r.1) == pending + Joined(pieces)
    ensures Find(pattern, r.0, 0).None? ==> r.1 == []
    decreases |pieces|
  {
    if Find(pattern, pending, 0).Some? || pieces == [] then (pending, pieces)
    else
      Associates(pending, pieces[0], Joined(pieces[1..]));
      Receive(pattern, pending + pieces[0], pieces[1..])
  }

  // Receiving until n bytes are pending.
  function Fill(n: int, pending: Bytes, pieces: seq<Bytes>): (r: (Bytes, seq<Bytes>))
    ensures r.0 + Joined(r.1) == pending + Joined(pieces)
    ensures |r.0| >= n || r.1 == []
    decreases |pieces|
  {
    if |pending| >= n || pieces == [] then (pending, pieces)
    else
      Associates(pending, pieces[0], Joined(pieces[1..]));
      Fill(n, pending + pieces[0], pieces[1..])
  }

  // One turn of the body loop: how the reading ends, or a payload, what is pending behind it and
  // the pieces still to come.
  datatype Turn = Ends(end: End) | Goes(payload: Bytes, pending: Bytes, pieces: seq<Bytes>)

  // Behind a size line that says n.
  function TakeChunk(n: int, behind: Bytes, pieces: seq<Bytes>): (t: Turn)
    ensures t.Goes? ==> |t.pending + Joined(t.pieces)| <= |behind + Joined(pieces)|
  {
    var (pending, more) := Fill(n + 2, behind, pieces);
    if |pending| < n + 2 then Ends(RanOut) else Goes(Upto(pending, n), From(pending, n + 2), more)
  }

  function TurnOf(lib: Library, start: Bytes, pieces: seq<Bytes>): (t: Turn)
    ensures t.Goes? ==> |t.pending + Joined(t.pieces)| < |start + Joined(pieces)|
  {
    var (line, rest) := Receive(CRLF, start, pieces);
    match Find(CRLF, line, 0)
    case None => Ends(RanOut)
    case Some(i) =>
      match SizeOf(lib, line[..i])
      case None => Ends(BadSize)
      case Some(n) => if n == 0 then Ends(LastChunk) else TakeChunk(n, line[i + 2..], rest)
  }

  // The reading of a body off the pieces of a socket.
  function ReadFrom(lib: Library, start: Bytes, pieces: seq<Bytes>): Reading
    decreases |start + Joined(pieces)|
  {
    match TurnOf(lib, start, pieces)
    case Ends(end) => Reading([], end)
    case Goes(payload, pending, rest) => AndThen(Handed(lib, payload), ReadFrom(lib, pending, rest))
  }

  function ReadAll(lib: Library, pieces: seq<Bytes>): Reading {
    var (data, rest) := Receive(CRLF + CRLF, [], pieces);
    match Find(CRLF + CRLF, data, 0)
    case None => Reading([], RanOut)
    case Some(i) => if lib.success(data[..i]) then ReadFrom(lib, data[i + 4..], rest) else Reading([], Refused)
  }

  // -- the program ------------------------------------------------------------------------

  method ReceiveUntil(pattern: Bytes, start: Bytes, pieces: seq<Bytes>) returns (pending: Bytes, rest: seq<Bytes>)
    ensures (pending, rest) == Receive(pattern, start, pieces)
  {
    pending, rest := start, pieces;
    while Find(pattern, pending, 0).None?
      invariant Receive(pattern, pending, rest) == Receive(pattern, start, pieces)
      decreases |rest|
    {
      if rest == [] {
        return;
      }
      pending, rest := pending + rest[0], rest[1..];
    }
  }

  method ReceiveAtLeast(n: int, start: Bytes, pieces: seq<Bytes>) returns (pending: Bytes, rest: seq<Bytes>)
    ensures (pending, rest) == Fill(n, start, pieces)
  {
    pending, rest := start, pieces;
    while |pending| < n
      invariant Fill(n, pending, rest) == Fill(n, start, pieces)
      decreases |rest|
    {
      if rest == [] {
        return;
      }
      pending, rest := pending + rest[0], rest[1..];
    }
  }

  method ReadChunk(lib: Library, start: Bytes, pieces: seq<Bytes>) returns (t: Turn)
    ensures t == TurnOf(lib, start, pieces)
  {
    var pending, rest := ReceiveUntil(CRLF, start, pieces);
    var i := Find(CRLF, pending, 0);
    if i.None? {
      return Ends(RanOut);
    }
    var size := SizeOf(lib, pending[..i.value]);
    pending := pending[i.value + 2..];
    if size.None? {
      return Ends(BadSize);
    }
    if size.value == 0 {
      return Ends(LastChunk);
    }
    pending, rest := ReceiveAtLeast(size.value + 2, pending, rest);
    if |pending| < size.value + 2 {
      return Ends(RanOut);
    }
    return Goes(Upto(pending, size.value), From(pending, size.value + 2), rest);
  }

  method ReadBody(lib: Library, start: Bytes, pieces: seq<Bytes>) returns (handed: seq<Bytes>, end: End)
    ensures Reading(handed, end) == ReadFrom(lib, start, pieces)
  {
    var pending, rest := start, pieces;
    handed := [];
    AndThenNothing(ReadFrom(lib, start, pieces));
    while true
      invariant AndThen(handed, ReadFrom(lib, pending, rest)) == ReadFrom(lib, start, pieces)
      decreases |pending + Joined(rest)|
    {
      var t := ReadChunk(lib, pending, rest);
      if t.Ends? {
        assert handed + [] == handed;
        return handed, t.end;
      }
      Associates(handed, Handed(lib, t.payload), ReadFrom(lib, t.pending, t.pieces).payloads);
      handed := handed + Handed(lib, t.payload);
      pending, rest := t.pending, t.pieces;
    }
  }

  lemma AndThenNothing(r: Reading)
    ensures AndThen([], r) == r
  {
    assert [] + r.payloads == r.payloads;
  }

  // read_chunked_stream over the pieces the socket delivers.
  method ReadChunkedStream(lib: Library, pieces: seq<Bytes>) returns (handed: seq<Bytes>, end: End)
    ensures Reading(handed, end) == ReadAll(lib, pieces)
  {
    var data, rest := ReceiveUntil(CRLF + CRLF, [], pieces);
    var i := Find(CRLF + CRLF, data, 0);
    if i.None? {
      return [], RanOut;
    }
    if !lib.success(data[..i.value]) {
      return [], Refused;
    }
    handed, end := ReadBody(lib, data[i.value + 4..], rest);
  }

  // -- the pieces do not matter -----------------------------------------------------------

  // What was found at the front of the pending bytes is found in all of them.
  lemma FrontFound(pattern: Bytes, pending: Bytes, tail: Bytes)
    requires Find(pattern, pending, 0).Some?
    ensures var i := Find(pattern, pending, 0).value;
            && Find(pattern, pending + tail, 0) == Some(i)
            && (pending + tail)[..i] == pending[..i]
            && (pending + tail)[i + |pattern|..] == pending[i + |pattern|..] + tail
  {
    FindStays(pattern, pending, tail);
  }

  // The turn took the first chunk of s, or s ends here.
  ghost predicate Reads(lib: Library, s: Bytes, t: Turn) {
    if t.Ends? then Body(lib, s) == Reading([], t.end)
    else && NoNegativeSize(lib, t.pending + Joined(t.pieces))
         && Body(lib, s) == AndThen(Handed(lib, t.payload), Body(lib, t.pending + Joined(t.pieces)))
  }

  lemma TakeReads(lib: Library, s: Bytes, i: nat, n: int, behind: Bytes, rest: seq<Bytes>)
    requires Find(CRLF, s, 0) == Some(i) && SizeOf(lib, s[..i]) == Some(n) && n != 0 && NoNegativeSize(lib, s)
    requires s[i + 2..] == behind + Joined(rest)
    ensures Reads(lib, s, TakeChunk(n, behind, rest))
  {
    var (pending, more) := Fill(n + 2, behind, rest);
    if |pending| < n + 2 {
      assert pending + Joined(more) == pending;
    } else {
      ChunkTaken(lib, s, i, n, pending, Joined(more));
    }
  }

  // What the body says of its front.
  lemma BodyFront(lib: Library, s: Bytes, i: nat)
    requires Find(CRLF, s, 0) == Some(i)
    ensures SizeOf(lib, s[..i]) == None ==> Body(lib, s) == Reading([], BadSize)
    ensures SizeOf(lib, s[..i]) == Some(0) ==> Body(lib, s) == Reading([], LastChunk)
  {
  }

  // What a turn does with a size line.
  function AfterLine(lib: Library, line: Bytes, i: nat, rest: seq<Bytes>): Turn
    requires Find(CRLF, line, 0) == Some(i)
  {
    match SizeOf(lib, line[..i])
    case None => Ends(BadSize)
    case Some(n) => if n == 0 then Ends(LastChunk) else TakeChunk(n, line[i + 2..], rest)
  }

  lemma LineReads(lib: Library, s: Bytes, line: Bytes, i: nat, rest: seq<Bytes>)
    requires s == line + Joined(rest) && Find(CRLF, line, 0) == Some(i) && NoNegativeSize(lib, s)
    ensures Reads(lib, s, AfterLine(lib, line, i, rest))
  {
    FrontFound(CRLF, line, Joined(rest));
    BodyFront(lib, s, i);
    var size := SizeOf(lib, line[..i]);
    if size.Some? && size.value != 0 {
      TakeReads(lib, s, i, size.value, line[i + 2..], rest);
    }
  }

  lemma NoLineReads(lib: Library, s: Bytes)
    requires Find(CRLF, s, 0) == None
    ensures Reads(lib, s, Ends(RanOut))
  {
  }

  // A turn reads the chunk at the front of the body, wherever the pieces end.
  lemma TurnReads(lib: Library, start: Bytes, pieces: seq<Bytes>)
    requires NoNegativeSize(lib, start + Joined(pieces))
    ensures Reads(lib, start + Joined(pieces), TurnOf(lib, start, pieces))
  {
    var s := start + Joined(pieces);
    var (line, rest) := Receive(CRLF, start, pieces);
    if Find(CRLF, line, 0).None? {
      assert line + Joined(rest) == line;
      NoLineReads(lib, s);
    } else {
      var i := Find(CRLF, line, 0).value;
      LineReads(lib, s, line, i, rest);
      assert TurnOf(lib, start, pieces) == AfterLine(lib, line, i, rest);
    }
  }

  lemma {:induction false} ReadFromIsBody(lib: Library, start: Bytes, pieces: seq<Bytes>)
    requires NoNegativeSize(lib, start + Joined(pieces))
    ensures ReadFrom(lib, start, pieces) == Body(lib, start + Joined(pieces))
    decreases |start + Joined(pieces)|
  {
    TurnReads(lib, start, pieces);
    var t := TurnOf(lib, start, pieces);
    if t.Goes? {
      ReadFromIsBody(lib, t.pending, t.pieces);
    }
  }

  /** Unless a size line is negative, what is handed on, and how the reading ends, depends on the
      bytes of the stream alone, not on how the socket split them. */
  lemma PiecesDoNotMatter(lib: Library, pieces: seq<Bytes>)
    requires SaneStream(lib, Joined(pieces))
    ensures ReadAll(lib, pieces) == Stream(lib, Joined(pieces))
  {
    var (data, rest) := Receive(CRLF + CRLF, [], pieces);
    assert [] + Joined(pieces) == Joined(pieces);
    if Find(CRLF + CRLF, data, 0).None? {
      assert data + Joined(rest) == data;
    } else {
      FrontFound(CRLF + CRLF, data, Joined(rest));
      var i := Find(CRLF + CRLF, data, 0).value;
      if lib.success(data[..i]) {
        ReadFromIsBody(lib, data[i + 4..], rest);
      }
    }
  }

  lemma BodyStep(lib: Library, s: Bytes, i: nat, n: int)
    requires Find(CRLF, s, 0) == Some(i) && SizeOf(lib, s[..i]) == Some(n) && n > 0 && |s| >= i + 2 + n + 2
    ensures Body(lib, s) == AndThen(Handed(lib, s[i + 2..i + 2 + n]), Body(lib, s[i + 2 + n + 2..]))
    ensures NoNegativeSize(lib, s) == NoNegativeSize(lib, s[i + 2 + n + 2..])
  {
  }

  lemma SlicesTaken(rest: Bytes, i: nat, n: nat, pending: Bytes, tail: Bytes)
    requires i + 2 <= |rest| && rest[i + 2..] == pending + tail && |pending| >= n + 2
    ensures |rest| >= i + 2 + n + 2
    ensures rest[i + 2..i + 2 + n] == pending[..n] && rest[i + 2 + n + 2..] == pending[n + 2..] + tail
  {
    assert rest[i + 2..i + 2 + n] == rest[i + 2..][..n];
    assert rest[i + 2 + n + 2..] == rest[i + 2..][n + 2..];
  }

  // One chunk of the body, once its bytes are pending.
  lemma ChunkTaken(lib: Library, rest: Bytes, i: nat, n: int, pending: Bytes, tail: Bytes)
    requires Find(CRLF, rest, 0) == Some(i) && SizeOf(lib, rest[..i]) == Some(n) && n != 0
    requires rest[i + 2..] == pending + tail && |pending| >= n + 2
    ensures |From(pending, n + 2) + tail| < |rest|
    ensures NoNegativeSize(lib, rest) ==>
              n > 0 && NoNegativeSize(lib, From(pending, n + 2) + tail)
              && Body(lib, rest) == AndThen(Handed(lib, Upto(pending, n)), Body(lib, From(pending, n + 2) + tail))
  {
    assert |rest| == i + 2 + |pending| + |tail|;
    if n > 0 {
      SlicesTaken(rest, i, n, pending, tail);
      BodyStep(lib, rest, i, n);
      assert Upto(pending, n) == pending[..n] && From(pending, n + 2) == pending[n + 2..];
    }
  }

  /** Two ways to split the same sane bytes hand on the same payloads and end the same way. */
  lemma SplitsAgree(lib: Library, one: seq<Bytes>, other: seq<Bytes>)
    requires SaneStream(lib, Joined(one)) && Joined(one) == Joined(other)
    ensures ReadAll(lib, one) == ReadAll(lib, other)
  {
    PiecesDoNotMatter(lib, one);
    PiecesDoNotMatter(lib, other);
  }

  // -- encoding ---------------------------------------------------------------------------

  // A chunk and the size line it is sent with: any run of hex digits that denotes its length.
  datatype Chunk = Chunk(size: Bytes, payload: Bytes)

  predicate Sendable(c: Chunk) {
    PlainHex(c.size) && c.payload != [] && HexValue(c.size) == |c.payload|
  }

  function Encoded(c: Chunk): Bytes {
    c.size + CRLF + c.payload + CRLF
  }

  // The chunked body of a list of chunks, with the closing chunk.
  function Encode(chunks: seq<Chunk>): Bytes {
    if chunks == [] then [48] + CRLF + CRLF else Encoded(chunks[0]) + Encode(chunks[1..])
  }

  function NonBlank(lib: Library, chunks: seq<Chunk>): seq<Bytes> {
    if chunks == [] then [] else Handed(lib, chunks[0].payload) + NonBlank(lib, chunks[1..])
  }

  // A size line ends at the first line end behind it.
  lemma LineFound(line: Bytes, behind: Bytes)
    requires forall b :: b in line ==> HexDigit(b)
    ensures Find(CRLF, line + CRLF + behind, 0) == Some(|line|)
  {
    var s := line + CRLF + behind;
    assert s[|line|..|line| + 2] == CRLF;
    assert At(CRLF, s, |line|);
    forall j: nat | j < |line|
      ensures !At(CRLF, s, j)
    {
      assert s[j] == line[j] && line[j] in line;
      assert j + 2 <= |s| ==> s[j..j + 2][0] == s[j];
    }
  }

  lemma ChunkAtFront(lib: Library, c: Chunk, rest: Bytes)
    requires Sendable(c)
    ensures var s := Encoded(c) + rest;
            && Body(lib, s) == AndThen(Handed(lib, c.payload), Body(lib, rest))
            && (NoNegativeSize(lib, rest) ==> NoNegativeSize(lib, s))
  {
    var s := Encoded(c) + rest;
    var i, n := |c.size|, |c.payload|;
    var behind := c.payload + CRLF + rest;
    assert s == c.size + CRLF + behind;
    LineFound(c.size, behind);
    assert s[..i] == c.size;
    assert s[i + 2..i + 2 + n] == c.payload && s[i + 2 + n + 2..] == rest;
    BodyStep(lib, s, i, n);
  }

  lemma ClosingChunk(lib: Library, rest: Bytes)
    ensures Body(lib, [48] + CRLF + CRLF + rest) == Reading([], LastChunk)
    ensures NoNegativeSize(lib, [48] + CRLF + CRLF + rest)
  {
    var zero: Bytes := [48];
    var s := zero + CRLF + CRLF + rest;
    assert s == zero + CRLF + (CRLF + rest);
    LineFound(zero, CRLF + rest);
    assert s[..1] == zero;
    assert zero[..0] == [] && HexValue(zero) == 0;
  }

  /** Decoding an encoded list of chunks returns exactly its chunks that are not blank, whatever
      comes behind the closing chunk. */
  lemma {:induction false} DecodeEncode(lib: Library, chunks: seq<Chunk>, rest: Bytes)
    requires forall c :: c in chunks ==> Sendable(c)
    ensures Body(lib, Encode(chunks) + rest) == Reading(NonBlank(lib, chunks), LastChunk)
    ensures NoNegativeSize(lib, Encode(chunks) + rest)
  {
    if chunks == [] {
      ClosingChunk(lib, rest);
    } else {
      DecodeEncode(lib, chunks[1..], rest);
      ChunkAtFront(lib, chunks[0], Encode(chunks[1..]) + rest);
      Associates(Encoded(chunks[0]), Encode(chunks[1..]), rest);
    }
  }

  /** Read off any pieces a socket may deliver, a successful header and an encoded list of chunks
      hand on exactly the chunks that are not blank. */
  lemma ReadEncoded(lib: Library, header: Bytes, chunks: seq<Chunk>, rest: Bytes, pieces: seq<Bytes>)
    requires (forall c :: c in chunks ==> Sendable(c)) && lib.success(header)
    requires Find(CRLF + CRLF, header + (CRLF + CRLF), 0) == Some(|header|)
    requires Joined(pieces) == header + (CRLF + CRLF) + (Encode(chunks) + rest)
    ensures ReadAll(lib, pieces) == Reading(NonBlank(lib, chunks), LastChunk)
  {
    var front := header + (CRLF + CRLF);
    var body := Encode(chunks) + rest;
    FrontFound(CRLF + CRLF, front, body);
    assert front[..|header|] == header && front[|header| + 4..] == [] && [] + body == body;
    DecodeEncode(lib, chunks, rest);
    PiecesDoNotMatter(lib, pieces);
  }

  // -- how a reading ends -----------------------------------------------------------------

  /** A hex digit has the value of its place among the digits, in either case. */
  lemma DigitsMean(b: Byte)
    requires HexDigit(b)
    ensures var v := DigitValue(b);
            v < 16 && ("0123456789abcdef"[v] as int == b || "0123456789ABCDEF"[v] as int == b)
  {
  }

  // The chunks as they are sent, without a closing chunk.
  function Sent(chunks: seq<Chunk>): Bytes {
    if chunks == [] then [] else Encoded(chunks[0]) + Sent(chunks[1..])
  }

  predicate NoLineEnd(s: Bytes) {
    forall j :: 0 <= j < |s| - 1 && s[j] == CR ==> s[j + 1] != LF
  }

  // What comes behind them and why it ends the reading: no size line, one that is no number, one
  // that is zero, or one with too few bytes behind it.
  predicate EndsWith(lib: Library, tail: Bytes, end: End) {
    match end
    case RanOut =>
      || NoLineEnd(tail)
      || exists n: nat :: n <= |tail| && PlainHex(tail[..n]) && CRLF <= tail[n..] && 0 < HexValue(tail[..n]) && |tail| < n + 2 + HexValue(tail[..n]) + 2
    case BadSize => exists n: nat :: n <= |tail| && Find(CRLF, tail, 0) == Some(n) && !PlainHex(tail[..n]) && lib.odd(tail[..n]).None?
    case LastChunk => exists n: nat :: n <= |tail| && PlainHex(tail[..n]) && CRLF <= tail[n..] && HexValue(tail[..n]) == 0
    case Refused => false
  }

  lemma HexLineFound(tail: Bytes, n: nat)
    requires n <= |tail| && PlainHex(tail[..n]) && CRLF <= tail[n..]
    ensures Find(CRLF, tail, 0) == Some(n)
  {
    assert tail == tail[..n] + CRLF + tail[n + 2..];
    LineFound(tail[..n], tail[n + 2..]);
  }

  lemma NoneFound(tail: Bytes)
    requires NoLineEnd(tail)
    ensures Find(CRLF, tail, 0).None?
  {
    forall j: nat
      ensures !At(CRLF, tail, j)
    {
      if j + 2 <= |tail| {
        assert tail[j..j + 2] == [tail[j], tail[j + 1]];
      }
    }
  }

  lemma TailEnds(lib: Library, tail: Bytes, end: End)
    requires EndsWith(lib, tail, end)
    ensures Body(lib, tail) == Reading([], end) && NoNegativeSize(lib, tail)
  {
    match end
    case RanOut =>
      if NoLineEnd(tail) {
        NoneFound(tail);
      } else {
        var n: nat :| n <= |tail| && PlainHex(tail[..n]) && CRLF <= tail[n..] && 0 < HexValue(tail[..n]) && |tail| < n + 2 + HexValue(tail[..n]) + 2;
        HexLineFound(tail, n);
      }
    case BadSize =>
    case LastChunk =>
      var n: nat :| n <= |tail| && PlainHex(tail[..n]) && CRLF <= tail[n..] && HexValue(tail[..n]) == 0;
      HexLineFound(tail, n);
  }

  lemma {:induction false} SentThen(lib: Library, chunks: seq<Chunk>, tail: Bytes, end: End)
    requires (forall c :: c in chunks ==> Sendable(c)) && EndsWith(lib, tail, end)
    ensures Body(lib, Sent(chunks) + tail) == Reading(NonBlank(lib, chunks), end) && NoNegativeSize(lib, Sent(chunks) + tail)
  {
    if chunks == [] {
      TailEnds(lib, tail, end);
      assert Sent(chunks) + tail == tail;
    } else {
      SentThen(lib, chunks[1..], tail, end);
      ChunkAtFront(lib, chunks[0], Sent(chunks[1..]) + tail);
      Associates(Encoded(chunks[0]), Sent(chunks[1..]), tail);
    }
  }

  /** Off any pieces, behind a successful header: the chunks that come whole are handed on, and the
      reading ends as what follows them says. */
  lemma ReadEnds(lib: Library, header: Bytes, chunks: seq<Chunk>, tail: Bytes, end: End, pieces: seq<Bytes>)
    requires (forall c :: c in chunks ==> Sendable(c)) && lib.success(header) && EndsWith(lib, tail, end)
    requires Find(CRLF + CRLF, header + (CRLF + CRLF), 0) == Some(|header|)
    requires Joined(pieces) == header + (CRLF + CRLF) + (Sent(chunks) + tail)
    ensures ReadAll(lib, pieces) == Reading(NonBlank(lib, chunks), end)
  {
    var front := header + (CRLF + CRLF);
    var body := Sent(chunks) + tail;
    FrontFound(CRLF + CRLF, front, body);
    assert front[..|header|] == header && front[|header| + 4..] == [] && [] + body == body;
    SentThen(lib, chunks, tail, end);
    PiecesDoNotMatter(lib, pieces);
  }

  /** Without a successful header nothing is handed on: the reading is refused, or runs out if there is
      no end of a header. */
  lemma ReadRefused(lib: Library, pieces: seq<Bytes>)
    requires var all := Joined(pieces);
             forall i: nat :: Find(CRLF + CRLF, all, 0) == Some(i) ==> i <= |all| && !lib.success(all[..i])
    ensures ReadAll(lib, pieces) == Reading([], if Find(CRLF + CRLF, Joined(pieces), 0).Some? then Refused else RanOut)
  {
    PiecesDoNotMatter(lib, pieces);
  }

  // Every length has a size line.
  function HexDigits(n: nat): (line: Bytes) {
    if n < 16 then [if n < 10 then 48 + n else 87 + n] else HexDigits(n / 16) + [if n % 16 < 10 then 48 + n % 16 else 87 + n % 16]
  }

  lemma {:induction false} HexDigitsDenote(n: nat)
    ensures PlainHex(HexDigits(n)) && HexValue(HexDigits(n)) == n
  {
    var last: Byte := if n % 16 < 10 then 48 + n % 16 else 87 + n % 16;
    if n < 16 {
      assert HexDigits(n) == [last] && HexDigits(n)[..0] == [];
    } else {
      HexDigitsDenote(n / 16);
      assert HexDigits(n)[..|HexDigits(n / 16)|] == HexDigits(n / 16);
    }
  }

  // -- negative sizes ---------------------------------------------------------------------

  // The first negative size line that is come to: what is handed on before it, the size, and the
  // bytes behind the line.
  datatype Negative = Negative(before: seq<Bytes>, size: int, behind: Bytes)

  // What stands at the front of the body: nothing more to read, a negative size, or a whole chunk.
  datatype Front = Over | BelowZero(size: int, behind: Bytes) | Whole(payload: Bytes, rest: Bytes)

  function FrontOf(lib: Library, s: Bytes): (f: Front)
    ensures f.Over? ==> NoNegativeSize(lib, s)
    ensures f.BelowZero? ==> f.size < 0 && |f.behind| < |s| && !NoNegativeSize(lib, s)
    ensures f.Whole? ==> |f.rest| < |s| && NoNegativeSize(lib, s) == NoNegativeSize(lib, f.rest)
  {
    match Find(CRLF, s, 0)
    case None => Over
    case Some(i) =>
      match SizeOf(lib, s[..i])
      case None => Over
      case Some(n) =>
        if n == 0 then Over
        else if n < 0 then BelowZero(n, s[i + 2..])
        else if |s| < i + 2 + n + 2 then Over
        else Whole(s[i + 2..i + 2 + n], s[i + 2 + n + 2..])
  }

  function FirstNegative(lib: Library, s: Bytes): (r: Option<Negative>)
    ensures r.None? <==> NoNegativeSize(lib, s)
    ensures r.Some? ==> r.value.size < 0 && |r.value.behind| < |s|
    decreases |s|
  {
    match FrontOf(lib, s)
    case Over => None
    case BelowZero(size, behind) => Some(Negative([], size, behind))
    case Whole(payload, rest) =>
      match FirstNegative(lib, rest)
      case None => None
      case Some(neg) => Some(neg.(before := Handed(lib, payload) + neg.before))
  }

  // The slices that the negative size takes of all that is behind it, and of all but the last
  // byte, are different ones and both handed on.
  predicate Ample(lib: Library, neg: Negative) {
    && neg.behind != [] && |neg.behind| + neg.size >= 1
    && !lib.blank(Upto(neg.behind, neg.size)) && !lib.blank(Upto(neg.behind[..|neg.behind| - 1], neg.size))
  }

  // The rest of the body, once a chunk is taken off what is pending.
  lemma PrefixMoves(s: Bytes, p: Bytes, last: Bytes, at: nat)
    requires s == p + last && at <= |p|
    ensures s[at..] == p[at..] + last
  {
  }

  lemma FoundInPrefix(pattern: Bytes, s: Bytes, p: Bytes, last: Bytes, i: nat)
    requires s == p + last && Find(pattern, s, 0) == Some(i) && i + |pattern| <= |p|
    ensures Find(pattern, p, 0) == Some(i) && p[..i] == s[..i]
  {
    assert s[i..i + |pattern|] == p[i..i + |pattern|];
    assert At(pattern, p, i);
    FindStays(pattern, p, last);
  }

  // The next turn, when the whole chunk is pending already.
  lemma TurnAtOnce(lib: Library, p: Bytes, pieces: seq<Bytes>, i: nat, n: int)
    requires Find(CRLF, p, 0) == Some(i) && SizeOf(lib, p[..i]) == Some(n) && n != 0 && |p| - (i + 2) >= n + 2
    ensures TurnOf(lib, p, pieces) == Goes(Upto(p[i + 2..], n), From(p[i + 2..], n + 2), pieces)
  {
    assert Receive(CRLF, p, pieces) == (p, pieces);
    assert Fill(n + 2, p[i + 2..], pieces) == (p[i + 2..], pieces);
  }

  // The payload of the negative size comes right after what is before it, cut to what is pending.
  ghost predicate HandsCut(lib: Library, neg: Negative, missing: nat, r: Reading) {
    && missing <= |neg.behind| && |neg.before| < |r.payloads|
    && r.payloads[|neg.before|] == Upto(Left(neg, missing), neg.size)
  }

  lemma CutHere(lib: Library, s: Bytes, p: Bytes, pieces: seq<Bytes>, i: nat, n: int)
    requires s == p + Joined(pieces) && Find(CRLF, s, 0) == Some(i) && SizeOf(lib, s[..i]) == Some(n) && n < 0
    requires |p| > i + 2 && !lib.blank(Upto(p[i + 2..], n))
    ensures HandsCut(lib, Negative([], n, s[i + 2..]), |Joined(pieces)|, ReadFrom(lib, p, pieces))
  {
    FoundInPrefix(CRLF, s, p, Joined(pieces), i);
    TurnAtOnce(lib, p, pieces, i, n);
    PrefixMoves(s, p, Joined(pieces), i + 2);
    assert s[i + 2..][..|s[i + 2..]| - |Joined(pieces)|] == p[i + 2..];
  }

  lemma CutShift(lib: Library, neg: Negative, missing: nat, r: Reading, first: seq<Bytes>)
    requires HandsCut(lib, neg, missing, r)
    ensures HandsCut(lib, neg.(before := first + neg.before), missing, AndThen(first, r))
  {
  }

  lemma ReadOn(lib: Library, p: Bytes, pieces: seq<Bytes>, payload: Bytes, pending: Bytes)
    requires TurnOf(lib, p, pieces) == Goes(payload, pending, pieces)
    ensures ReadFrom(lib, p, pieces) == AndThen(Handed(lib, payload), ReadFrom(lib, pending, pieces))
  {
  }

  lemma SlicesPending(s: Bytes, p: Bytes, last: Bytes, i: nat, n: nat)
    requires s == p + last && |p| >= i + 2 + n + 2
    ensures From(p[i + 2..], n + 2) == p[i + 2 + n + 2..] && Upto(p[i + 2..], n) == s[i + 2..i + 2 + n]
  {
    assert p[i + 2..][n + 2..] == p[i + 2 + n + 2..];
    assert p[i + 2..][..n] == p[i + 2..i + 2 + n] == s[i + 2..i + 2 + n];
  }

  // A chunk that is all there is taken off the front.
  lemma ChunkOff(lib: Library, s: Bytes, p: Bytes, pieces: seq<Bytes>, i: nat, n: int)
    requires s == p + Joined(pieces) && Find(CRLF, s, 0) == Some(i) && SizeOf(lib, s[..i]) == Some(n) && n > 0
    requires |p| >= i + 2 + n + 2
    ensures TurnOf(lib, p, pieces) == Goes(s[i + 2..i + 2 + n], p[i + 2 + n + 2..], pieces)
  {
    FoundInPrefix(CRLF, s, p, Joined(pieces), i);
    TurnAtOnce(lib, p, pieces, i, n);
    SlicesPending(s, p, Joined(pieces), i, n);
  }

  // What is left of the bytes behind the negative size when some are missing.
  function Left(neg: Negative, missing: nat): Bytes
    requires missing <= |neg.behind|
  {
    neg.behind[..|neg.behind| - missing]
  }

  lemma LeftIs(s: Bytes, p: Bytes, last: Bytes, i: nat, n: int)
    requires s == p + last && i + 2 <= |p|
    ensures |last| <= |s[i + 2..]| && Left(Negative([], n, s[i + 2..]), |last|) == p[i + 2..]
  {
  }

  // With at most one byte missing, the negative size hands something on.
  predicate Cuttable(lib: Library, neg: Negative, missing: nat) {
    missing <= 1 && |neg.behind| >= 2 && !lib.blank(Upto(Left(neg, missing), neg.size))
  }

  lemma CuttableBehind(lib: Library, neg: Negative, inner: Negative, before: seq<Bytes>, missing: nat)
    requires Cuttable(lib, neg, missing) && neg == inner.(before := before)
    ensures Cuttable(lib, inner, missing)
  {
  }

  lemma FrontLine(lib: Library, s: Bytes) returns (i: nat, n: int)
    requires !FrontOf(lib, s).Over?
    ensures Find(CRLF, s, 0) == Some(i) && SizeOf(lib, s[..i]) == Some(n)
    ensures FrontOf(lib, s).BelowZero? ==> n < 0 && FrontOf(lib, s) == BelowZero(n, s[i + 2..])
    ensures FrontOf(lib, s).Whole? ==>
              n > 0 && |s| >= i + 2 + n + 2 && FrontOf(lib, s) == Whole(s[i + 2..i + 2 + n], s[i + 2 + n + 2..])
  {
    i := Find(CRLF, s, 0).value;
    n := SizeOf(lib, s[..i]).value;
  }

  lemma CutFront(lib: Library, s: Bytes, p: Bytes, pieces: seq<Bytes>, neg: Negative)
    requires s == p + Joined(pieces) && FrontOf(lib, s) == BelowZero(neg.size, neg.behind) && neg.before == []
    requires Cuttable(lib, neg, |Joined(pieces)|)
    ensures HandsCut(lib, neg, |Joined(pieces)|, ReadFrom(lib, p, pieces))
  {
    var i, n := FrontLine(lib, s);
    LeftIs(s, p, Joined(pieces), i, n);
    CutHere(lib, s, p, pieces, i, n);
  }

  // What is pending of the rest behind a whole chunk.
  lemma PendingRest(lib: Library, s: Bytes, p: Bytes, pieces: seq<Bytes>) returns (q: Bytes)
    requires s == p + Joined(pieces) && FrontOf(lib, s).Whole? && |FrontOf(lib, s).rest| >= |Joined(pieces)|
    ensures FrontOf(lib, s).rest == q + Joined(pieces)
    ensures ReadFrom(lib, p, pieces) == AndThen(Handed(lib, FrontOf(lib, s).payload), ReadFrom(lib, q, pieces))
  {
    var i, n := FrontLine(lib, s);
    q := p[i + 2 + n + 2..];
    PrefixMoves(s, p, Joined(pieces), i + 2 + n + 2);
    ChunkOff(lib, s, p, pieces, i, n);
    ReadOn(lib, p, pieces, s[i + 2..i + 2 + n], q);
  }

  // Whether nothing or only the last byte of the body is still to come.
  lemma {:induction false} NegativeCut(lib: Library, s: Bytes, p: Bytes, pieces: seq<Bytes>, neg: Negative)
    requires s == p + Joined(pieces) && FirstNegative(lib, s) == Some(neg) && Cuttable(lib, neg, |Joined(pieces)|)
    ensures HandsCut(lib, neg, |Joined(pieces)|, ReadFrom(lib, p, pieces))
    decreases |s|
  {
    var front := FrontOf(lib, s);
    if front.BelowZero? {
      CutFront(lib, s, p, pieces, neg);
    } else {
      var inner := FirstNegative(lib, front.rest).value;
      var q := PendingRest(lib, s, p, pieces);
      CuttableBehind(lib, neg, inner, neg.before, |Joined(pieces)|);
      NegativeCut(lib, front.rest, q, pieces, inner);
      CutShift(lib, inner, |Joined(pieces)|, ReadFrom(lib, q, pieces), Handed(lib, front.payload));
    }
  }

  // The first negative size of the body behind a successful header.
  function StreamNegative(lib: Library, s: Bytes): (r: Option<Negative>)
    ensures r.None? <==> SaneStream(lib, s)
  {
    match Find(CRLF + CRLF, s, 0)
    case None => None
    case Some(i) => if lib.success(s[..i]) then FirstNegative(lib, s[i + 4..]) else None
  }

  // The header has come with the first piece.
  lemma HeaderCame(lib: Library, p: Bytes, pieces: seq<Bytes>, i: nat)
    requires Find(CRLF + CRLF, p, 0) == Some(i) && lib.success(p[..i])
    ensures ReadAll(lib, [p] + pieces) == ReadFrom(lib, p[i + 4..], pieces)
  {
    var all := [p] + pieces;
    assert all[0] == p && all[1..] == pieces && [] + p == p;
    assert Receive(CRLF + CRLF, [], all) == Receive(CRLF + CRLF, p, pieces) == (p, pieces);
  }

  lemma HeaderInPrefix(s: Bytes, p: Bytes, last: Bytes, i: nat)
    requires s == p + last && Find(CRLF + CRLF, s, 0) == Some(i) && i + 4 <= |p|
    ensures Find(CRLF + CRLF, p, 0) == Some(i) && p[..i] == s[..i] && s[i + 4..] == p[i + 4..] + last
  {
    FoundInPrefix(CRLF + CRLF, s, p, last, i);
    PrefixMoves(s, p, last, i + 4);
  }

  lemma AmpleLeft(lib: Library, neg: Negative, missing: nat)
    requires Ample(lib, neg) && neg.size < 0 && missing <= 1
    ensures Cuttable(lib, neg, missing)
  {
    assert Left(neg, 0) == neg.behind;
  }

  lemma JoinedFirst(p: Bytes, pieces: seq<Bytes>)
    ensures Joined([p] + pieces) == p + Joined(pieces)
  {
    assert ([p] + pieces)[1..] == pieces;
  }

  // A stream whose pieces are all of it, or all but the last byte and that byte.
  lemma StreamCut(lib: Library, s: Bytes, p: Bytes, pieces: seq<Bytes>, i: nat)
    requires s == p + Joined(pieces) && |Joined(pieces)| <= 1
    requires Find(CRLF + CRLF, s, 0) == Some(i) && lib.success(s[..i])
    requires FirstNegative(lib, s[i + 4..]).Some? && Ample(lib, FirstNegative(lib, s[i + 4..]).value)
    ensures HandsCut(lib, FirstNegative(lib, s[i + 4..]).value, |Joined(pieces)|, ReadAll(lib, [p] + pieces))
  {
    var neg := FirstNegative(lib, s[i + 4..]).value;
    AmpleLeft(lib, neg, |Joined(pieces)|);
    HeaderInPrefix(s, p, Joined(pieces), i);
    HeaderCame(lib, p, pieces, i);
    NegativeCut(lib, s[i + 4..], p[i + 4..], pieces, neg);
  }

  ghost predicate DependsOnPieces(lib: Library, s: Bytes) {
    exists one, other :: Joined(one) == s && Joined(other) == s && ReadAll(lib, one) != ReadAll(lib, other)
  }

  /** Whenever a body behind a successful header comes to a negative size with bytes enough behind
      it to hand on, the pieces do matter: with the last byte in a piece of its own, the payload of
      that size is another one. */
  lemma NegativeSizeMatters(lib: Library, s: Bytes)
    requires StreamNegative(lib, s).Some? && Ample(lib, StreamNegative(lib, s).value)
    ensures var neg := StreamNegative(lib, s).value;
            var once, twice := ReadAll(lib, [s]), ReadAll(lib, [s[..|s| - 1], s[|s| - 1..]]);
            && Joined([s]) == s && Joined([s[..|s| - 1], s[|s| - 1..]]) == s
            && HandsCut(lib, neg, 0, once) && HandsCut(lib, neg, 1, twice) && once.payloads != twice.payloads
  {
    var neg := StreamNegative(lib, s).value;
    var p, last := s[..|s| - 1], s[|s| - 1..];
    assert s == p + last && Joined([last]) == last && Joined([]) == [];
    assert s == s + Joined([]);
    var i := Find(CRLF + CRLF, s, 0).value;
    StreamCut(lib, s, s, [], i);
    StreamCut(lib, s, p, [last], i);
    JoinedFirst(s, []);
    JoinedFirst(p, [last]);
    assert [s] + [] == [s] && [p] + [last] == [p, last];
    assert |Upto(Left(neg, 0), neg.size)| == |Upto(Left(neg, 1), neg.size)| + 1;
  }

  /** For streams that have bytes enough behind their first negative size, if any: what is read
      depends on the pieces exactly if a successful header's body comes to a negative size. */
  lemma PiecesMatterExactly(lib: Library, s: Bytes)
    requires StreamNegative(lib, s).Some? ==> Ample(lib, StreamNegative(lib, s).value)
    ensures DependsOnPieces(lib, s) <==> StreamNegative(lib, s).Some?
  {
    if StreamNegative(lib, s).Some? {
      NegativeSizeMatters(lib, s);
    } else {
      forall one, other | Joined(one) == s && Joined(other) == s
        ensures ReadAll(lib, one) == ReadAll(lib, other)
      {
        SplitsAgree(lib, one, other);
      }
    }
  }

  const MINUS5: Bytes := [45, 53]
  const EIGHT: Bytes := [97, 98, 99, 100, 101, 102, 103, 104]

  lemma MinusLine(behind: Bytes)
    ensures Find(CRLF, MINUS5 + CRLF + behind, 0) == Some(2) && !PlainHex(MINUS5)
    ensures (MINUS5 + CRLF + behind)[..2] == MINUS5 && (MINUS5 + CRLF + behind)[4..] == behind
  {
    var s := MINUS5 + CRLF + behind;
    assert s[2..4] == CRLF && At(CRLF, s, 2);
    assert s[0..2][0] == 45 && s[1..3][0] == 53;
    assert !At(CRLF, s, 0) && !At(CRLF, s, 1);
    assert 45 in MINUS5;
  }

  lemma MinusFiveFront(lib: Library)
    requires lib.odd(MINUS5) == Some(-5)
    ensures FirstNegative(lib, MINUS5 + CRLF + EIGHT) == Some(Negative([], -5, EIGHT))
  {
    MinusLine(EIGHT);
  }

  lemma MinusFiveAmple(lib: Library)
    requires !lib.blank(EIGHT[..3]) && !lib.blank(EIGHT[..2])
    ensures Ample(lib, Negative([], -5, EIGHT))
  {
    assert Upto(EIGHT, -5) == EIGHT[..3] && Upto(EIGHT[..7], -5) == EIGHT[..2];
  }

  /** Such a stream: behind any successful header, the size -5 and eight bytes. */
  lemma MinusFiveMatters(lib: Library, header: Bytes)
    requires lib.success(header) && Find(CRLF + CRLF, header + (CRLF + CRLF), 0) == Some(|header|)
    requires lib.odd(MINUS5) == Some(-5) && !lib.blank(EIGHT[..3]) && !lib.blank(EIGHT[..2])
    ensures var s := header + (CRLF + CRLF) + (MINUS5 + CRLF + EIGHT);
            StreamNegative(lib, s) == Some(Negative([], -5, EIGHT)) && DependsOnPieces(lib, s)
  {
    var front, body := header + (CRLF + CRLF), MINUS5 + CRLF + EIGHT;
    FrontFound(CRLF + CRLF, front, body);
    assert front[..|header|] == header && front[|header| + 4..] == [] && [] + body == body;
    MinusFiveFront(lib);
    MinusFiveAmple(lib);
    PiecesMatterExactly(lib, front + body);
  }
}
