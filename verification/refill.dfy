// src/protocol/proxy/endpoint.rs: fill_buffer_from, as written and as evidently intended.
module Refill {
  import opened Wrappers

  const MAX_MESSAGE_BINARY_SIZE: nat := 1024
  const MESSAGE_BUFFER_SIZE: nat := MAX_MESSAGE_BINARY_SIZE + 1

  type Byte = n: nat | n < 256

  /** `ended` is the boolean returned; a slice out of range, and the assertion on entry, panic. */
  datatype Outcome = Filled(ended: bool) | IoError | Panicked

  function Zeros(n: nat): (zeros: seq<Byte>)
    ensures |zeros| == n
  {
    seq(n, _ => 0)
  }

  function Put(data: seq<Byte>, at: nat, chunk: seq<Byte>): (r: seq<Byte>)
    requires at + |chunk| <= |data|
    ensures |r| == |data|
  {
    data[..at] + chunk + data[at + |chunk|..]
  }

  /** The buffer at full size. */
  function Padded(have: seq<Byte>): (r: seq<Byte>)
    requires |have| <= MESSAGE_BUFFER_SIZE
    ensures |r| == MESSAGE_BUFFER_SIZE
  {
    have + Zeros(MESSAGE_BUFFER_SIZE - |have|)
  }

  lemma PutInPadding(have: seq<Byte>, chunk: seq<Byte>)
    requires |have| + |chunk| <= MESSAGE_BUFFER_SIZE
    ensures Put(Padded(have), |have|, chunk) == Padded(have + chunk)
  {}

  lemma PutAfter(before: seq<Byte>, got: seq<Byte>, chunk: seq<Byte>)
    requires |before| + |got| + |chunk| <= MESSAGE_BUFFER_SIZE
    ensures Put(Padded(before + got), |before + got|, chunk) == Padded(before + (got + chunk))
  {
    PutInPadding(before + got, chunk);
    assert before + got + chunk == before + (got + chunk);
  }

  lemma PutBehind(data: seq<Byte>, at: nat, chunk: seq<Byte>, pos: nat)
    requires pos < at && at + |chunk| <= |data|
    ensures Put(data, at, chunk)[pos] == data[pos]
  {}

  lemma PutNothing(data: seq<Byte>, at: nat)
    requires at <= |data|
    ensures Put(data, at, []) == data
  {}

  /** `bytes::BytesMut`, as far as it is used. */
  class BytesMut {
    var data: seq<Byte>

    method Grow(n: nat)
      requires |data| <= n
      modifies this
      ensures data == old(data) + Zeros(n - |old(data)|)
    {
      data := data + Zeros(n - |data|);
    }

    method Truncate(n: nat)
      modifies this
      ensures data == if n < |old(data)| then old(data)[..n] else old(data)
    {
      if n < |data| {
        data := data[..n];
      }
    }

    method Write(at: nat, chunk: seq<Byte>)
      requires at + |chunk| <= |data|
      modifies this
      ensures data == Put(old(data), at, chunk)
    {
      data := data[..at] + chunk + data[at + |chunk|..];
    }
  }

  /** An `AsyncRead`: hands over what is pending in pieces of its own choosing, nothing only when
      there is nothing or no room, and may fail at any time. `failures` counts its failed reads. */
  class Reader {
    var pending: seq<Byte>
    var failures: nat

    constructor (pending: seq<Byte>)
      ensures this.pending == pending && failures == 0
    {
      this.pending := pending;
      failures := 0;
    }

    method Read(room: nat) returns (chunk: Option<seq<Byte>>)
      modifies this
      ensures failures == old(failures) + if chunk.None? then 1 else 0
      ensures chunk.None? ==> pending == old(pending)
      ensures chunk.Some? ==> chunk.value + pending == old(pending) && |chunk.value| <= room
      ensures chunk.Some? && chunk.value == [] ==> room == 0 || pending == []
    {
      if * {
        failures := failures + 1;
        return None;
      }
      var most := if room <= |pending| then room else |pending|;
      var n: nat := 0;
      if most > 0 {
        n :| 1 <= n <= most;
      }
      chunk := Some(pending[..n]);
      pending := pending[n..];
    }

    /** Reads into the slice that starts at `at`. */
    method ReadInto(buffer: BytesMut, at: nat) returns (read: Option<nat>, ghost chunk: seq<Byte>)
      requires at <= |buffer.data|
      modifies this, buffer
      ensures failures == old(failures) + if read.None? then 1 else 0
      ensures read.None? ==> pending == old(pending) && buffer.data == old(buffer.data)
      ensures read.Some? ==>
                && read.value == |chunk| && at + |chunk| <= |old(buffer.data)|
                && chunk + pending == old(pending)
                && buffer.data == Put(old(buffer.data), at, chunk)
                && (chunk == [] ==> at == |old(buffer.data)| || pending == [])
    {
      var piece := Read(|buffer.data| - at);
      if piece.None? {
        return None, [];
      }
      buffer.Write(at, piece.value);
      read, chunk := Some(|piece.value|), piece.value;
    }
  }

  // ---- As intended: the slice advances by what was read -------------------------------------

  /** How much of a stream still fits behind `have` bytes. */
  function Taken(have: nat, stream: seq<Byte>): (k: nat)
    requires have <= MESSAGE_BUFFER_SIZE
    ensures k <= |stream| && have + k <= MESSAGE_BUFFER_SIZE
  {
    if have + |stream| <= MESSAGE_BUFFER_SIZE then |stream| else MESSAGE_BUFFER_SIZE - have
  }

  function Refilled(buffer: seq<Byte>, stream: seq<Byte>): (r: seq<Byte>)
    requires |buffer| <= MESSAGE_BUFFER_SIZE
    ensures |r| <= MESSAGE_BUFFER_SIZE
  {
    buffer + stream[..Taken(|buffer|, stream)]
  }

  /** Part way: `consumed` of the stream is behind the old bytes, the rest is still pending. */
  predicate PartWay(buffer: seq<Byte>, stream: seq<Byte>, consumed: seq<Byte>, pending: seq<Byte>, data: seq<Byte>) {
    && |buffer| + |consumed| <= MESSAGE_BUFFER_SIZE
    && consumed + pending == stream
    && data == Padded(buffer + consumed)
  }

  lemma OnePieceMore(
      buffer: seq<Byte>, stream: seq<Byte>, consumed: seq<Byte>, was: seq<Byte>, chunk: seq<Byte>, pending: seq<Byte>, data: seq<Byte>)
    requires PartWay(buffer, stream, consumed, was, data) && was == chunk + pending
    requires |buffer + consumed| + |chunk| <= MESSAGE_BUFFER_SIZE
    ensures PartWay(buffer, stream, consumed + chunk, pending, Put(data, |buffer + consumed|, chunk))
  {
    PutAfter(buffer, consumed, chunk);
    assert consumed + chunk + pending == consumed + (chunk + pending);
  }

  lemma AllTheWay(buffer: seq<Byte>, stream: seq<Byte>, consumed: seq<Byte>, pending: seq<Byte>, data: seq<Byte>)
    requires PartWay(buffer, stream, consumed, pending, data)
    requires pending == [] || |buffer| + |consumed| == MESSAGE_BUFFER_SIZE
    ensures data[..|buffer| + |consumed|] == Refilled(buffer, stream) && pending == stream[Taken(|buffer|, stream)..]
    ensures |buffer| + |consumed| < MESSAGE_BUFFER_SIZE <==> |buffer| + |stream| < MESSAGE_BUFFER_SIZE
  {
    assert |consumed| == Taken(|buffer|, stream);
    assert stream[..|consumed|] == consumed && stream[|consumed|..] == pending;
  }

  /** Whatever pieces the reader chooses, the buffer ends up with the old bytes and then as much of
      the stream as fits; the rest stays in the reader; the answer is true exactly at the end of the
      stream. A read that fails is the only I/O error, and leaves the buffer at full size, padded. */
  method FillBufferAsIntended(buffer: BytesMut, reader: Reader) returns (r: Outcome, ghost consumed: seq<Byte>)
    modifies buffer, reader
    ensures r == Panicked <==> |old(buffer.data)| > MESSAGE_BUFFER_SIZE
    ensures reader.failures == old(reader.failures) + if r == IoError then 1 else 0
    ensures r.Filled? ==>
              && buffer.data == Refilled(old(buffer.data), old(reader.pending))
              && reader.pending == old(reader.pending)[Taken(|old(buffer.data)|, old(reader.pending))..]
              && (r.ended <==> |old(buffer.data)| + |old(reader.pending)| < MESSAGE_BUFFER_SIZE)
    ensures r.IoError? ==> PartWay(old(buffer.data), old(reader.pending), consumed, reader.pending, buffer.data)
  {
    consumed := [];
    var inBuffer: nat := |buffer.data|;
    if inBuffer > MESSAGE_BUFFER_SIZE {
      return Panicked, consumed;
    }
    ghost var before, stream := buffer.data, reader.pending;
    buffer.Grow(MESSAGE_BUFFER_SIZE);
    assert before + [] == before;
    while true
      invariant reader.failures == old(reader.failures)
      invariant PartWay(before, stream, consumed, reader.pending, buffer.data)
      invariant inBuffer == |before| + |consumed| <= MESSAGE_BUFFER_SIZE
      decreases MESSAGE_BUFFER_SIZE - inBuffer
    {
      ghost var data, was, chunk := buffer.data, reader.pending, [];
      var read;
      read, chunk := reader.ReadInto(buffer, inBuffer);
      if read.None? {
        return IoError, consumed;
      }
      OnePieceMore(before, stream, consumed, was, chunk, reader.pending, data);
      consumed := consumed + chunk;
      inBuffer := inBuffer + read.value;
      if read.value == 0 || inBuffer > MAX_MESSAGE_BINARY_SIZE {
        AllTheWay(before, stream, consumed, reader.pending, buffer.data);
        break;
      }
    }
    buffer.Truncate(inBuffer);
    r := Filled(inBuffer < MESSAGE_BUFFER_SIZE);
  }

  /** Repeated calls compose: refilling from the rest of one stream and what arrives later is
      refilling from both at once, in the bytes, in what stays in the reader and in the answer. */
  lemma RefillComposes(buffer: seq<Byte>, stream: seq<Byte>, later: seq<Byte>)
    requires |buffer| <= MESSAGE_BUFFER_SIZE
    ensures var once, rest := Refilled(buffer, stream), stream[Taken(|buffer|, stream)..] + later;
            && Refilled(once, rest) == Refilled(buffer, stream + later)
            && rest[Taken(|once|, rest)..] == (stream + later)[Taken(|buffer|, stream + later)..]
            && (|once| + |rest| < MESSAGE_BUFFER_SIZE <==> |buffer| + |stream + later| < MESSAGE_BUFFER_SIZE)
  {
    var k := Taken(|buffer|, stream);
    var rest := stream[k..] + later;
    assert stream + later == stream[..k] + rest;
    var j := Taken(|buffer| + k, rest);
    assert Taken(|buffer|, stream + later) == k + j;
    assert (stream[..k] + rest)[..k + j] == stream[..k] + rest[..j];
    assert (stream[..k] + rest)[k + j..] == rest[j..];
  }

  // ---- As written: the slice advances by the whole count ------------------------------------

  function Flat(chunks: seq<seq<Byte>>): seq<Byte> {
    if chunks == [] then [] else Flat(chunks[..|chunks| - 1]) + chunks[|chunks| - 1]
  }

  function Count(have: nat, sizes: seq<nat>): nat {
    if sizes == [] then have else Count(have, sizes[..|sizes| - 1]) + sizes[|sizes| - 1]
  }

  /** Where the slice starts once `sizes` have been read into a buffer that held `have` bytes: each
      read moved it by the count reached then. */
  function Offset(have: nat, sizes: seq<nat>): (offset: nat)
    ensures offset >= Count(have, sizes)
  {
    if sizes == [] then have else Offset(have, sizes[..|sizes| - 1]) + Count(have, sizes)
  }

  function Sizes(chunks: seq<seq<Byte>>): seq<nat> {
    seq(|chunks|, i requires 0 <= i < |chunks| => |chunks[i]|)
  }

  /** The run neither writes out of range nor slices out of range before its last read. */
  predicate InRange(have: nat, sizes: seq<nat>) {
    sizes == [] ||
    var earlier := sizes[..|sizes| - 1];
    InRange(have, earlier) && Offset(have, earlier) + sizes[|sizes| - 1] <= MESSAGE_BUFFER_SIZE
  }

  /** The whole buffer after the chunks have been written where the slice was. */
  function Overlay(buffer: seq<Byte>, chunks: seq<seq<Byte>>): (data: seq<Byte>)
    requires |buffer| <= MESSAGE_BUFFER_SIZE && InRange(|buffer|, Sizes(chunks))
    ensures |data| == MESSAGE_BUFFER_SIZE
    decreases |chunks|
  {
    if chunks == [] then Padded(buffer) else
    var n := |chunks| - 1;
    assert Sizes(chunks)[..n] == Sizes(chunks[..n]);
    Put(Overlay(buffer, chunks[..n]), Offset(|buffer|, Sizes(chunks[..n])), chunks[n])
  }

  lemma {:induction false} CountIsTotal(have: nat, chunks: seq<seq<Byte>>)
    ensures Count(have, Sizes(chunks)) == have + |Flat(chunks)|
  {
    if chunks != [] {
      var n := |chunks| - 1;
      assert Sizes(chunks)[..n] == Sizes(chunks[..n]);
      CountIsTotal(have, chunks[..n]);
    }
  }

  lemma OneSizeMore(have: nat, sizes: seq<nat>, size: nat)
    ensures Count(have, sizes + [size]) == Count(have, sizes) + size
    ensures Offset(have, sizes + [size]) == Offset(have, sizes) + Count(have, sizes) + size
    ensures InRange(have, sizes + [size]) <==> InRange(have, sizes) && Offset(have, sizes) + size <= MESSAGE_BUFFER_SIZE
  {
    assert (sizes + [size])[..|sizes|] == sizes;
  }

  /** What one more read does to the buffer. */
  lemma OneChunkMore(buffer: seq<Byte>, chunks: seq<seq<Byte>>, chunk: seq<Byte>)
    requires |buffer| <= MESSAGE_BUFFER_SIZE && InRange(|buffer|, Sizes(chunks))
    requires Offset(|buffer|, Sizes(chunks)) + |chunk| <= MESSAGE_BUFFER_SIZE
    ensures Sizes(chunks + [chunk]) == Sizes(chunks) + [|chunk|]
    ensures Flat(chunks + [chunk]) == Flat(chunks) + chunk
    ensures InRange(|buffer|, Sizes(chunks + [chunk]))
    ensures Overlay(buffer, chunks + [chunk]) == Put(Overlay(buffer, chunks), Offset(|buffer|, Sizes(chunks)), chunk)
  {
    var longer := chunks + [chunk];
    assert longer[..|chunks|] == chunks;
    assert Sizes(longer) == Sizes(chunks) + [|chunk|];
    OneSizeMore(|buffer|, Sizes(chunks), |chunk|);
  }

  /** The empty read that ends a run is not counted among the chunks. */
  function WithChunk(chunks: seq<seq<Byte>>, chunk: seq<Byte>): seq<seq<Byte>> {
    if chunk == [] then chunks else chunks + [chunk]
  }

  /** Where the loop stands after `chunks`. */
  predicate Tracks(buffer: seq<Byte>, chunks: seq<seq<Byte>>, inBuffer: nat, offset: nat, data: seq<Byte>) {
    && |buffer| <= MESSAGE_BUFFER_SIZE && InRange(|buffer|, Sizes(chunks))
    && inBuffer == Count(|buffer|, Sizes(chunks))
    && offset == Offset(|buffer|, Sizes(chunks))
    && data == Overlay(buffer, chunks)
  }

  /** After one more read the count is right and within the buffer; the slice is yet to move. */
  lemma ReadTracked(buffer: seq<Byte>, chunks: seq<seq<Byte>>, inBuffer: nat, offset: nat, data: seq<Byte>, chunk: seq<Byte>)
    requires Tracks(buffer, chunks, inBuffer, offset, data) && offset + |chunk| <= MESSAGE_BUFFER_SIZE
    ensures Tracks(buffer, WithChunk(chunks, chunk), inBuffer + |chunk|,
                   if chunk == [] then offset else offset + inBuffer + |chunk|, Put(data, offset, chunk))
  {
    if chunk == [] {
      PutNothing(data, offset);
    } else {
      OneChunkMore(buffer, chunks, chunk);
      OneSizeMore(|buffer|, Sizes(chunks), |chunk|);
    }
  }

  predicate NonEmpty(chunks: seq<seq<Byte>>) {
    forall i | 0 <= i < |chunks| :: chunks[i] != []
  }

  lemma ReadKept(chunks: seq<seq<Byte>>, chunk: seq<Byte>, pending: seq<Byte>)
    requires NonEmpty(chunks)
    ensures Flat(WithChunk(chunks, chunk)) + pending == Flat(chunks) + (chunk + pending)
    ensures NonEmpty(WithChunk(chunks, chunk))
  {
    if chunk == [] {
      assert chunk + pending == pending;
    } else {
      assert (chunks + [chunk])[..|chunks|] == chunks;
      assert Flat(chunks) + chunk + pending == Flat(chunks) + (chunk + pending);
    }
  }

  /** What a run with these non-empty reads comes to, for each result: the bytes it holds are
      `Overlay`, as many as it held and read and never more than fit, because the offset is never
      behind the count. */
  predicate Leaves(buffer: seq<Byte>, chunks: seq<seq<Byte>>, pending: seq<Byte>, r: Outcome, data: seq<Byte>) {
    && |buffer| <= MESSAGE_BUFFER_SIZE && InRange(|buffer|, Sizes(chunks))
    && var offset, count := Offset(|buffer|, Sizes(chunks)), |buffer| + |Flat(chunks)|;
       match r
       case Panicked => offset > MESSAGE_BUFFER_SIZE && count < MESSAGE_BUFFER_SIZE
       case IoError => offset <= MESSAGE_BUFFER_SIZE && data == Overlay(buffer, chunks)
       case Filled(ended) =>
         && count <= MESSAGE_BUFFER_SIZE && data == Overlay(buffer, chunks)[..count]
         && (ended <==> count < MESSAGE_BUFFER_SIZE)
         && (ended ==> offset <= MESSAGE_BUFFER_SIZE && (pending == [] || offset == MESSAGE_BUFFER_SIZE))
  }

  lemma LeavesIoError(buffer: seq<Byte>, chunks: seq<seq<Byte>>, inBuffer: nat, offset: nat, data: seq<Byte>, pending: seq<Byte>)
    requires Tracks(buffer, chunks, inBuffer, offset, data) && offset <= MESSAGE_BUFFER_SIZE
    ensures Leaves(buffer, chunks, pending, IoError, data)
  {}

  lemma LeavesPanicked(buffer: seq<Byte>, chunks: seq<seq<Byte>>, inBuffer: nat, offset: nat, data: seq<Byte>, pending: seq<Byte>)
    requires Tracks(buffer, chunks, inBuffer, offset, data) && offset > MESSAGE_BUFFER_SIZE > inBuffer
    ensures Leaves(buffer, chunks, pending, Panicked, data)
  {
    CountIsTotal(|buffer|, chunks);
  }

  lemma LeavesFilled(buffer: seq<Byte>, chunks: seq<seq<Byte>>, inBuffer: nat, offset: nat, data: seq<Byte>, pending: seq<Byte>)
    requires Tracks(buffer, chunks, inBuffer, offset, data) && inBuffer <= MESSAGE_BUFFER_SIZE
    requires inBuffer < MESSAGE_BUFFER_SIZE ==> offset <= MESSAGE_BUFFER_SIZE && (pending == [] || offset == MESSAGE_BUFFER_SIZE)
    ensures Leaves(buffer, chunks, pending, Filled(inBuffer < MESSAGE_BUFFER_SIZE), data[..inBuffer])
  {
    CountIsTotal(|buffer|, chunks);
  }

  /** As written. `chunks` are the non-empty reads. */
  method FillBufferFrom(buffer: BytesMut, reader: Reader) returns (r: Outcome, ghost chunks: seq<seq<Byte>>)
    modifies buffer, reader
    ensures Flat(chunks) + reader.pending == old(reader.pending) && NonEmpty(chunks)
    ensures reader.failures == old(reader.failures) + if r == IoError then 1 else 0
    ensures |old(buffer.data)| > MESSAGE_BUFFER_SIZE ==> r == Panicked
    ensures |old(buffer.data)| <= MESSAGE_BUFFER_SIZE ==> Leaves(old(buffer.data), chunks, reader.pending, r, buffer.data)
  {
    chunks := [];
    var inBuffer: nat := |buffer.data|;
    if inBuffer > MESSAGE_BUFFER_SIZE {
      return Panicked, chunks;
    }
    ghost var before, stream := buffer.data, reader.pending;
    buffer.Grow(MESSAGE_BUFFER_SIZE);
    var offset: nat := inBuffer;
    while true
      invariant reader.failures == old(reader.failures)
      invariant Flat(chunks) + reader.pending == stream && NonEmpty(chunks)
      invariant Tracks(before, chunks, inBuffer, offset, buffer.data)
      invariant inBuffer <= offset <= MESSAGE_BUFFER_SIZE == |buffer.data|
      decreases MESSAGE_BUFFER_SIZE - inBuffer
    {
      ghost var was, data, chunk := chunks, buffer.data, [];
      var read;
      read, chunk := reader.ReadInto(buffer, offset);
      if read.None? {
        LeavesIoError(before, chunks, inBuffer, offset, data, reader.pending);
        return IoError, chunks;
      }
      ReadTracked(before, was, inBuffer, offset, data, chunk);
      ReadKept(was, chunk, reader.pending);
      chunks := WithChunk(was, chunk);
      inBuffer := inBuffer + read.value;
      if read.value == 0 || inBuffer > MAX_MESSAGE_BINARY_SIZE {
        LeavesFilled(before, chunks, inBuffer, if read.value == 0 then offset else offset + inBuffer, buffer.data, reader.pending);
        break;
      }
      if inBuffer > MESSAGE_BUFFER_SIZE - offset {
        LeavesPanicked(before, chunks, inBuffer, offset + inBuffer, buffer.data, reader.pending);
        return Panicked, chunks;
      }
      offset := offset + inBuffer;
    }
    buffer.Truncate(inBuffer);
    r := Filled(inBuffer < MESSAGE_BUFFER_SIZE);
  }

  /** A run that meets no I/O error panics exactly when the slice would have to start behind the end of
      the buffer while there is still room to read. */
  lemma PanicsIff(buffer: seq<Byte>, chunks: seq<seq<Byte>>, pending: seq<Byte>, r: Outcome, data: seq<Byte>)
    requires Leaves(buffer, chunks, pending, r, data) && r != IoError
    ensures r == Panicked <==>
            Offset(|buffer|, Sizes(chunks)) > MESSAGE_BUFFER_SIZE && |buffer| + |Flat(chunks)| < MESSAGE_BUFFER_SIZE
  {}

  /** "End of stream" is answered with bytes still pending exactly when the slice has run out before
      the buffer is full. */
  lemma EarlyTrueIff(buffer: seq<Byte>, chunks: seq<seq<Byte>>, pending: seq<Byte>, r: Outcome, data: seq<Byte>)
    requires Leaves(buffer, chunks, pending, r, data) && r.Filled? && pending != []
    ensures r.ended <==>
            Offset(|buffer|, Sizes(chunks)) == MESSAGE_BUFFER_SIZE && |buffer| + |Flat(chunks)| < MESSAGE_BUFFER_SIZE
  {}

  lemma OneRead(buffer: seq<Byte>, chunk: seq<Byte>)
    requires |buffer| + |chunk| <= MESSAGE_BUFFER_SIZE
    ensures InRange(|buffer|, Sizes([chunk])) && Flat([chunk]) == chunk
    ensures Offset(|buffer|, Sizes([chunk])) == 2 * |buffer| + |chunk|
  {
    assert [] + [chunk] == [chunk];
    assert Flat([]) + chunk == chunk;
    OneChunkMore(buffer, [], chunk);
    OneSizeMore(|buffer|, [], |chunk|);
  }

  /** 600 bytes held and one read of a single byte: the only result without an I/O error is a panic. */
  lemma PanicExample(buffer: seq<Byte>, pending: seq<Byte>, r: Outcome, data: seq<Byte>)
    requires |buffer| == 600 && Leaves(buffer, [[7]], pending, r, data) && r != IoError
    ensures r == Panicked
  {
    OneRead(buffer, [7]);
    PanicsIff(buffer, [[7]], pending, r, data);
  }

  /** One byte held and one read of 1023: 1024 bytes, room for one more, and the answer is "end of
      stream" whatever is still pending. */
  lemma EarlyTrueExample(buffer: seq<Byte>, chunk: seq<Byte>, pending: seq<Byte>, r: Outcome, data: seq<Byte>)
    requires |buffer| == 1 && |chunk| == 1023 && pending != []
    requires Leaves(buffer, [chunk], pending, r, data) && r != IoError
    ensures r == Filled(true)
  {
    OneRead(buffer, chunk);
    PanicsIff(buffer, [chunk], pending, r, data);
    EarlyTrueIff(buffer, [chunk], pending, r, data);
  }

  /** The whole buffer has come out right: old bytes, read bytes, padding. */
  predicate RightWhenPadded(buffer: seq<Byte>, chunks: seq<seq<Byte>>)
    requires |buffer| <= MESSAGE_BUFFER_SIZE && InRange(|buffer|, Sizes(chunks))
  {
    && |buffer| + |Flat(chunks)| <= MESSAGE_BUFFER_SIZE
    && Overlay(buffer, chunks) == Padded(buffer + Flat(chunks))
  }

  /** A read that lands at the count keeps things right. */
  lemma AlignedStaysRight(buffer: seq<Byte>, chunks: seq<seq<Byte>>, chunk: seq<Byte>)
    requires |buffer| <= MESSAGE_BUFFER_SIZE && InRange(|buffer|, Sizes(chunks)) && RightWhenPadded(buffer, chunks)
    requires Offset(|buffer|, Sizes(chunks)) + |chunk| <= MESSAGE_BUFFER_SIZE
    requires Offset(|buffer|, Sizes(chunks)) == |buffer + Flat(chunks)|
    ensures InRange(|buffer|, Sizes(chunks + [chunk])) && RightWhenPadded(buffer, chunks + [chunk])
  {
    OneChunkMore(buffer, chunks, chunk);
    PutAfter(buffer, Flat(chunks), chunk);
  }

  /** How many reads are sure to land right. */
  function Aligned(buffer: seq<Byte>): nat {
    if buffer == [] then 2 else 1
  }

  lemma {:induction false} FewReadsAreRight(buffer: seq<Byte>, chunks: seq<seq<Byte>>)
    requires |buffer| <= MESSAGE_BUFFER_SIZE && InRange(|buffer|, Sizes(chunks)) && |chunks| <= Aligned(buffer)
    ensures RightWhenPadded(buffer, chunks)
    decreases |chunks|
  {
    if chunks == [] {
      assert buffer + Flat(chunks) == buffer;
    } else {
      var n := |chunks| - 1;
      assert chunks == chunks[..n] + [chunks[n]];
      assert Sizes(chunks) == Sizes(chunks[..n]) + [|chunks[n]|];
      OneSizeMore(|buffer|, Sizes(chunks[..n]), |chunks[n]|);
      FewReadsAreRight(buffer, chunks[..n]);
      assert n == 1 ==> Sizes(chunks[..n])[..0] == [];
      CountIsTotal(|buffer|, chunks[..n]);
      AlignedStaysRight(buffer, chunks[..n], chunks[n]);
    }
  }

  lemma SizesConcat(a: seq<seq<Byte>>, b: seq<seq<Byte>>)
    ensures Sizes(a + b) == Sizes(a) + Sizes(b)
  {}

  /** What earlier reads settle: they were in range, and offset and count only grow. */
  lemma {:induction false} EarlierReads(have: nat, first: seq<nat>, more: seq<nat>)
    requires forall i | 0 <= i < |more| :: more[i] > 0
    ensures InRange(have, first + more) ==> InRange(have, first)
    ensures Offset(have, first + more) >= Offset(have, first)
    ensures Count(have, first + more) >= Count(have, first) + |more|
  {
    if more == [] {
      assert first + more == first;
    } else {
      var n := |more| - 1;
      assert first + more == first + more[..n] + [more[n]];
      EarlierReads(have, first, more[..n]);
      OneSizeMore(have, first + more[..n], more[n]);
    }
  }

  lemma LastInRange(buffer: seq<Byte>, chunks: seq<seq<Byte>>, chunk: seq<Byte>)
    requires InRange(|buffer|, Sizes(chunks + [chunk]))
    ensures InRange(|buffer|, Sizes(chunks)) && Offset(|buffer|, Sizes(chunks)) + |chunk| <= MESSAGE_BUFFER_SIZE
  {
    assert Sizes(chunks + [chunk]) == Sizes(chunks) + [|chunk|];
    OneSizeMore(|buffer|, Sizes(chunks), |chunk|);
  }

  lemma ByteBehindStays(buffer: seq<Byte>, chunks: seq<seq<Byte>>, chunk: seq<Byte>, pos: nat)
    requires |buffer| <= MESSAGE_BUFFER_SIZE && InRange(|buffer|, Sizes(chunks + [chunk])) && InRange(|buffer|, Sizes(chunks))
    requires pos < Offset(|buffer|, Sizes(chunks)) && pos < MESSAGE_BUFFER_SIZE
    ensures Overlay(buffer, chunks + [chunk])[pos] == Overlay(buffer, chunks)[pos]
  {
    LastInRange(buffer, chunks, chunk);
    OneChunkMore(buffer, chunks, chunk);
    PutBehind(Overlay(buffer, chunks), Offset(|buffer|, Sizes(chunks)), chunk, pos);
  }

  lemma OffsetOnlyGrows(have: nat, first: seq<seq<Byte>>, more: seq<seq<Byte>>)
    requires NonEmpty(more)
    ensures Offset(have, Sizes(first + more)) >= Offset(have, Sizes(first))
  {
    SizesConcat(first, more);
    EarlierReads(have, Sizes(first), Sizes(more));
  }

  /** A byte behind the offset is not written again. */
  lemma {:induction false} BehindStays(buffer: seq<Byte>, first: seq<seq<Byte>>, more: seq<seq<Byte>>, pos: nat)
    requires |buffer| <= MESSAGE_BUFFER_SIZE && InRange(|buffer|, Sizes(first)) && InRange(|buffer|, Sizes(first + more))
    requires NonEmpty(more)
    requires pos < Offset(|buffer|, Sizes(first)) && pos < MESSAGE_BUFFER_SIZE
    ensures Overlay(buffer, first + more)[pos] == Overlay(buffer, first)[pos]
    decreases |more|
  {
    if more == [] {
      assert first + more == first;
    } else {
      var n := |more| - 1;
      var earlier := first + more[..n];
      assert first + more == earlier + [more[n]];
      LastInRange(buffer, earlier, more[n]);
      BehindStays(buffer, first, more[..n], pos);
      OffsetOnlyGrows(|buffer|, first, more[..n]);
      ByteBehindStays(buffer, earlier, more[n], pos);
    }
  }

  /** After the last read sure to land right, the offset is past the count. */
  lemma OffsetRunsAhead(buffer: seq<Byte>, sizes: seq<nat>)
    requires |sizes| == Aligned(buffer) && sizes[0] > 0
    ensures Count(|buffer|, sizes) < Offset(|buffer|, sizes)
  {
    var n := |sizes| - 1;
    assert sizes[..n] + [sizes[n]] == sizes;
    OneSizeMore(|buffer|, sizes[..n], sizes[n]);
    if n == 1 {
      assert sizes[..1] == [] + [sizes[0]];
      OneSizeMore(|buffer|, [], sizes[0]);
    }
  }

  lemma {:induction false} FlatConcat(a: seq<seq<Byte>>, b: seq<seq<Byte>>)
    ensures Flat(a + b) == Flat(a) + Flat(b)
  {
    if b == [] {
      assert a + b == a && Flat(a) + Flat(b) == Flat(a);
    } else {
      var n := |b| - 1;
      assert (a + b)[..|a + b| - 1] == a + b[..n];
      FlatConcat(a, b[..n]);
    }
  }

  /** What the caller gets, the buffer cut to the count, is right: old bytes, then read bytes. */
  predicate Right(buffer: seq<Byte>, chunks: seq<seq<Byte>>)
    requires |buffer| <= MESSAGE_BUFFER_SIZE && InRange(|buffer|, Sizes(chunks))
  {
    && |buffer| + |Flat(chunks)| <= MESSAGE_BUFFER_SIZE
    && Overlay(buffer, chunks)[..|buffer| + |Flat(chunks)|] == buffer + Flat(chunks)
  }

  lemma CutsRight(buffer: seq<Byte>, chunks: seq<seq<Byte>>)
    requires |buffer| <= MESSAGE_BUFFER_SIZE && InRange(|buffer|, Sizes(chunks)) && RightWhenPadded(buffer, chunks)
    ensures Right(buffer, chunks)
  {
    assert Padded(buffer + Flat(chunks))[..|buffer + Flat(chunks)|] == buffer + Flat(chunks);
  }

  // ---- Exactly when it is right -------------------------------------------------------------

  /** The chunks after those sure to land right. */
  function Late(buffer: seq<Byte>, chunks: seq<seq<Byte>>): seq<seq<Byte>> {
    if |chunks| <= Aligned(buffer) then [] else chunks[Aligned(buffer)..]
  }

  predicate AllZero(data: seq<Byte>) {
    forall k | 0 <= k < |data| :: data[k] == 0
  }

  /** Where the byte at `pos` of the buffer comes from, for a position behind the early chunks: it
      never was written, or it was meant for a position strictly before. */
  ghost predicate Shifted(base: nat, meant: seq<Byte>, data: seq<Byte>, pos: nat) {
    pos < |data| && (data[pos] == 0 || exists q :: base <= q < pos && q < |meant| && data[pos] == meant[q])
  }

  lemma OffsetStaysAhead(have: nat, first: seq<nat>, more: seq<nat>)
    requires Count(have, first) < Offset(have, first)
    ensures Count(have, first + more) < Offset(have, first + more)
    decreases |more|
  {
    if more == [] {
      assert first + more == first;
    } else {
      var n := |more| - 1;
      assert first + more == first + more[..n] + [more[n]];
      OffsetStaysAhead(have, first, more[..n]);
      OneSizeMore(have, first + more[..n], more[n]);
    }
  }

  lemma ShiftedByPut(base: nat, meant: seq<Byte>, data: seq<Byte>, at: nat, chunk: seq<Byte>, pos: nat)
    requires Shifted(base, meant, data, pos) && base <= |meant| < at && at + |chunk| <= |data|
    ensures Shifted(base, meant + chunk, Put(data, at, chunk), pos)
  {
    var longer := meant + chunk;
    if at <= pos < at + |chunk| {
      var q := |meant| + (pos - at);
      assert longer[q] == chunk[pos - at] == Put(data, at, chunk)[pos];
    } else {
      assert Put(data, at, chunk)[pos] == data[pos];
      if data[pos] != 0 {
        var q :| base <= q < pos && q < |meant| && data[pos] == meant[q];
        assert longer[q] == meant[q];
      }
    }
  }

  lemma FlatOneMore(chunks: seq<seq<Byte>>, chunk: seq<Byte>, before: seq<Byte>)
    ensures before + Flat(chunks + [chunk]) == before + Flat(chunks) + chunk
  {
    assert (chunks + [chunk])[..|chunks|] == chunks;
  }

  lemma ChunkPutAhead(buffer: seq<Byte>, earlier: seq<seq<Byte>>, chunk: seq<Byte>, offset: nat)
    requires |buffer| <= MESSAGE_BUFFER_SIZE && InRange(|buffer|, Sizes(earlier)) && InRange(|buffer|, Sizes(earlier + [chunk]))
    requires Count(|buffer|, Sizes(earlier)) < Offset(|buffer|, Sizes(earlier)) == offset
    ensures |buffer + Flat(earlier)| < offset <= MESSAGE_BUFFER_SIZE - |chunk|
    ensures Overlay(buffer, earlier + [chunk]) == Put(Overlay(buffer, earlier), offset, chunk)
  {
    LastInRange(buffer, earlier, chunk);
    CountIsTotal(|buffer|, earlier);
    OneChunkMore(buffer, earlier, chunk);
  }

  lemma OneLateChunk(buffer: seq<Byte>, earlier: seq<seq<Byte>>, chunk: seq<Byte>, base: nat, pos: nat)
    requires |buffer| <= MESSAGE_BUFFER_SIZE && InRange(|buffer|, Sizes(earlier)) && InRange(|buffer|, Sizes(earlier + [chunk]))
    requires Count(|buffer|, Sizes(earlier)) < Offset(|buffer|, Sizes(earlier))
    requires base <= |buffer + Flat(earlier)|
    requires Shifted(base, buffer + Flat(earlier), Overlay(buffer, earlier), pos)
    ensures Shifted(base, buffer + Flat(earlier + [chunk]), Overlay(buffer, earlier + [chunk]), pos)
  {
    var offset := Offset(|buffer|, Sizes(earlier));
    ChunkPutAhead(buffer, earlier, chunk, offset);
    FlatOneMore(earlier, chunk, buffer);
    ShiftedByPut(base, buffer + Flat(earlier), Overlay(buffer, earlier), offset, chunk, pos);
  }

  /** A late byte lands strictly behind the position it was meant for. */
  lemma {:induction false} LateBytesShift(buffer: seq<Byte>, first: seq<seq<Byte>>, more: seq<seq<Byte>>, pos: nat)
    requires |buffer| <= MESSAGE_BUFFER_SIZE && InRange(|buffer|, Sizes(first + more))
    requires |first| == Aligned(buffer) && first[0] != []
    requires |buffer + Flat(first)| <= pos < MESSAGE_BUFFER_SIZE
    ensures Shifted(|buffer + Flat(first)|, buffer + Flat(first + more), Overlay(buffer, first + more), pos)
    decreases |more|
  {
    if more == [] {
      assert first + more == first;
      FewReadsAreRight(buffer, first);
    } else {
      var n := |more| - 1;
      var earlier := first + more[..n];
      assert first + more == earlier + [more[n]];
      LastInRange(buffer, earlier, more[n]);
      LateBytesShift(buffer, first, more[..n], pos);
      OffsetRunsAhead(buffer, Sizes(first));
      SizesConcat(first, more[..n]);
      OffsetStaysAhead(|buffer|, Sizes(first), Sizes(more[..n]));
      FlatConcat(first, more[..n]);
      OneLateChunk(buffer, earlier, more[n], |buffer + Flat(first)|, pos);
    }
  }

  /** If everything meant for the positions before is zero, so is what lands at `pos`; so the byte meant
      for `pos`, if it is there, is zero too. */
  lemma {:induction false} RightMeansLateZero(base: nat, meant: seq<Byte>, data: seq<Byte>, pos: nat)
    requires base <= pos < |meant| <= |data| && data[..|meant|] == meant
    requires forall q | base <= q < |meant| :: Shifted(base, meant, data, q)
    ensures meant[pos] == 0
    decreases pos
  {
    assert data[..|meant|][pos] == data[pos];
    assert Shifted(base, meant, data, pos);
    if data[pos] != 0 {
      var q :| base <= q < pos && q < |meant| && data[pos] == meant[q];
      RightMeansLateZero(base, meant, data, q);
    }
  }

  /** The early bytes stay where they belong. */
  lemma EarlyBytesStay(buffer: seq<Byte>, first: seq<seq<Byte>>, more: seq<seq<Byte>>, pos: nat)
    requires |buffer| <= MESSAGE_BUFFER_SIZE && InRange(|buffer|, Sizes(first + more))
    requires |first| == Aligned(buffer) && first[0] != [] && NonEmpty(more)
    requires pos < |buffer + Flat(first)|
    ensures pos < MESSAGE_BUFFER_SIZE && Overlay(buffer, first + more)[pos] == (buffer + Flat(first))[pos]
  {
    SizesConcat(first, more);
    EarlierReads(|buffer|, Sizes(first), Sizes(more));
    CountIsTotal(|buffer|, first);
    OffsetRunsAhead(buffer, Sizes(first));
    FewReadsAreRight(buffer, first);
    BehindStays(buffer, first, more, pos);
  }

  /** What an overlay with late chunks holds: the early bytes, and then shifted ones. */
  ghost predicate EarlyThenShifted(early: seq<Byte>, late: seq<Byte>, data: seq<Byte>) {
    && |early| + |late| <= |data| && data[..|early|] == early
    && forall q | |early| <= q < |early| + |late| :: Shifted(|early|, early + late, data, q)
  }

  lemma ShiftedRightIff(early: seq<Byte>, late: seq<Byte>, data: seq<Byte>)
    requires EarlyThenShifted(early, late, data)
    ensures data[..|early| + |late|] == early + late <==> AllZero(late)
  {
    var meant := early + late;
    if AllZero(late) {
      forall q | 0 <= q < |meant|
        ensures data[q] == meant[q]
      {
        if q < |early| {
          assert data[q] == data[..|early|][q];
        } else {
          assert Shifted(|early|, meant, data, q) && meant[q] == late[q - |early|];
        }
      }
    } else {
      var k :| 0 <= k < |late| && late[k] != 0;
      assert meant[|early| + k] == late[k];
      if data[..|meant|] == meant { RightMeansLateZero(|early|, meant, data, |early| + k); }
    }
  }

  lemma WithinBuffer(have: nat, chunks: seq<seq<Byte>>)
    requires have <= MESSAGE_BUFFER_SIZE && InRange(have, Sizes(chunks))
    ensures have + |Flat(chunks)| <= MESSAGE_BUFFER_SIZE
  {
    CountIsTotal(have, chunks);
  }

  lemma MeantInParts(buffer: seq<Byte>, first: seq<seq<Byte>>, more: seq<seq<Byte>>)
    ensures buffer + Flat(first + more) == buffer + Flat(first) + Flat(more)
  {
    FlatConcat(first, more);
  }

  lemma OverlayInParts(buffer: seq<Byte>, first: seq<seq<Byte>>, more: seq<seq<Byte>>, early: seq<Byte>, late: seq<Byte>, data: seq<Byte>)
    requires |buffer| <= MESSAGE_BUFFER_SIZE && InRange(|buffer|, Sizes(first + more))
    requires |first| == Aligned(buffer) && first[0] != [] && NonEmpty(more)
    requires early == buffer + Flat(first) && late == Flat(more) && data == Overlay(buffer, first + more)
    ensures EarlyThenShifted(early, late, data)
  {
    MeantInParts(buffer, first, more);
    WithinBuffer(|buffer|, first + more);
    forall q | 0 <= q < |early|
      ensures data[q] == early[q]
    {
      EarlyBytesStay(buffer, first, more, q);
    }
    forall q | |early| <= q < |early| + |late|
      ensures Shifted(|early|, early + late, data, q)
    {
      LateBytesShift(buffer, first, more, q);
    }
  }

  lemma RightWithLateIff(buffer: seq<Byte>, first: seq<seq<Byte>>, more: seq<seq<Byte>>)
    requires |buffer| <= MESSAGE_BUFFER_SIZE && InRange(|buffer|, Sizes(first + more))
    requires |first| == Aligned(buffer) && first[0] != [] && NonEmpty(more)
    ensures Right(buffer, first + more) <==> AllZero(Flat(more))
  {
    var early, late, data := buffer + Flat(first), Flat(more), Overlay(buffer, first + more);
    OverlayInParts(buffer, first, more, early, late, data);
    MeantInParts(buffer, first, more);
    ShiftedRightIff(early, late, data);
  }

  /** For given contents the bytes come out right iff every late byte is zero. */
  lemma RightIff(buffer: seq<Byte>, chunks: seq<seq<Byte>>)
    requires |buffer| <= MESSAGE_BUFFER_SIZE && InRange(|buffer|, Sizes(chunks))
    requires NonEmpty(chunks)
    ensures Right(buffer, chunks) <==> AllZero(Flat(Late(buffer, chunks)))
  {
    if |chunks| <= Aligned(buffer) {
      FewReadsAreRight(buffer, chunks);
      CutsRight(buffer, chunks);
    } else {
      var first, more := chunks[..Aligned(buffer)], Late(buffer, chunks);
      assert chunks == first + more;
      RightWithLateIff(buffer, first, more);
    }
  }

  function Ones(sizes: seq<nat>): seq<seq<Byte>> {
    seq(|sizes|, i requires 0 <= i < |sizes| => seq(sizes[i], _ => 1 as Byte))
  }

  lemma {:induction false} OnesAreOnes(sizes: seq<nat>)
    ensures Sizes(Ones(sizes)) == sizes
    ensures forall k | 0 <= k < |Flat(Ones(sizes))| :: Flat(Ones(sizes))[k] == 1
  {
    if sizes != [] {
      var n := |sizes| - 1;
      OnesAreOnes(sizes[..n]);
      assert Ones(sizes)[..n] == Ones(sizes[..n]);
      assert Ones(sizes)[n] == seq(sizes[n], _ => 1 as Byte);
    }
  }

  lemma NonEmptyChunks(chunks: seq<seq<Byte>>, sizes: seq<nat>)
    requires Sizes(chunks) == sizes && forall i | 0 <= i < |sizes| :: sizes[i] > 0
    ensures NonEmpty(chunks)
  {
    forall i | 0 <= i < |chunks|
      ensures chunks[i] != []
    {
      assert Sizes(chunks)[i] == sizes[i];
    }
  }

  lemma OnesAreNotZero(sizes: seq<nat>)
    requires sizes != [] && sizes[|sizes| - 1] > 0
    ensures !AllZero(Flat(Ones(sizes)))
  {
    var n := |sizes| - 1;
    OnesAreOnes(sizes);
    assert |Flat(Ones(sizes))| >= |Ones(sizes)[n]|;
    assert Flat(Ones(sizes))[0] == 1;
  }

  /** With one read too many, reads of ones come out wrong. */
  lemma OnesGoWrong(buffer: seq<Byte>, sizes: seq<nat>)
    requires |buffer| <= MESSAGE_BUFFER_SIZE && InRange(|buffer|, sizes) && |sizes| > Aligned(buffer)
    requires forall i | 0 <= i < |sizes| :: sizes[i] > 0
    ensures Sizes(Ones(sizes)) == sizes && !Right(buffer, Ones(sizes))
  {
    var chunks, m := Ones(sizes), Aligned(buffer);
    OnesAreOnes(sizes);
    OnesAreNotZero(sizes[m..]);
    assert Late(buffer, chunks) == Ones(sizes[m..]);
    NonEmptyChunks(chunks, sizes);
    RightIff(buffer, chunks);
  }

  /** For non-empty reads of given sizes, the bytes up to the count are right whatever they are iff there
      was at most one such read, or the buffer was empty and there were at most two. */
  lemma AsWrittenRightIff(buffer: seq<Byte>, sizes: seq<nat>)
    requires |buffer| <= MESSAGE_BUFFER_SIZE && InRange(|buffer|, sizes)
    requires forall i | 0 <= i < |sizes| :: sizes[i] > 0
    ensures |sizes| <= Aligned(buffer) <==> forall chunks | Sizes(chunks) == sizes :: Right(buffer, chunks)
  {
    if |sizes| <= Aligned(buffer) {
      forall chunks | Sizes(chunks) == sizes
        ensures Right(buffer, chunks)
      {
        assert |chunks| == |sizes|;
        FewReadsAreRight(buffer, chunks);
        CutsRight(buffer, chunks);
      }
    } else {
      OnesGoWrong(buffer, sizes);
    }
  }

  // ---- The run as a whole -------------------------------------------------------------------

  /** The run gives the caller what `FillBufferAsIntended` promises. */
  predicate AsIntended(buffer: seq<Byte>, stream: seq<Byte>, pending: seq<Byte>, r: Outcome, data: seq<Byte>)
    requires |buffer| <= MESSAGE_BUFFER_SIZE
  {
    && r.Filled? && data == Refilled(buffer, stream) && pending == stream[Taken(|buffer|, stream)..]
    && (r.ended <==> |buffer| + |stream| < MESSAGE_BUFFER_SIZE)
  }

  lemma TakenWhenFull(buffer: seq<Byte>, got: seq<Byte>, pending: seq<Byte>)
    requires |buffer| + |got| == MESSAGE_BUFFER_SIZE || (|buffer| + |got| < MESSAGE_BUFFER_SIZE && pending == [])
    ensures Refilled(buffer, got + pending) == buffer + got && pending == (got + pending)[Taken(|buffer|, got + pending)..]
    ensures |buffer| + |got| < MESSAGE_BUFFER_SIZE <==> |buffer| + |got + pending| < MESSAGE_BUFFER_SIZE
  {
    assert (got + pending)[..|got|] == got && (got + pending)[|got|..] == pending;
  }

  /** A run without I/O error does as intended iff it neither panics nor stops early, and every late byte
      is zero. */
  lemma AsIntendedIff(buffer: seq<Byte>, chunks: seq<seq<Byte>>, pending: seq<Byte>, r: Outcome, data: seq<Byte>)
    requires Leaves(buffer, chunks, pending, r, data) && r != IoError
    requires NonEmpty(chunks)
    ensures AsIntended(buffer, Flat(chunks) + pending, pending, r, data) <==>
            && (|buffer| + |Flat(chunks)| == MESSAGE_BUFFER_SIZE
                || (Offset(|buffer|, Sizes(chunks)) <= MESSAGE_BUFFER_SIZE && pending == []))
            && AllZero(Flat(Late(buffer, chunks)))
  {
    var count := |buffer| + |Flat(chunks)|;
    RightIff(buffer, chunks);
    if count == MESSAGE_BUFFER_SIZE || pending == [] {
      TakenWhenFull(buffer, Flat(chunks), pending);
    }
  }

  /** Every run with non-empty reads of these sizes and without I/O error does as intended. */
  ghost predicate AlwaysAsIntended(buffer: seq<Byte>, sizes: seq<nat>)
    requires |buffer| <= MESSAGE_BUFFER_SIZE
  {
    forall chunks, pending, r, data | Sizes(chunks) == sizes && Leaves(buffer, chunks, pending, r, data) && r != IoError ::
      AsIntended(buffer, Flat(chunks) + pending, pending, r, data)
  }

  lemma RunWith(buffer: seq<Byte>, chunks: seq<seq<Byte>>, pending: seq<Byte>) returns (r: Outcome, data: seq<Byte>)
    requires |buffer| <= MESSAGE_BUFFER_SIZE && InRange(|buffer|, Sizes(chunks))
    requires pending == [] || Offset(|buffer|, Sizes(chunks)) >= MESSAGE_BUFFER_SIZE
    ensures Leaves(buffer, chunks, pending, r, data) && r != IoError
  {
    var count := |buffer| + |Flat(chunks)|;
    WithinBuffer(|buffer|, chunks);
    if Offset(|buffer|, Sizes(chunks)) > MESSAGE_BUFFER_SIZE && count < MESSAGE_BUFFER_SIZE {
      r, data := Panicked, [];
    } else {
      r, data := Filled(count < MESSAGE_BUFFER_SIZE), Overlay(buffer, chunks)[..count];
    }
  }

  lemma FewReadsAsIntended(buffer: seq<Byte>, chunks: seq<seq<Byte>>, pending: seq<Byte>, r: Outcome, data: seq<Byte>)
    requires Leaves(buffer, chunks, pending, r, data) && r != IoError && |chunks| <= Aligned(buffer)
    requires forall i | 0 <= i < |chunks| :: Sizes(chunks)[i] > 0
    requires Count(|buffer|, Sizes(chunks)) == MESSAGE_BUFFER_SIZE || Offset(|buffer|, Sizes(chunks)) < MESSAGE_BUFFER_SIZE
    ensures AsIntended(buffer, Flat(chunks) + pending, pending, r, data)
  {
    CountIsTotal(|buffer|, chunks);
    NonEmptyChunks(chunks, Sizes(chunks));
    AsIntendedIff(buffer, chunks, pending, r, data);
  }

  lemma OnesNotAsIntended(buffer: seq<Byte>, sizes: seq<nat>, chunks: seq<seq<Byte>>, pending: seq<Byte>)
    requires |buffer| <= MESSAGE_BUFFER_SIZE && InRange(|buffer|, sizes) && chunks == Ones(sizes) && Sizes(chunks) == sizes
    requires forall i | 0 <= i < |sizes| :: sizes[i] > 0
    requires if |sizes| > Aligned(buffer) then pending == []
             else pending != [] && Count(|buffer|, sizes) < MESSAGE_BUFFER_SIZE <= Offset(|buffer|, sizes)
    ensures !AlwaysAsIntended(buffer, sizes)
  {
    var r, data := RunWith(buffer, chunks, pending);
    NonEmptyChunks(chunks, sizes);
    AsIntendedIff(buffer, chunks, pending, r, data);
    if |sizes| > Aligned(buffer) {
      OnesGoWrong(buffer, sizes);
      RightIff(buffer, chunks);
    } else {
      CountIsTotal(|buffer|, chunks);
    }
  }

  /** For given sizes of the non-empty reads, the code does as intended whatever the bytes and whatever
      is still pending iff there were at most as many reads as are sure to land right, and they filled
      the buffer or left the slice some room. */
  lemma AlwaysAsIntendedIff(buffer: seq<Byte>, sizes: seq<nat>)
    requires |buffer| <= MESSAGE_BUFFER_SIZE && InRange(|buffer|, sizes)
    requires forall i | 0 <= i < |sizes| :: sizes[i] > 0
    ensures AlwaysAsIntended(buffer, sizes) <==>
            && |sizes| <= Aligned(buffer)
            && (Count(|buffer|, sizes) == MESSAGE_BUFFER_SIZE || Offset(|buffer|, sizes) < MESSAGE_BUFFER_SIZE)
  {
    if |sizes| <= Aligned(buffer)
      && (Count(|buffer|, sizes) == MESSAGE_BUFFER_SIZE || Offset(|buffer|, sizes) < MESSAGE_BUFFER_SIZE) {
      forall chunks, pending, r, data | Sizes(chunks) == sizes && Leaves(buffer, chunks, pending, r, data) && r != IoError
        ensures AsIntended(buffer, Flat(chunks) + pending, pending, r, data)
      {
        FewReadsAsIntended(buffer, chunks, pending, r, data);
      }
    } else {
      var chunks := Ones(sizes);
      var pending := if |sizes| <= Aligned(buffer) then [0] else [];
      OnesAreOnes(sizes);
      OnesNotAsIntended(buffer, sizes, chunks, pending);
    }
  }

  lemma TwoReads(a: Byte, b: Byte)
    ensures InRange(0, Sizes([[a], [b]])) && Offset(0, Sizes([[a], [b]])) == 3
    ensures Flat([[a], [b]]) == [a, b] && Overlay([], [[a], [b]]) == Padded([a, b])
  {
    var one: seq<seq<Byte>> := [[a]];
    assert [[a], [b]] == one + [[b]];
    OneRead([], [a]);
    CountIsTotal(0, one);
    OneChunkMore([], one, [b]);
    OneSizeMore(0, Sizes(one), 1);
    FewReadsAreRight([], [[a], [b]]);
    assert [] + Flat([[a], [b]]) == [a, b];
  }

  /** Three reads of one byte into an empty buffer: the third lands one byte too far, and the caller
      gets a zero in its place. */
  lemma AsWrittenWrongExample()
    ensures InRange(0, Sizes([[7], [8], [9]])) && Overlay([], [[7], [8], [9]])[..3] == [7, 8, 0]
    ensures Flat([[7], [8], [9]]) == [7, 8, 9] && !Right([], [[7], [8], [9]])
  {
    var two: seq<seq<Byte>> := [[7], [8]];
    assert [[7], [8], [9]] == two + [[9]];
    TwoReads(7, 8);
    OneChunkMore([], two, [9]);
    assert Put(Padded([7, 8]), 3, [9])[..3] == [7, 8, 0];
    assert [] + Flat([[7], [8], [9]]) == [7, 8, 9];
    assert [7, 8, 0][2] != [7, 8, 9][2];
  }
}
