/**
  Serving an update package, whole or one byte range of it, in throttled chunks
  (installation/_updates.py, UpdateServer._app and _read_data). The header field values are
  computed apart from the bytes that are then read; ContentLengthIsHonest says exactly when
  the two agree. Byte ranges are inclusive, as in section 14.1.2 of RFC 9110.
*/
module RangeServer {
  import opened ByteStrings
  import opened TokenBucket
  import opened Wrappers

  function MinInt(a: int, b: int): int { if b < a then b else a }

  /**
    A package opened for reading. read(n) returns up to n bytes, and all the rest for -1; any
    size below -1 is an error.
  */
  class PackageFile {
    const data: Bytes
    var pos: nat

    constructor (data: Bytes)
      ensures this.data == data && pos == 0
    {
      this.data, pos := data, 0;
    }

    method Seek(offset: nat)
      modifies this
      ensures pos == offset
    {
      pos := offset;
    }

    method Read(n: int) returns (ok: bool, chunk: Bytes)
      modifies this
      ensures ok <==> n >= -1
      ensures ok ==> chunk == ReadFrom(data, old(pos), n) && pos == old(pos) + |chunk|
      ensures !ok ==> chunk == [] && pos == old(pos)
    {
      if n < -1 {
        return false, [];
      }
      var from := MinInt(pos, |data|);
      var to := if n < 0 then |data| else MinInt(from + n, |data|);
      ok, chunk := true, data[from..to];
      pos := pos + |chunk|;
    }
  }

  function ReadFrom(data: Bytes, pos: nat, n: int): Bytes
    requires n >= -1
  {
    var from := MinInt(pos, |data|);
    data[from..if n < 0 then |data| else MinInt(from + n, |data|)]
  }

  function Concat(chunks: seq<Bytes>): Bytes {
    if chunks == [] then [] else Concat(chunks[..|chunks| - 1]) + chunks[|chunks| - 1]
  }

  /** The bytes from position start up to and including position end. */
  function Slice(data: Bytes, start: nat, end: int): Bytes {
    var from := MinInt(start, |data|);
    data[from..if end + 1 < from then from else MinInt(end + 1, |data|)]
  }

  /**
    What reading from start to end yields. A range that ends two positions before it starts asks
    for -1 bytes at once, which is all the rest; one that ends earlier still is an error.
  */
  function Served(data: Bytes, start: nat, end: nat): Option<Bytes> {
    if end + 2 < start then None
    else if end + 2 == start then Some(data[MinInt(start, |data|)..])
    else Some(Slice(data, start, end))
  }

  // ---------- The header ----------

  function RangeEnd(to: nat, size: nat): nat { MinInt(to, size) }

  function ContentLength(from: nat, to: nat, size: nat): int {
    if RangeEnd(to, size) == size then size - from else to - from + 1
  }

  datatype Response = Response(status: int, contentLength: int, contentRange: Option<(nat, nat, nat)>)

  function Header(range: Option<(nat, nat)>, size: nat): Response {
    match range
    case None => Response(200, size, None)
    case Some((from, to)) =>
      Response(206, ContentLength(from, to, size), Some((from, RangeEnd(to, size), size)))
  }

  /** The body of the response, if reading it succeeds. */
  function Body(range: Option<(nat, nat)>, data: Bytes): Option<Bytes> {
    match range
    case None => Served(data, 0, |data|)
    case Some((from, to)) => Served(data, from, RangeEnd(to, |data|))
  }

  /** Whether a response is completed: without a rate the bucket refuses every chunk of a byte or more. */
  predicate IsCompleted(range: Option<(nat, nat)>, size: nat, bytesPerSec: nat) {
    match range
    case None => 0 < bytesPerSec
    case Some((from, to)) => IsReadable(from, RangeEnd(to, size), bytesPerSec)
  }

  predicate IsReadable(start: nat, end: nat, bytesPerSec: nat) {
    end + 1 == start || end + 2 == start || (start <= end && 0 < bytesPerSec)
  }

  // ---------- What is served ----------

  lemma WholeFileIsServed(data: Bytes)
    ensures Body(None, data) == Some(data) && Header(None, |data|).contentLength == |data|
  {
    assert Slice(data, 0, |data|) == data;
  }

  /** Every answer to a range is partial content and tells where the range starts and how large the file is. */
  lemma RangeIsAnnounced(from: nat, to: nat, size: nat)
    ensures var r := Header(Some((from, to)), size);
            && r.status == 206 && r.contentRange.Some?
            && r.contentRange.value.0 == from && r.contentRange.value.2 == size
            && r.contentRange.value.1 <= to && r.contentRange.value.1 <= size
            && (r.contentRange.value.1 == to || r.contentRange.value.1 == size)
            && r.contentLength == if to < size then to - from + 1 else size - from
    ensures Header(None, size).status == 200 && Header(None, size).contentRange.None?
  {
  }

  /** A range that starts in the file is served as the inclusive slice, clipped to the file. */
  lemma RangeIsServed(data: Bytes, from: nat, to: nat)
    requires from <= to && from <= |data|
    ensures Body(Some((from, to)), data) == Some(data[from..MinInt(to + 1, |data|)])
  {
  }

  /** Exactly when a body is served that has as many bytes as were announced. */
  lemma ContentLengthIsHonest(data: Bytes, from: nat, to: nat)
    ensures var body := Body(Some((from, to)), data);
            (body.Some? && |body.value| == Header(Some((from, to)), |data|).contentLength)
            <==> from <= MinInt(to + 1, |data|)
  {
  }

  /**
    Exactly when the last position announced is the last position served. A range that reaches
    the end of the file is announced with the size of the file instead of its last position.
  */
  lemma ContentRangeIsHonest(data: Bytes, from: nat, to: nat)
    requires from <= to && from < |data|
    ensures Body(Some((from, to)), data).Some?
    ensures Header(Some((from, to)), |data|).contentRange.value.1 == from + |Body(Some((from, to)), data).value| - 1
       <==> to < |data|
  {
  }

  /**
    Ranges of a package of a hundred bytes that do not fit it. The first two fail after the header
    is sent; the third is announced with -1 bytes and served with all the rest. The last is
    announced up to position 100, which the package does not have.
  */
  lemma MisfitRanges(data: Bytes, bytesPerSec: nat)
    requires |data| == 100
    ensures !IsCompleted(Some((200, 300)), |data|, bytesPerSec) && !IsCompleted(Some((10, 5)), |data|, bytesPerSec)
    ensures IsCompleted(Some((7, 5)), |data|, bytesPerSec) && Body(Some((7, 5)), data) == Some(data[7..])
    ensures Header(Some((7, 5)), |data|).contentLength == -1
    ensures Header(Some((0, 100)), |data|).contentRange == Some((0, 100, 100)) && Body(Some((0, 100)), data) == Some(data)
  {
    assert Slice(data, 0, 100) == data;
  }

  // ---------- The reader ----------

  lemma {:induction false} ConcatAppend(chunks: seq<Bytes>, chunk: Bytes)
    ensures Concat(chunks + [chunk]) == Concat(chunks) + chunk
  {
    assert (chunks + [chunk])[..|chunks|] == chunks;
  }

  /**
    How far the reader got with a range that is not backward: chunks hold what was yielded, pos is
    the position in the file.
  */
  ghost predicate Progress(data: Bytes, start: nat, end: nat, bytesPerSec: nat, current: int, chunks: seq<Bytes>, pos: nat) {
    && start <= current <= end + 1
    && Concat(chunks) == Slice(data, start, current - 1)
    && MinInt(pos, |data|) == MinInt(current, |data|)
    && (bytesPerSec == 0 ==> current == start && chunks == [])
    && (forall i :: 0 <= i < |chunks| ==> |chunks[i]| <= bytesPerSec)
  }

  lemma ProgressGoesOn(data: Bytes, start: nat, end: nat, bytesPerSec: nat, current: int, chunks: seq<Bytes>, pos: nat, n: int)
    requires Progress(data, start, end, bytesPerSec, current, chunks, pos)
    requires 0 < n <= end - current + 1 && n <= bytesPerSec
    ensures var chunk := ReadFrom(data, pos, n);
            Progress(data, start, end, bytesPerSec, current + n, chunks + [chunk], pos + |chunk|)
  {
    ConcatAppend(chunks, ReadFrom(data, pos, n));
    ReadingContinues(data, start, current, n);
  }

  lemma ReadingContinues(data: Bytes, start: nat, current: nat, n: nat)
    requires start <= current
    ensures Slice(data, start, current - 1) + ReadFrom(data, current, n) == Slice(data, start, current + n - 1)
  {
  }

  /** Before the only read of a backward range, and after it if it succeeds. */
  ghost predicate BackwardProgress(data: Bytes, start: nat, end: nat, current: int, chunks: seq<Bytes>, pos: nat) {
    if current == start then end + 1 < start && chunks == [] && pos == start
    else current == end + 1 && end + 2 == start && chunks == [data[MinInt(start, |data|)..]]
  }

  ghost predicate ReaderOk(data: Bytes, start: nat, end: nat, bytesPerSec: nat, current: int, chunks: seq<Bytes>, pos: nat) {
    if start <= end + 1 then Progress(data, start, end, bytesPerSec, current, chunks, pos)
    else BackwardProgress(data, start, end, current, chunks, pos)
  }

  lemma ReaderGoesOn(data: Bytes, start: nat, end: nat, bytesPerSec: nat, current: int, chunks: seq<Bytes>, pos: nat, n: int)
    requires ReaderOk(data, start, end, bytesPerSec, current, chunks, pos)
    requires n != 0 && -1 <= n <= end - current + 1 && n <= bytesPerSec && (n < 0 ==> n == end - current + 1)
    ensures var chunk := ReadFrom(data, pos, n);
            ReaderOk(data, start, end, bytesPerSec, current + n, chunks + [chunk], pos + |chunk|)
  {
    if start <= end + 1 {
      ProgressGoesOn(data, start, end, bytesPerSec, current, chunks, pos, n);
    } else {
      assert current == start && n == -1;
      assert ReadFrom(data, pos, n) == data[MinInt(start, |data|)..];
      assert chunks + [ReadFrom(data, pos, n)] == [ReadFrom(data, pos, n)];
    }
  }

  lemma {:induction false} ReaderIsDone(data: Bytes, start: nat, end: nat, bytesPerSec: nat, chunks: seq<Bytes>, pos: nat)
    requires ReaderOk(data, start, end, bytesPerSec, end + 1, chunks, pos)
    ensures IsReadable(start, end, bytesPerSec) && Served(data, start, end) == Some(Concat(chunks))
  {
    if start == end + 2 {
      ConcatAppend([], chunks[0]);
      assert [] + [chunks[0]] == chunks && [] + chunks[0] == chunks[0];
    }
  }

  /** The bucket of a server with the rate bytesPerSec; without a rate it is only ever given tokens. */
  ghost predicate BucketOk(bucket: Bucket, bytesPerSec: nat)
    reads bucket, bucket.clock
  {
    && bucket.params == Params(bytesPerSec as real, bytesPerSec as real)
    && bucket.timestamp <= bucket.clock.now
    && (bytesPerSec == 0 ==> 0.0 <= bucket.tokens)
  }

  lemma RefillTakesNothing(p: Params, b: Balance, now: real)
    requires p.rate >= 0.0 && b.timestamp <= now
    ensures b.tokens <= Refilled(p, b, now).tokens
  {
    var passed := now - b.timestamp;
    assert p.rate * passed >= 0.0;
  }

  /** One chunk: read, then paid for. A chunk of -1 bytes is not paid for: the bucket gains a token. */
  method ReadChunk(file: PackageFile, n: int, bytesPerSec: nat, bucket: Bucket) returns (ok: bool, chunk: Bytes)
    requires BucketOk(bucket, bytesPerSec)
    modifies file, bucket, bucket.clock
    ensures BucketOk(bucket, bytesPerSec) && (ok <==> -1 <= n <= bytesPerSec)
    ensures ok ==> chunk == ReadFrom(file.data, old(file.pos), n) && file.pos == old(file.pos) + |chunk|
    ensures n == -1 ==> old(bucket.tokens) + 1.0 <= bucket.tokens
  {
    ok, chunk := file.Read(n);
    if !ok {
      return;
    }
    ghost var before := bucket.State();
    var outcome;
    ghost var call;
    outcome, call := bucket.WaitForFilling(n as real);
    ok := outcome.Paid?;
    if n <= bytesPerSec {
      RefillTakesNothing(bucket.params, before, call.start);
    }
  }

  const DEFAULT_CHUNK_SIZE := 1024 * 1024

  // One round of the loop, unless it is over.
  method ReadNext(file: PackageFile, start: nat, end: nat, bytesPerSec: nat, bucket: Bucket, n: int,
                  currentBefore: int, chunksBefore: seq<Bytes>)
    returns (ok: bool, current: int, chunks: seq<Bytes>)
    requires BucketOk(bucket, bytesPerSec)
    requires ReaderOk(file.data, start, end, bytesPerSec, currentBefore, chunksBefore, file.pos)
    requires n == MinInt(end - currentBefore + 1, if bytesPerSec != 0 then bytesPerSec else DEFAULT_CHUNK_SIZE) != 0
    modifies file, bucket, bucket.clock
    ensures BucketOk(bucket, bytesPerSec) && (ok <==> -1 <= n <= bytesPerSec)
    ensures ok ==> current == currentBefore + n && ReaderOk(file.data, start, end, bytesPerSec, current, chunks, file.pos)
    ensures !ok ==> current == currentBefore && chunks == chunksBefore
    ensures n == -1 ==> old(bucket.tokens) + 1.0 <= bucket.tokens
  {
    ghost var pos := file.pos;
    var chunk;
    ok, chunk := ReadChunk(file, n, bytesPerSec, bucket);
    current, chunks := currentBefore, chunksBefore;
    if ok {
      ReaderGoesOn(file.data, start, end, bytesPerSec, current, chunks, pos, n);
      current, chunks := current + n, chunks + [chunk];
    }
  }

  /**
    Yields the bytes from start to end. Chunks are no larger than the bucket, unless all the rest
    goes out at once; an error yields nothing.
  */
  method ReadData(file: PackageFile, start: nat, end: nat, bytesPerSec: nat, bucket: Bucket)
    returns (ok: bool, chunks: seq<Bytes>)
    requires BucketOk(bucket, bytesPerSec)
    modifies file, bucket, bucket.clock
    ensures BucketOk(bucket, bytesPerSec)
    ensures ok <==> IsReadable(start, end, bytesPerSec)
    ensures if ok then Served(file.data, start, end) == Some(Concat(chunks)) else chunks == []
    ensures start <= end ==> forall i :: 0 <= i < |chunks| ==> |chunks[i]| <= bytesPerSec
    ensures start == end + 2 ==>
              chunks == [file.data[MinInt(start, |file.data|)..]] && old(bucket.tokens) + 1.0 <= bucket.tokens
  {
    var chunkSize := if bytesPerSec != 0 then bytesPerSec else DEFAULT_CHUNK_SIZE;
    var current: int := start;
    chunks := [];
    file.Seek(start);
    while true
      invariant BucketOk(bucket, bytesPerSec)
      invariant ReaderOk(file.data, start, end, bytesPerSec, current, chunks, file.pos)
      invariant current == start ==> bucket.tokens == old(bucket.tokens)
      invariant start == end + 2 && current != start ==> old(bucket.tokens) + 1.0 <= bucket.tokens
      decreases if current <= end + 1 then end + 1 - current else 1
    {
      var nextChunkSize := MinInt(end - current + 1, chunkSize);
      if nextChunkSize == 0 {
        break;
      }
      ok, current, chunks := ReadNext(file, start, end, bytesPerSec, bucket, nextChunkSize, current, chunks);
      if !ok {
        return;
      }
    }
    ReaderIsDone(file.data, start, end, bytesPerSec, chunks, file.pos);
    ok := true;
  }

  /** One request: the header first, then the throttled body, which may fail after it. */
  method App(package: Bytes, range: Option<(nat, nat)>, bytesPerSec: nat, bucket: Bucket)
    returns (response: Response, ok: bool, chunks: seq<Bytes>)
    requires BucketOk(bucket, bytesPerSec)
    modifies bucket, bucket.clock
    ensures BucketOk(bucket, bytesPerSec)
    ensures response == Header(range, |package|)
    ensures ok <==> IsCompleted(range, |package|, bytesPerSec)
    ensures if ok then Body(range, package) == Some(Concat(chunks)) else chunks == []
  {
    var file := new PackageFile(package);
    match range
    case None =>
      response := Response(200, |package|, None);
      ok, chunks := ReadData(file, 0, |package|, bytesPerSec, bucket);
    case Some((from, to)) =>
      var end := MinInt(to, |package|);
      var contentLength := if end == |package| then end - from else end - from + 1;
      response := Response(206, contentLength, Some((from, end, |package|)));
      ok, chunks := ReadData(file, from, end, bytesPerSec, bucket);
  }
}
