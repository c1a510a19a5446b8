/**
 * The quota-limiting readable stream (`QuotaStream`): it pulls chunks from a
 * source reader, keeps a running byte count, forwards each chunk while the
 * count stays within the quota, and ends in one of three ways: a clean end of
 * stream (`push(null)`), destruction with the "Quota exceeded" error, or
 * destruction with the error the source reader raised.
 */
module QuotaStreams {

  newtype byte = x: int | 0 <= x < 256

  /** One `Uint8Array` value delivered by the source. */
  type Chunk = seq<byte>

  /** An error raised by the source reader (a client disconnect, an upstream failure). */
  datatype SourceError = SourceError(message: string)

  /** How the source behaves once its chunks are used up. */
  datatype Ending = Exhausted | Fails(error: SourceError)

  /** A `ReadableStream` as seen through its reader: finitely many chunks, then an ending. */
  datatype Source = Source(chunks: seq<Chunk>, ending: Ending)

  /** The error a destroyed stream reports. */
  datatype StreamError = QuotaExceeded | ReadFailed(cause: SourceError)

  const QUOTA_EXCEEDED_MESSAGE := "Quota exceeded"

  /** The `message` of the error the stream is destroyed with. */
  function Message(e: StreamError): (m: string)
    ensures e.QuotaExceeded? ==> m == QUOTA_EXCEEDED_MESSAGE
    ensures e.ReadFailed? ==> m == e.cause.message
  {
    match e
    case QuotaExceeded => QUOTA_EXCEEDED_MESSAGE
    case ReadFailed(cause) => cause.message
  }

  /** The stream's state as its consumer sees it. */
  datatype Status = Flowing | Ended | Destroyed(error: StreamError)

  /** One result of `reader.read()`: a value, `done`, or a rejected promise. */
  datatype ReadResult = Value(chunk: Chunk) | Done | Threw(error: SourceError)

  /** The sum of the `byteLength` of the chunks. */
  function TotalLength(cs: seq<Chunk>): nat {
    if cs == [] then 0 else |cs[0]| + TotalLength(cs[1..])
  }

  lemma {:induction false} TotalLengthAppend(cs: seq<Chunk>, c: Chunk)
    ensures TotalLength(cs + [c]) == TotalLength(cs) + |c|
  {
    if cs != [] {
      assert (cs + [c])[1..] == cs[1..] + [c];
      TotalLengthAppend(cs[1..], c);
    }
  }

  /** How the stream ends when its source runs out without the quota being exceeded. */
  function EndStatus(ending: Ending): (s: Status)
    ensures ending.Exhausted? <==> s.Ended?
    ensures ending.Fails? <==> s.Destroyed?
    ensures ending.Fails? ==> s == Destroyed(ReadFailed(ending.error))
  {
    match ending
    case Exhausted => Ended
    case Fails(e) => Destroyed(ReadFailed(e))
  }

  /** The final state of a stream, and what it forwarded. */
  datatype Outcome = Outcome(status: Status, pushed: seq<Chunk>)

  /**
   * What a stream does with the chunks `cs` still to be read when `counted`
   * bytes have already been counted: the reference behaviour, one chunk at a
   * time.
   */
  function Run(cs: seq<Chunk>, ending: Ending, quota: int, counted: int): Outcome {
    if cs == [] then
      Outcome(EndStatus(ending), [])
    else if counted + |cs[0]| > quota then
      Outcome(Destroyed(QuotaExceeded), [])
    else
      var rest := Run(cs[1..], ending, quota, counted + |cs[0]|);
      Outcome(rest.status, [cs[0]] + rest.pushed)
  }

  /**
   * Within the quota (a total exactly equal to it included), or with nothing
   * left to read, every chunk is forwarded unchanged and in order, and the
   * stream ends as its source does: cleanly, or with the source's own error.
   */
  lemma {:induction false} RunWithinQuota(cs: seq<Chunk>, ending: Ending, quota: int, counted: int)
    requires cs == [] || counted + TotalLength(cs) <= quota
    ensures Run(cs, ending, quota, counted) == Outcome(EndStatus(ending), cs)
  {
    if cs != [] {
      RunWithinQuota(cs[1..], ending, quota, counted + |cs[0]|);
      assert [cs[0]] + cs[1..] == cs;
    }
  }

  /**
   * Over the quota the stream is destroyed with "Quota exceeded". What it
   * forwarded is the longest prefix that fits: the chunk that takes the total
   * above the quota, and everything after it, is never forwarded. The check
   * runs once per chunk read, so an empty source is never over the quota.
   */
  lemma {:induction false} RunOverQuota(cs: seq<Chunk>, ending: Ending, quota: int, counted: int)
    requires cs != [] && counted + TotalLength(cs) > quota
    ensures var r := Run(cs, ending, quota, counted); var k := |r.pushed|;
      r.status == Destroyed(QuotaExceeded) &&
      k < |cs| && r.pushed == cs[..k] &&
      counted + TotalLength(cs[..k + 1]) > quota &&
      (k > 0 ==> counted + TotalLength(cs[..k]) <= quota)
  {
    var head := cs[0];
    if counted + |head| > quota {
      TotalLengthPrefix(cs, 0);
    } else {
      var c' := counted + |head|;
      var rest := Run(cs[1..], ending, quota, c');
      RunOverQuota(cs[1..], ending, quota, c');
      var k := |rest.pushed|;
      assert Run(cs, ending, quota, counted) == Outcome(rest.status, [head] + rest.pushed);
      CrossingShift(cs, quota, counted, k);
      assert cs[..k + 1] == [head] + cs[1..][..k];
    }
  }

  /** The crossing point found in the tail, seen from the whole sequence: one chunk later. */
  lemma CrossingShift(cs: seq<Chunk>, quota: int, counted: int, k: nat)
    requires k + 1 < |cs| && counted + |cs[0]| <= quota
    requires counted + |cs[0]| + TotalLength(cs[1..][..k + 1]) > quota
    requires k > 0 ==> counted + |cs[0]| + TotalLength(cs[1..][..k]) <= quota
    ensures counted + TotalLength(cs[..k + 2]) > quota
    ensures counted + TotalLength(cs[..k + 1]) <= quota
  {
    TotalLengthPrefix(cs, k + 1);
    TotalLengthPrefix(cs, k);
    if k == 0 {
      assert cs[1..][..0] == [];
    }
  }

  /** A chunk within the quota is forwarded, and the run goes on with the next one. */
  lemma RunStep(cs: seq<Chunk>, ending: Ending, quota: int, counted: int, pushed: seq<Chunk>)
    requires cs != [] && counted + |cs[0]| <= quota
    ensures var r := Run(cs, ending, quota, counted);
      var rest := Run(cs[1..], ending, quota, counted + |cs[0]|);
      r.status == rest.status && pushed + r.pushed == (pushed + [cs[0]]) + rest.pushed
  {
    var rest := Run(cs[1..], ending, quota, counted + |cs[0]|);
    assert pushed + ([cs[0]] + rest.pushed) == (pushed + [cs[0]]) + rest.pushed;
  }

  /** The byte total of a prefix of `cs`, unfolded at the first chunk. */
  lemma TotalLengthPrefix(cs: seq<Chunk>, j: nat)
    requires j < |cs|
    ensures TotalLength(cs[..j + 1]) == |cs[0]| + TotalLength(cs[1..][..j])
  {
    assert cs[..j + 1][1..] == cs[1..][..j];
  }

  /**
   * The stream reports "Quota exceeded" exactly when the source delivers at
   * least one chunk and more bytes in total than the quota allows.
   */
  lemma RunQuotaExceededIff(cs: seq<Chunk>, ending: Ending, quota: int)
    ensures Run(cs, ending, quota, 0).status == Destroyed(QuotaExceeded) <==>
      cs != [] && TotalLength(cs) > quota
  {
    if cs != [] && TotalLength(cs) > quota {
      RunOverQuota(cs, ending, quota, 0);
    } else {
      RunWithinQuota(cs, ending, quota, 0);
    }
  }

  /** Whatever happens, the bytes forwarded never exceed the quota (when anything is forwarded at all). */
  lemma RunForwardsWithinQuota(cs: seq<Chunk>, ending: Ending, quota: int)
    ensures var r := Run(cs, ending, quota, 0);
      |r.pushed| <= |cs| && r.pushed == cs[..|r.pushed|] &&
      (r.pushed != [] ==> TotalLength(r.pushed) <= quota)
  {
    if cs != [] && TotalLength(cs) > quota {
      RunOverQuota(cs, ending, quota, 0);
    } else {
      RunWithinQuota(cs, ending, quota, 0);
    }
  }

  /** The source reader (`stream.getReader()`): it yields the chunks in order, then ends as its source does. */
  class ChunkReader {
    const chunks: seq<Chunk>
    const ending: Ending
    var next: nat

    ghost predicate Valid()
      reads this
    {
      next <= |chunks|
    }

    constructor (source: Source)
      ensures Valid() && chunks == source.chunks && ending == source.ending && next == 0
    {
      chunks, ending, next := source.chunks, source.ending, 0;
    }

    /** `reader.read()`: the next chunk, or `done`, or the source's error. */
    method Read() returns (r: ReadResult)
      requires Valid()
      modifies this
      ensures Valid()
      ensures old(next) < |chunks| ==> r == Value(chunks[old(next)]) && next == old(next) + 1
      ensures old(next) == |chunks| ==>
        (next == old(next) && r == (if ending.Exhausted? then Done else Threw(ending.error)))
    {
      if next < |chunks| {
        r := Value(chunks[next]);
        next := next + 1;
      } else if ending.Exhausted? {
        r := Done;
      } else {
        r := Threw(ending.error);
      }
    }
  }

  class QuotaStream {
    const reader: ChunkReader
    const quota: int
    var bytesRead: int
    var status: Status
    /** The chunks handed to the consumer with `push`, in order. */
    var pushed: seq<Chunk>
    /** The chunks taken from the reader so far. */
    ghost var taken: seq<Chunk>

    /**
     * The stream invariant: `bytesRead` is the byte total of every chunk taken
     * from the reader; while flowing, or after a clean end or a source error,
     * every chunk taken was forwarded; after "Quota exceeded", every chunk but
     * the last one taken was forwarded, and that last one took the count above
     * the quota.
     */
    ghost predicate Valid()
      reads this, reader
    {
      reader.Valid() &&
      taken == reader.chunks[..reader.next] &&
      bytesRead == TotalLength(taken) &&
      (status.Ended? ==> reader.next == |reader.chunks| && reader.ending.Exhausted?) &&
      (status.Destroyed? && status.error.ReadFailed? ==>
         reader.next == |reader.chunks| && reader.ending == Fails(status.error.cause)) &&
      (status.Destroyed? && status.error.QuotaExceeded? ==>
         taken != [] && pushed == taken[..|taken| - 1] && bytesRead > quota &&
         (pushed != [] ==> TotalLength(pushed) <= quota)) &&
      (!(status.Destroyed? && status.error.QuotaExceeded?) ==>
         pushed == taken && (taken != [] ==> bytesRead <= quota))
    }

    /** `new QuotaStream(stream, quota)`: nothing read, nothing counted. */
    constructor (source: Source, quota: int)
      ensures Valid() && fresh(reader)
      ensures reader.chunks == source.chunks && reader.ending == source.ending && reader.next == 0
      ensures this.quota == quota && bytesRead == 0 && status == Flowing && pushed == []
    {
      reader := new ChunkReader(source);
      this.quota := quota;
      bytesRead := 0;
      status := Flowing;
      pushed := [];
      taken := [];
    }

    /** One call of `_read`: take one result from the reader and act on it. */
    method Read()
      requires Valid() && status.Flowing?
      modifies this, reader
      ensures Valid()
      ensures old(reader.next) < |reader.chunks| ==>
        var c := reader.chunks[old(reader.next)];
        bytesRead == old(bytesRead) + |c| &&
        (if bytesRead > quota
         then status == Destroyed(QuotaExceeded) && pushed == old(pushed)
         else status == Flowing && pushed == old(pushed) + [c])
      ensures old(reader.next) == |reader.chunks| ==>
        bytesRead == old(bytesRead) && pushed == old(pushed) &&
        status == EndStatus(reader.ending)
      ensures var run := Run(reader.chunks[old(reader.next)..], reader.ending, quota, old(bytesRead));
        var rest := Run(reader.chunks[reader.next..], reader.ending, quota, bytesRead);
        (status.Flowing? ==>
           reader.next == old(reader.next) + 1 &&
           run.status == rest.status && old(pushed) + run.pushed == pushed + rest.pushed) &&
        (!status.Flowing? ==> status == run.status && pushed == old(pushed) + run.pushed)
    {
      ghost var unread := reader.chunks[reader.next..];
      ghost var counted := bytesRead;
      var r := reader.Read();
      match r
      case Done =>
        status := Ended;
      case Threw(e) =>
        status := Destroyed(ReadFailed(e));
      case Value(c) =>
        TotalLengthAppend(taken, c);
        assert reader.chunks[..reader.next] == taken + [c];
        taken := taken + [c];
        bytesRead := bytesRead + |c|;
        if bytesRead > quota {
          status := Destroyed(QuotaExceeded);
          assert pushed == taken[..|taken| - 1];
          assert pushed + [] == pushed;
        } else {
          RunStep(unread, reader.ending, quota, counted, pushed);
          assert unread[1..] == reader.chunks[reader.next..];
          pushed := pushed + [c];
        }
    }

    /**
     * The consumer pulling until the stream finishes: the end state is the
     * reference behaviour `Run` applied to the chunks not yet read.
     */
    method Consume()
      requires Valid() && status.Flowing?
      modifies this, reader
      ensures Valid() && !status.Flowing?
      ensures var r := Run(reader.chunks[old(reader.next)..], reader.ending, quota, old(bytesRead));
        status == r.status && pushed == old(pushed) + r.pushed
    {
      ghost var start := reader.next;
      ghost var final := Run(reader.chunks[start..], reader.ending, quota, bytesRead);
      ghost var pushed0 := pushed;
      assert reader.chunks[start..][..0] == [];
      while status.Flowing?
        invariant Valid()
        invariant start <= reader.next
        invariant status.Flowing? ==>
          (pushed0 + final.pushed ==
           pushed + Run(reader.chunks[reader.next..], reader.ending, quota, bytesRead).pushed)
        invariant status.Flowing? ==>
          (final.status == Run(reader.chunks[reader.next..], reader.ending, quota, bytesRead).status)
        invariant !status.Flowing? ==> status == final.status && pushed == pushed0 + final.pushed
        decreases |reader.chunks| - reader.next, if status.Flowing? then 1 else 0
      {
        Read();
      }
    }
  }

  /**
   * A whole transfer: a fresh stream over `source` with `quota`, drained by its
   * consumer. It forwards exactly the source when the source fits the quota,
   * and otherwise fails with "Quota exceeded" having forwarded no more than
   * the quota allows.
   */
  method Transfer(source: Source, quota: int) returns (status: Status, pushed: seq<Chunk>)
    ensures Outcome(status, pushed) == Run(source.chunks, source.ending, quota, 0)
    ensures !status.Flowing?
    ensures status == Destroyed(QuotaExceeded) <==>
      source.chunks != [] && TotalLength(source.chunks) > quota
    ensures source.chunks == [] || TotalLength(source.chunks) <= quota ==>
      pushed == source.chunks && status == EndStatus(source.ending)
    ensures |pushed| <= |source.chunks| && pushed == source.chunks[..|pushed|]
    ensures pushed != [] ==> TotalLength(pushed) <= quota
  {
    var s := new QuotaStream(source, quota);
    assert s.reader.chunks[0..] == source.chunks;
    s.Consume();
    status, pushed := s.status, s.pushed;
    RunQuotaExceededIff(source.chunks, source.ending, quota);
    RunForwardsWithinQuota(source.chunks, source.ending, quota);
    if source.chunks == [] || TotalLength(source.chunks) <= quota {
      RunWithinQuota(source.chunks, source.ending, quota, 0);
    }
  }
}
