/**
 * The specification side of HttpUrlConnectionImageDownloader.copy: what a
 * run of the copy loop writes, how far it gets before the request is
 * cancelled, and which progress callbacks it fires.
 */
module Transfer {
  import opened Wrappers

  newtype byte = x: int | 0 <= x < 256

  /** The chunks written one after another: what the sink holds afterwards. */
  function Flatten(chunks: seq<seq<byte>>): seq<byte>
  {
    if chunks == [] then [] else Flatten(chunks[..|chunks| - 1]) + chunks[|chunks| - 1]
  }

  lemma FlattenStep(chunks: seq<seq<byte>>, i: nat)
    requires i < |chunks|
    ensures Flatten(chunks[..i + 1]) == Flatten(chunks[..i]) + chunks[i]
  {
    assert chunks[..i + 1][..i] == chunks[..i];
  }

  /**
   * The request's cancel flag is level-triggered: it is raised once and
   * never lowered. `cancelFrom` is the index of the first poll of
   * isCanceled() that answers true (None: the request is never cancelled).
   */
  predicate CancelRaised(cancelFrom: Option<nat>, poll: nat)
  {
    cancelFrom.Some? && cancelFrom.value <= poll
  }

  /**
   * How many chunks the copy loop consumes when its first poll has index
   * `first` and the source holds `count` chunks: the loop polls before
   * every read, so it stops at the first raised poll, and otherwise after
   * the last chunk.
   */
  function StopIndex(cancelFrom: Option<nat>, first: nat, count: nat): (n: nat)
    ensures n <= count
    ensures forall k :: first <= k < first + n ==> !CancelRaised(cancelFrom, k)
    ensures n < count ==> CancelRaised(cancelFrom, first + n)
  {
    if cancelFrom.Some? && cancelFrom.value <= first + count then
      (if cancelFrom.value <= first then 0 else cancelFrom.value - first)
    else count
  }

  /** A loop that polled up to `first + i` and stopped there has consumed StopIndex chunks. */
  lemma StopIndexAt(cancelFrom: Option<nat>, first: nat, count: nat, i: nat)
    requires i <= count
    requires i > 0 ==> !CancelRaised(cancelFrom, first + i - 1)
    requires CancelRaised(cancelFrom, first + i) || i == count
    ensures i == StopIndex(cancelFrom, first, count)
  {
  }

  /** Java's `/` on long: the quotient is truncated toward zero, so the remainder takes the dividend's sign. */
  function JavaDiv(a: int, b: int): (q: int)
    requires b > 0
    ensures a >= 0 ==> 0 <= a - q * b < b
    ensures a < 0 ==> -b < a - q * b <= 0
  {
    if a >= 0 then a / b else -((-a) / b)
  }

  /** One onUpdateProgress(contentLength, completedLength) call. */
  datatype Progress = Progress(total: int, completed: int)

  /** The copy loop's counters: completedLength, callbackNumber, and the callbacks fired. */
  datatype Meter = Meter(completed: int, callbacks: nat, reports: seq<Progress>)

  /** One loop iteration after a read of `readNumber` bytes. */
  function Tick(m: Meter, readNumber: nat, contentLength: int, notify: bool): Meter
  {
    var completed := m.completed + readNumber;
    if notify && (completed >= (m.callbacks + 1) * JavaDiv(contentLength, 10) || completed == contentLength)
    then Meter(completed, m.callbacks + 1, m.reports + [Progress(contentLength, completed)])
    else Meter(completed, m.callbacks, m.reports)
  }

  /** The counters after the loop has copied `chunks`; `notify` says a progress callback is attached. */
  function Metered(contentLength: int, notify: bool, chunks: seq<seq<byte>>): Meter
  {
    if chunks == [] then Meter(0, 0, [])
    else Tick(Metered(contentLength, notify, chunks[..|chunks| - 1]), |chunks[|chunks| - 1]|, contentLength, notify)
  }

  lemma MeteredStep(contentLength: int, notify: bool, chunks: seq<seq<byte>>, i: nat)
    requires i < |chunks|
    ensures Metered(contentLength, notify, chunks[..i + 1])
         == Tick(Metered(contentLength, notify, chunks[..i]), |chunks[i]|, contentLength, notify)
  {
    assert chunks[..i + 1][..i] == chunks[..i];
  }

  /**
   * completedLength is the number of bytes written, callbackNumber counts
   * the callbacks made, at most one callback per read, none without a
   * callback, and every callback carries the declared length and a count
   * no larger than what has been written.
   */
  lemma {:induction false} MeteredCounts(contentLength: int, notify: bool, chunks: seq<seq<byte>>)
    ensures var m := Metered(contentLength, notify, chunks);
            && m.completed == |Flatten(chunks)|
            && m.callbacks == |m.reports| <= |chunks|
            && (!notify ==> m.reports == [])
            && forall i :: 0 <= i < |m.reports| ==>
                 m.reports[i].total == contentLength && 0 <= m.reports[i].completed <= m.completed
  {
    if chunks != [] {
      MeteredCounts(contentLength, notify, chunks[..|chunks| - 1]);
    }
  }

  /** When every read returns at least one byte, the reported counts strictly increase. */
  lemma {:induction false} MeteredIncreasing(contentLength: int, notify: bool, chunks: seq<seq<byte>>)
    requires forall i :: 0 <= i < |chunks| ==> |chunks[i]| > 0
    ensures var r := Metered(contentLength, notify, chunks).reports;
            forall i, j :: 0 <= i < j < |r| ==> r[i].completed < r[j].completed
  {
    if chunks != [] {
      var prefix := chunks[..|chunks| - 1];
      MeteredIncreasing(contentLength, notify, prefix);
      MeteredCounts(contentLength, notify, prefix);
    }
  }

  /**
   * When the source yields exactly the declared length, the last read
   * triggers a callback reporting (contentLength, contentLength).
   */
  lemma MeteredReachesLength(contentLength: int, chunks: seq<seq<byte>>)
    requires |chunks| > 0 && |Flatten(chunks)| == contentLength
    ensures var r := Metered(contentLength, true, chunks).reports;
            |r| > 0 && r[|r| - 1] == Progress(contentLength, contentLength)
  {
    MeteredCounts(contentLength, true, chunks[..|chunks| - 1]);
  }

  /** `count` reads of one byte each. */
  function OneByteReads(count: nat): (chunks: seq<seq<byte>>)
    ensures |chunks| == count && forall i :: 0 <= i < count ==> chunks[i] == [0]
  {
    seq(count, _ => [0])
  }

  lemma {:induction false} OneByteReadsReportEach(contentLength: int, count: nat)
    requires 10 <= contentLength < 20
    ensures var m := Metered(contentLength, true, OneByteReads(count));
            m.completed == count && m.callbacks == count
  {
    if count > 0 {
      var chunks := OneByteReads(count);
      assert chunks[..count - 1] == OneByteReads(count - 1);
      OneByteReadsReportEach(contentLength, count - 1);
    }
  }

  /**
   * averageLength = contentLength / 10 rounds down and callbackNumber
   * advances by one per callback, so callbacks are not capped at ten:
   * a body of 10..19 bytes read one byte at a time fires one callback per byte.
   */
  lemma CallbacksNotCappedAtTen(contentLength: int)
    requires 10 <= contentLength < 20
    ensures |Metered(contentLength, true, OneByteReads(contentLength)).reports| == contentLength
  {
    OneByteReadsReportEach(contentLength, contentLength);
    MeteredCounts(contentLength, true, OneByteReads(contentLength));
  }
}
