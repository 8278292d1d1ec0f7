/**
 * HttpUrlConnectionImageDownloader: per-URL locks, a retry loop around a
 * single download attempt, the attempt itself (cache-hit short cut,
 * response checks, durable or in-memory mode, in-flight marking and
 * rollback), and the copy loop with progress callbacks.
 *
 * The network, the disk-cache oracle, the file system and the cancel flag
 * are inputs: a scripted exchange per connection, a function answering
 * applyForSpace, a map of existing files, and a cancel schedule.
 */
module Download {
  import opened Wrappers
  import opened Transfer

  /** Throwables raised by the connection or its input stream. */
  datatype Failure = SocketTimeout | InterruptedIO | OtherIO | Unexpected

  /** How reading the body ends once its chunks are used up. */
  datatype StreamEnd = EndOfStream | Broken(failure: Failure)

  /** What getInputStream() gives: a throwable, or chunks followed by an end. */
  datatype Body = Unavailable(failure: Failure) | Stream(chunks: seq<seq<byte>>, end: StreamEnd)

  /**
   * One connection: either opening it or reading the status throws, or it
   * answers with a status code, the Content-Length header as
   * getHeaderFieldInt gives it (-1 when absent) and a body.
   */
  datatype Exchange =
    | Unreachable(failure: Failure)
    | Reply(status: int, contentLength: int, body: Body)

  /** Throwables leaving realDownload. */
  datatype Thrown = Canceled | BadStatus(code: int) | BadContentLength | Network(failure: Failure)

  /** download's result: null, the cache file, or the bytes of the in-memory buffer. */
  datatype Outcome = NoResult | CacheFile(path: string) | Bytes(data: seq<byte>)

  /** realDownload either returns a value or throws. */
  datatype AttemptResult = Returned(outcome: Outcome) | Threw(thrown: Thrown)

  /** copy either returns completedLength or throws. */
  datatype CopyResult = Copied(length: int) | CopyFailed(failure: Failure)

  /** SocketTimeoutException and InterruptedIOException are the retried throwables. */
  predicate Retryable(t: Thrown)
  {
    t.Network? && (t.failure == SocketTimeout || t.failure == InterruptedIO)
  }

  /** The bytes a reply's body stream serves before it ends. */
  function Served(e: Exchange): seq<byte>
  {
    if e.Reply? && e.body.Stream? then Flatten(e.body.chunks) else []
  }

  /** The throwables an exchange can raise. */
  predicate Raises(e: Exchange, f: Failure)
  {
    || (e.Unreachable? && e.failure == f)
    || (e.Reply? && e.body.Unavailable? && e.body.failure == f)
    || (e.Reply? && e.body.Stream? && e.body.end == Broken(f))
  }

  /** A reply that passes every check and whose body reads to the end. */
  predicate GoodReply(e: Exchange)
  {
    GoodReplyStatus(e) && e.body.Stream? && e.body.end.EndOfStream?
  }

  /** A reply whose status and Content-Length pass the checks. */
  predicate GoodReplyStatus(e: Exchange)
  {
    e.Reply? && e.status < 300 && e.contentLength > 0
  }

  /** A reply refused for its status or its Content-Length. */
  predicate Rejected(e: Exchange)
  {
    e.Reply? && (e.status >= 300 || e.contentLength <= 0)
  }

  /** A connection that times out or is interrupted before answering. */
  predicate TimesOut(e: Exchange)
  {
    e.Unreachable? && (e.failure == SocketTimeout || e.failure == InterruptedIO)
  }

  /** The request's cache file already exists. */
  predicate CacheHit(cacheFile: Option<string>, files: map<string, seq<byte>>)
  {
    cacheFile.Some? && cacheFile.value in files
  }

  /** The number of attempts the retry loop allows: the first plus maxRetryCount retries. */
  function MaxAttempts(maxRetryCount: int): (n: nat)
    ensures n >= 1 && n > maxRetryCount
  {
    (if maxRetryCount > 0 then maxRetryCount else 0) + 1
  }

  /**
   * How one attempt against a never-cancelled request ends, given its
   * exchange: the throwable realDownload throws, or None when it returns.
   */
  function Fate(e: Exchange): (t: Option<Thrown>)
    ensures t.None? <==> GoodReply(e)
    ensures t.Some? && Retryable(t.value) ==> Raises(e, t.value.failure)
    ensures Rejected(e) ==> t.Some? && !Retryable(t.value)
  {
    match e
    case Unreachable(f) => Some(Network(f))
    case Reply(status, contentLength, body) =>
      if status >= 300 then Some(BadStatus(status))
      else if contentLength <= 0 then Some(BadContentLength)
      else match body
        case Unavailable(f) => Some(Network(f))
        case Stream(_, end) => if end.Broken? then Some(Network(end.failure)) else None
  }

  /**
   * The polls of the stream part of an attempt when none of them answers
   * true: none before getInputStream's throwable; otherwise the one after
   * getInputStream, one before each read (the last read ends the stream or
   * throws) and, when the stream ends, the one after the copy.
   */
  function ReceivePolls(body: Body): nat
  {
    match body
    case Unavailable(_) => 0
    case Stream(chunks, end) => if end.Broken? then |chunks| + 2 else |chunks| + 3
  }

  /**
   * The polls of an attempt after realDownload's first one, when none of
   * them answers true: none when the server is unreachable, the one after
   * the response code when the reply is refused, and otherwise that one,
   * the one after createFile and those of the stream part.
   */
  function AttemptPolls(e: Exchange): nat
  {
    if e.Unreachable? then 0
    else if e.status >= 300 || e.contentLength <= 0 then 1
    else 2 + ReceivePolls(e.body)
  }

  /** An attempt against a never-cancelled request throws a throwable download retries. */
  predicate EndsRetryable(e: Exchange)
  {
    Fate(e).Some? && Retryable(Fate(e).value)
  }

  /** Each of the `count` attempts from connection `start` throws a throwable download retries. */
  predicate AllEndRetryable(script: nat -> Exchange, start: nat, count: nat)
  {
    count == 0 || (AllEndRetryable(script, start, count - 1) && EndsRetryable(script(start + count - 1)))
  }

  /** AllEndRetryable seen from its first attempt. */
  lemma {:induction false} AllEndRetryableFirst(script: nat -> Exchange, start: nat, count: nat)
    requires count > 0 && AllEndRetryable(script, start, count)
    ensures EndsRetryable(script(start)) && AllEndRetryable(script, start + 1, count - 1)
    decreases count
  {
    if count > 1 {
      AllEndRetryableFirst(script, start, count - 1);
    }
  }

  /** The progress reports an attempt against a never-cancelled request makes: one copy of the whole body, if it gets that far. */
  function Reported(e: Exchange, hasProgressCallback: bool): seq<Progress>
  {
    if GoodReplyStatus(e) && e.body.Stream? then Metered(e.contentLength, hasProgressCallback, e.body.chunks).reports else []
  }

  /** The progress reports of `count` attempts from connection `start` against a never-cancelled request, in order. */
  function RunReported(script: nat -> Exchange, start: nat, count: nat, hasProgressCallback: bool): seq<Progress>
  {
    if count == 0 then []
    else RunReported(script, start, count - 1, hasProgressCallback) + Reported(script(start + count - 1), hasProgressCallback)
  }

  /**
   * The polls of `count` attempts from connection `start` when none of them
   * answers true and no cache file is found: realDownload's first one and
   * those of each attempt.
   */
  function RunPolls(script: nat -> Exchange, start: nat, count: nat): nat
  {
    if count == 0 then 0 else RunPolls(script, start, count - 1) + 1 + AttemptPolls(script(start + count - 1))
  }

  /**
   * The number of connections download makes for a never-cancelled request
   * that finds no cache file, from connection `start` with `retries`
   * retries left: one more for each retried throwable, until a connection
   * ends another way or no retry is left.
   */
  function RunAttempts(script: nat -> Exchange, start: nat, retries: nat): (n: nat)
    ensures 1 <= n <= retries + 1
    decreases retries
  {
    if retries > 0 && EndsRetryable(script(start)) then 1 + RunAttempts(script, start + 1, retries - 1) else 1
  }

  /**
   * The loop's stopping rule matches RunAttempts: after `number` retried
   * attempts, an attempt that is not retried, or that has no retry left,
   * is the last of RunAttempts' count.
   */
  lemma {:induction false} RunAttemptsStops(script: nat -> Exchange, start: nat, retries: nat, number: nat)
    requires number <= retries
    requires AllEndRetryable(script, start, number)
    requires number == retries || !EndsRetryable(script(start + number))
    ensures RunAttempts(script, start, retries) == number + 1
    decreases number
  {
    if number > 0 {
      AllEndRetryableFirst(script, start, number);
      RunAttemptsStops(script, start + 1, retries - 1, number - 1);
    }
  }

  /** A server that always times out is connected to once per allowed attempt. */
  lemma {:induction false} TimingOutUsesEveryAttempt(script: nat -> Exchange, start: nat, retries: nat)
    requires forall k :: start <= k <= start + retries ==> TimesOut(script(k))
    ensures RunAttempts(script, start, retries) == retries + 1
    decreases retries
  {
    if retries > 0 {
      TimingOutUsesEveryAttempt(script, start + 1, retries - 1);
    }
  }

  /** The file system: existing files and their contents. */
  class FileSystem {
    var files: map<string, seq<byte>>
    /** Paths where createNewFile fails (a missing directory that cannot be made, no permission). */
    const uncreatable: set<string>

    constructor (files: map<string, seq<byte>>, uncreatable: set<string>)
      ensures this.files == files && this.uncreatable == uncreatable
    {
      this.files := files;
      this.uncreatable := uncreatable;
    }
  }

  /**
   * createFile: makes the file when it is missing and reports whether it
   * exists afterwards. Creation swallows its IOException.
   */
  method CreateFile(fs: FileSystem, path: string) returns (created: bool)
    modifies fs
    ensures created <==> path in fs.files
    ensures created <==> path in old(fs.files) || path !in fs.uncreatable
    ensures path in old(fs.files) || path in fs.uncreatable ==> fs.files == old(fs.files)
    ensures path !in old(fs.files) && path !in fs.uncreatable ==> fs.files == old(fs.files)[path := []]
  {
    if path !in fs.files {
      if path !in fs.uncreatable {
        fs.files := fs.files[path := []];
      }
    }
    created := path in fs.files;
  }

  /** The remote side: connection number k answers script(k). */
  class Network {
    const script: nat -> Exchange
    var connections: nat

    constructor (script: nat -> Exchange)
      ensures this.script == script && connections == 0
    {
      this.script := script;
      connections := 0;
    }

    /** openConnection() followed by getResponseCode(). */
    method OpenConnection() returns (e: Exchange)
      modifies this
      ensures connections == old(connections) + 1 && e == script(old(connections))
    {
      e := script(connections);
      connections := connections + 1;
    }
  }

  /** The parts of DownloadRequest the downloader uses. */
  class DownloadRequest {
    const uri: string
    const cacheFile: Option<string>
    const hasProgressCallback: bool
    /** Index of the first isCanceled() poll that answers true. */
    const cancelFrom: Option<nat>
    /** How many times isCanceled() has been polled. */
    var polls: nat
    /** The onUpdateProgress calls received, in order. */
    var progress: seq<Progress>

    constructor (uri: string, cacheFile: Option<string>, hasProgressCallback: bool, cancelFrom: Option<nat>)
      ensures this.uri == uri && this.cacheFile == cacheFile
      ensures this.hasProgressCallback == hasProgressCallback && this.cancelFrom == cancelFrom
      ensures polls == 0 && progress == []
    {
      this.uri := uri;
      this.cacheFile := cacheFile;
      this.hasProgressCallback := hasProgressCallback;
      this.cancelFrom := cancelFrom;
      polls := 0;
      progress := [];
    }

    predicate CanceledBy(poll: nat)
    {
      CancelRaised(cancelFrom, poll)
    }

    /** None of the first `polls` polls of isCanceled() answers true. */
    predicate NotCanceledBefore(polls: nat)
    {
      cancelFrom.None? || polls <= cancelFrom.value
    }

    method IsCanceled() returns (canceled: bool)
      modifies this`polls
      ensures polls == old(polls) + 1 && canceled == CanceledBy(old(polls))
    {
      canceled := CanceledBy(polls);
      polls := polls + 1;
    }

    method OnUpdateProgress(total: int, completed: int)
      requires hasProgressCallback
      modifies this`progress
      ensures progress == old(progress) + [Progress(total, completed)]
    {
      progress := progress + [Progress(total, completed)];
    }
  }

  /**
   * The output stream copy writes to: a FileOutputStream on the cache file
   * (target = Some(path)) or a ByteArrayOutputStream (target = None).
   * `written` is everything written since it was opened.
   */
  class Sink {
    const fs: FileSystem
    const target: Option<string>
    var buffer: seq<byte>
    ghost var written: seq<byte>

    ghost predicate Valid()
      reads this, fs
    {
      && (target.Some? ==> target.value in fs.files && fs.files[target.value] == written)
      && (target.None? ==> buffer == written)
    }

    constructor InMemory(fs: FileSystem)
      ensures Valid() && this.fs == fs && target == None && written == []
    {
      this.fs := fs;
      target := None;
      buffer := [];
      written := [];
    }

    /** new FileOutputStream(file, false): creates or truncates the file. */
    constructor ToFile(fs: FileSystem, path: string)
      modifies fs
      ensures Valid() && this.fs == fs && target == Some(path) && written == []
      ensures fs.files == old(fs.files)[path := []]
    {
      this.fs := fs;
      target := Some(path);
      buffer := [];
      written := [];
      new;
      fs.files := fs.files[path := []];
    }

    method Write(chunk: seq<byte>)
      requires Valid()
      modifies this, fs
      ensures Valid() && written == old(written) + chunk
      ensures target.None? ==> fs.files == old(fs.files)
      ensures target.Some? ==> fs.files == old(fs.files)[target.value := written]
    {
      if target.Some? {
        fs.files := fs.files[target.value := fs.files[target.value] + chunk];
      } else {
        buffer := buffer + chunk;
      }
      written := written + chunk;
    }
  }

  /** A ReentrantLock, reduced to its hold count. */
  class UrlLock {
    var holdCount: nat

    constructor ()
      ensures holdCount == 0
    {
      holdCount := 0;
    }

    method Lock()
      modifies this
      ensures holdCount == old(holdCount) + 1
    {
      holdCount := holdCount + 1;
    }

    method Unlock()
      requires holdCount > 0
      modifies this
      ensures holdCount == old(holdCount) - 1
    {
      holdCount := holdCount - 1;
    }
  }

  /** Durable mode is chosen: a cache file was asked for, space was granted and the file could be created. */
  predicate Durable(cacheFile: Option<string>, e: Exchange, applyForSpace: int -> bool, fs: FileSystem)
  {
    cacheFile.Some? && e.Reply? && applyForSpace(e.contentLength) && cacheFile.value !in fs.uncreatable
  }

  /**
   * What an attempt promises once its reply is known: `poll`, `files0` and
   * `progress0` are the poll count, the files and the progress reports when
   * it reached its next checkpoint, `polls`, `files` and `progress` the same
   * when it ended with `r`.
   */
  ghost predicate Ended(request: DownloadRequest, e: Exchange, applyForSpace: int -> bool, fs: FileSystem,
                        poll: nat, files0: map<string, seq<byte>>, progress0: seq<Progress>,
                        polls: nat, files: map<string, seq<byte>>, progress: seq<Progress>, r: AttemptResult)
  {
    && polls >= poll
    && r != Returned(NoResult)
    // null is not returned after the first checkpoint; a checkpoint that sees the flag throws, and only such a one
    && (r == Threw(Canceled) <==> polls > poll && request.CanceledBy(polls - 1))
    // rollback: a throwing attempt leaves the file system as it found it
    && (r.Threw? ==> files == files0)
    && (r.Threw? && r.thrown.Network? ==> Raises(e, r.thrown.failure))
    // a completed attempt passed every checkpoint, and returns the cache file when it could be used, the bytes otherwise
    && (r.Returned? ==>
          && polls > poll && !request.CanceledBy(polls - 1)
          && GoodReplyStatus(e) && e.body.Stream?
          && r.outcome == (if Durable(request.cacheFile, e, applyForSpace, fs)
                           then CacheFile(request.cacheFile.value) else Bytes(Served(e)))
          && files == (if Durable(request.cacheFile, e, applyForSpace, fs)
                       then files0[request.cacheFile.value := Served(e)] else files0))
    // while no poll has answered true, the exchange alone decides the ending and the progress reports
    && (request.NotCanceledBefore(polls) ==>
          && (Fate(e).Some? ==> r == Threw(Fate(e).value))
          && (Fate(e).None? ==> r.Returned?)
          && progress == progress0 + Reported(e, request.hasProgressCallback))
  }

  /**
   * The order of the checkpoints of an attempt past the response checks,
   * `poll` being the index of the one after createFile: a flag raised there
   * throws before the file is marked or the body is asked for;
   * getInputStream's throwable comes before the next poll; a flag raised at
   * that poll throws before any read. None of these reports progress.
   */
  ghost predicate Checkpoints(request: DownloadRequest, e: Exchange, poll: nat, progress0: seq<Progress>,
                              polls: nat, progress: seq<Progress>, r: AttemptResult)
  {
    && (request.CanceledBy(poll) ==> r == Threw(Canceled) && polls == poll + 1 && progress == progress0)
    && (!request.CanceledBy(poll) && e.Reply? && e.body.Unavailable? ==>
          r == Threw(Network(e.body.failure)) && polls == poll + 1 && progress == progress0)
    && (!request.CanceledBy(poll) && e.Reply? && e.body.Stream? && request.CanceledBy(poll + 1) ==>
          r == Threw(Canceled) && polls == poll + 2 && progress == progress0)
    // when none of its polls answers true, the attempt makes all of them
    && (e.Reply? && (request.NotCanceledBefore(polls) || request.NotCanceledBefore(poll + 1 + ReceivePolls(e.body))) ==>
          polls == poll + 1 + ReceivePolls(e.body))
  }

  /**
   * What an attempt that got past the cache-hit check promises: it ends as
   * above; an unreachable server throws before the next checkpoint; a reply
   * is followed by a checkpoint, and then a status of 300 or more and a
   * missing or non-positive Content-Length each throw their own throwable;
   * past those checks, the later checkpoints keep their order.
   */
  ghost predicate Attempted(request: DownloadRequest, e: Exchange, applyForSpace: int -> bool, fs: FileSystem,
                            poll: nat, files0: map<string, seq<byte>>, progress0: seq<Progress>,
                            polls: nat, files: map<string, seq<byte>>, progress: seq<Progress>, r: AttemptResult)
  {
    && Ended(request, e, applyForSpace, fs, poll, files0, progress0, polls, files, progress, r)
    && (e.Unreachable? ==> r == Threw(Network(e.failure)) && polls == poll)
    && (e.Reply? ==> polls > poll)
    && (e.Reply? && request.CanceledBy(poll) ==> r == Threw(Canceled))
    && (e.Reply? && !request.CanceledBy(poll) ==>
          && (e.status >= 300 ==> r == Threw(BadStatus(e.status)))
          && (e.status < 300 && e.contentLength <= 0 ==> r == Threw(BadContentLength)))
    && (GoodReplyStatus(e) && !request.CanceledBy(poll) ==>
          Checkpoints(request, e, poll + 1, progress0, polls, progress, r))
    // when none of its polls answers true, the attempt makes all of them
    && (request.NotCanceledBefore(polls) || request.NotCanceledBefore(poll + AttemptPolls(e)) ==>
          polls == poll + AttemptPolls(e))
  }

  /** The value download returns once its latest attempt has ended this way. */
  function ResultOf(r: AttemptResult): Outcome
  {
    if r.Returned? then r.outcome else NoResult
  }

  /**
   * The state download and its attempts change: the cancel flag's poll
   * count, the connection count, the files and the progress reports.
   */
  datatype World = World(polls: nat, connections: nat, files: map<string, seq<byte>>, progress: seq<Progress>)

  ghost function Now(request: DownloadRequest, network: Network, fs: FileSystem): World
    reads request, network, fs
  {
    World(request.polls, network.connections, fs.files, request.progress)
  }

  /** No poll of the run from `w0` to `w` answers true, and the cache file is missing at its start. */
  predicate Plain(request: DownloadRequest, w0: World, w: World)
  {
    request.NotCanceledBefore(w.polls) && !CacheHit(request.cacheFile, w0.files)
  }

  /**
   * What realDownload promises, from `w0` to `w`: the first checkpoint and
   * the cache-hit short cut come before any network activity; otherwise
   * exactly one connection is opened and the attempt ends as Attempted says;
   * null is returned only at the first checkpoint.
   */
  ghost predicate RealDownloaded(request: DownloadRequest, network: Network, applyForSpace: int -> bool, fs: FileSystem,
                                 w0: World, w: World, r: AttemptResult)
  {
    && w.polls > w0.polls
    && (request.CanceledBy(w0.polls) ==>
          r == Returned(NoResult) && w.connections == w0.connections && w.files == w0.files && w.progress == w0.progress)
    && (!request.CanceledBy(w0.polls) && CacheHit(request.cacheFile, w0.files) ==>
          && r == Returned(CacheFile(request.cacheFile.value))
          && w.connections == w0.connections && w.files == w0.files && w.progress == w0.progress)
    && (!request.CanceledBy(w0.polls) && !CacheHit(request.cacheFile, w0.files) ==>
          && w.connections == w0.connections + 1
          && Attempted(request, network.script(w0.connections), applyForSpace, fs,
                       w0.polls + 1, w0.files, w0.progress, w.polls, w.files, w.progress, r))
    && (r == Returned(NoResult) ==> request.CanceledBy(w0.polls))
  }

  /**
   * What holds after each attempt of download, from the state `w0` download
   * started in to the state `w` now, given the value the latest attempt
   * leaves as download's result.
   */
  ghost predicate AfterAttempt(request: DownloadRequest, network: Network, applyForSpace: int -> bool, fs: FileSystem,
                               w0: World, w: World, result: Outcome)
  {
    && w0.connections <= w.connections && w.polls >= w0.polls
    // cancellation before the first checkpoint, and the cache-hit short cut
    && (request.CanceledBy(w0.polls) ==>
          result == NoResult && w.connections == w0.connections && w.files == w0.files)
    && (!request.CanceledBy(w0.polls) && CacheHit(request.cacheFile, w0.files) ==>
          result == CacheFile(request.cacheFile.value) && w.connections == w0.connections && w.files == w0.files)
    // results
    && (result.CacheFile? ==> request.cacheFile == Some(result.path) && result.path in w.files)
    && (result.Bytes? ==> w0.connections < w.connections && result.data == Served(network.script(w.connections - 1)))
    && (!result.CacheFile? ==> w.files == w0.files)
    // a downloaded result means no checkpoint saw the request cancelled
    && (result.Bytes? || (result.CacheFile? && !CacheHit(request.cacheFile, w0.files)) ==>
          w.polls > w0.polls && !request.CanceledBy(w.polls - 1))
    // a run in which no poll answers true and that finds no cache file: the last exchange decides the result
    && (Plain(request, w0, w) ==>
          && w0.connections < w.connections
          && var last := network.script(w.connections - 1);
             var durable := GoodReply(last) && Durable(request.cacheFile, last, applyForSpace, fs);
             && result == (if !GoodReply(last) then NoResult
                           else if durable then CacheFile(request.cacheFile.value) else Bytes(Served(last)))
             && w.files == (if durable then w0.files[request.cacheFile.value := Served(last)] else w0.files))
  }

  /**
   * The retry loop's invariant after `number` retries, the latest attempt
   * having ended with `r`: AfterAttempt, the connections made, and for a
   * run in which no poll answers true and that finds no cache file, that
   * every earlier attempt ended in a retried throwable, the latest one
   * ended as Fate says, and the progress reports and the polls are those
   * of the attempts.
   */
  ghost predicate Retrying(request: DownloadRequest, network: Network, applyForSpace: int -> bool, fs: FileSystem,
                           w0: World, w: World, number: nat, r: AttemptResult)
  {
    && AfterAttempt(request, network, applyForSpace, fs, w0, w, ResultOf(r))
    && w.connections <= w0.connections + number + 1
    && (r.Threw? ==> && !request.CanceledBy(w0.polls) && !CacheHit(request.cacheFile, w0.files)
                     && w.connections == w0.connections + number + 1)
    && (Plain(request, w0, w) ==>
          && w.connections == w0.connections + number + 1
          && AllEndRetryable(network.script, w0.connections, number)
          && Fate(network.script(w0.connections + number)) == (if r.Threw? then Some(r.thrown) else None)
          && w.progress == w0.progress + RunReported(network.script, w0.connections, number + 1, request.hasProgressCallback)
          && w.polls == w0.polls + RunPolls(network.script, w0.connections, number + 1))
  }

  /**
   * What download promises as a whole: AfterAttempt for its result, at most
   * one connection per allowed attempt, and for a run in which no poll
   * answers true and that finds no cache file, exactly the connections
   * RunAttempts counts, and the progress reports and the polls of those
   * attempts.
   */
  ghost predicate Retried(request: DownloadRequest, network: Network, applyForSpace: int -> bool, fs: FileSystem,
                          maxRetryCount: int, w0: World, w: World, result: Outcome)
  {
    && AfterAttempt(request, network, applyForSpace, fs, w0, w, result)
    && w.connections <= w0.connections + MaxAttempts(maxRetryCount)
    && (Plain(request, w0, w) ==>
          var n := RunAttempts(network.script, w0.connections, MaxAttempts(maxRetryCount) - 1);
          && w.connections == w0.connections + n
          && w.progress == w0.progress + RunReported(network.script, w0.connections, n, request.hasProgressCallback)
          && w.polls == w0.polls + RunPolls(network.script, w0.connections, n))
  }

  /** download retries after an attempt that threw a socket timeout or an interrupted read, while `number` retries leave one. */
  predicate Retries(r: AttemptResult, number: nat, maxRetryCount: int)
  {
    r.Threw? && Retryable(r.thrown) && number < maxRetryCount
  }

  /** realDownload took `worlds[i]` to `worlds[i + 1]` with `results[i]`, for every attempt so far. */
  ghost predicate Steps(request: DownloadRequest, network: Network, applyForSpace: int -> bool, fs: FileSystem,
                        worlds: seq<World>, results: seq<AttemptResult>)
  {
    && |worlds| == |results| + 1
    && forall i {:trigger RealDownloaded(request, network, applyForSpace, fs, worlds[i], worlds[i + 1], results[i])} ::
         0 <= i < |results| ==> RealDownloaded(request, network, applyForSpace, fs, worlds[i], worlds[i + 1], results[i])
  }

  /** One more attempt extends the steps. */
  lemma StepsExtend(request: DownloadRequest, network: Network, applyForSpace: int -> bool, fs: FileSystem,
                    worlds: seq<World>, results: seq<AttemptResult>, w: World, r: AttemptResult)
    requires Steps(request, network, applyForSpace, fs, worlds, results)
    requires RealDownloaded(request, network, applyForSpace, fs, worlds[|worlds| - 1], w, r)
    ensures Steps(request, network, applyForSpace, fs, worlds + [w], results + [r])
  {
  }

  /**
   * download attempt by attempt, from `w0` to `w`: realDownload takes
   * `worlds[i]` to `worlds[i + 1]` with `results[i]`; every attempt but the
   * last is retried, the last is not, and its value is the result.
   */
  ghost predicate Run(request: DownloadRequest, network: Network, applyForSpace: int -> bool, fs: FileSystem,
                      maxRetryCount: int, w0: World, w: World, worlds: seq<World>, results: seq<AttemptResult>,
                      result: Outcome)
  {
    && 1 <= |results| && Steps(request, network, applyForSpace, fs, worlds, results)
    && worlds[0] == w0 && worlds[|results|] == w
    && (forall i :: 0 <= i < |results| - 1 ==> Retries(results[i], i, maxRetryCount))
    && !Retries(results[|results| - 1], |results| - 1, maxRetryCount)
    && result == ResultOf(results[|results| - 1])
  }

  /** The retry loop's invariant holds after the first attempt. */
  lemma FirstAttempt(request: DownloadRequest, network: Network, applyForSpace: int -> bool, fs: FileSystem,
                     w0: World, w: World, r: AttemptResult)
    requires RealDownloaded(request, network, applyForSpace, fs, w0, w, r)
    ensures Retrying(request, network, applyForSpace, fs, w0, w, 0, r)
  {
    if !request.CanceledBy(w0.polls) && !CacheHit(request.cacheFile, w0.files) {
      var e := network.script(w0.connections);
      assert Attempted(request, e, applyForSpace, fs, w0.polls + 1, w0.files, w0.progress, w.polls, w.files, w.progress, r);
      if Plain(request, w0, w) {
        assert Fate(e) == (if r.Threw? then Some(r.thrown) else None);
        assert RunReported(network.script, w0.connections, 1, request.hasProgressCallback)
               == Reported(e, request.hasProgressCallback);
      }
    }
  }

  /** A retry keeps the retry loop's invariant. */
  lemma NextAttempt(request: DownloadRequest, network: Network, applyForSpace: int -> bool, fs: FileSystem,
                    w0: World, w1: World, number: nat, r1: AttemptResult, w2: World, r2: AttemptResult)
    requires Retrying(request, network, applyForSpace, fs, w0, w1, number, r1) && r1.Threw? && Retryable(r1.thrown)
    requires RealDownloaded(request, network, applyForSpace, fs, w1, w2, r2)
    ensures Retrying(request, network, applyForSpace, fs, w0, w2, number + 1, r2)
  {
    NextAfterAttempt(request, network, applyForSpace, fs, w0, w1, w2, r2);
    if Plain(request, w0, w2) {
      NextPlainAttempt(request, network, applyForSpace, fs, w0, w1, number, r1, w2, r2);
    }
  }

  /** NextAttempt in a run in which no poll answers true and that finds no cache file. */
  lemma NextPlainAttempt(request: DownloadRequest, network: Network, applyForSpace: int -> bool, fs: FileSystem,
                         w0: World, w1: World, number: nat, r1: AttemptResult, w2: World, r2: AttemptResult)
    requires Retrying(request, network, applyForSpace, fs, w0, w1, number, r1) && r1.Threw? && Retryable(r1.thrown)
    requires RealDownloaded(request, network, applyForSpace, fs, w1, w2, r2)
    requires AfterAttempt(request, network, applyForSpace, fs, w0, w2, ResultOf(r2)) && Plain(request, w0, w2)
    ensures Retrying(request, network, applyForSpace, fs, w0, w2, number + 1, r2)
  {
    assert Plain(request, w0, w1);
    assert EndsRetryable(network.script(w0.connections + number));
  }

  /**
   * After a retry, AfterAttempt holds of the retry's result: the attempt
   * before it threw, so the request was not cancelled at the start, found
   * no cache file and left the files as they were.
   */
  lemma NextAfterAttempt(request: DownloadRequest, network: Network, applyForSpace: int -> bool, fs: FileSystem,
                         w0: World, w1: World, w2: World, r2: AttemptResult)
    requires w0.connections <= w1.connections && w0.polls <= w1.polls && w1.files == w0.files
    requires !request.CanceledBy(w0.polls) && !CacheHit(request.cacheFile, w0.files)
    requires RealDownloaded(request, network, applyForSpace, fs, w1, w2, r2)
    ensures AfterAttempt(request, network, applyForSpace, fs, w0, w2, ResultOf(r2))
  {
  }

  /** When the retry loop stops, download's promise holds. */
  lemma LastAttempt(request: DownloadRequest, network: Network, applyForSpace: int -> bool, fs: FileSystem,
                    maxRetryCount: int, w0: World, w: World, number: nat, r: AttemptResult)
    requires Retrying(request, network, applyForSpace, fs, w0, w, number, r)
    requires number < MaxAttempts(maxRetryCount)
    requires !Retries(r, number, maxRetryCount)
    ensures Retried(request, network, applyForSpace, fs, maxRetryCount, w0, w, ResultOf(r))
  {
    if Plain(request, w0, w) {
      RunAttemptsStops(network.script, w0.connections, MaxAttempts(maxRetryCount) - 1, number);
    }
  }

  /** The retry loop's invariant holds after every attempt of a run. */
  lemma {:induction false} RetryingAlong(request: DownloadRequest, network: Network, applyForSpace: int -> bool,
                                         fs: FileSystem, maxRetryCount: int, worlds: seq<World>,
                                         results: seq<AttemptResult>, k: nat)
    requires k < |results| && Steps(request, network, applyForSpace, fs, worlds, results)
    requires forall i :: 0 <= i < |results| - 1 ==> Retries(results[i], i, maxRetryCount)
    ensures Retrying(request, network, applyForSpace, fs, worlds[0], worlds[k + 1], k, results[k])
    decreases k
  {
    if k == 0 {
      FirstAttempt(request, network, applyForSpace, fs, worlds[0], worlds[1], results[0]);
    } else {
      RetryingAlong(request, network, applyForSpace, fs, maxRetryCount, worlds, results, k - 1);
      RetryingStep(request, network, applyForSpace, fs, maxRetryCount, worlds, results, k);
    }
  }

  /** The induction step of RetryingAlong: attempt `k` follows a retried attempt `k - 1`. */
  lemma RetryingStep(request: DownloadRequest, network: Network, applyForSpace: int -> bool,
                     fs: FileSystem, maxRetryCount: int, worlds: seq<World>,
                     results: seq<AttemptResult>, k: nat)
    requires 0 < k < |results| && Steps(request, network, applyForSpace, fs, worlds, results)
    requires Retries(results[k - 1], k - 1, maxRetryCount)
    requires Retrying(request, network, applyForSpace, fs, worlds[0], worlds[k], k - 1, results[k - 1])
    ensures Retrying(request, network, applyForSpace, fs, worlds[0], worlds[k + 1], k, results[k])
  {
    NextAttempt(request, network, applyForSpace, fs, worlds[0], worlds[k], k - 1, results[k - 1],
                worlds[k + 1], results[k]);
  }

  /** A run of attempts keeps download's promise as a whole. */
  lemma RunRetried(request: DownloadRequest, network: Network, applyForSpace: int -> bool, fs: FileSystem,
                   maxRetryCount: int, w0: World, w: World, worlds: seq<World>, results: seq<AttemptResult>,
                   result: Outcome)
    requires Run(request, network, applyForSpace, fs, maxRetryCount, w0, w, worlds, results, result)
    ensures Retried(request, network, applyForSpace, fs, maxRetryCount, w0, w, result)
  {
    var last := |results| - 1;
    RetryingAlong(request, network, applyForSpace, fs, maxRetryCount, worlds, results, last);
    if last > 0 {
      assert Retries(results[last - 1], last - 1, maxRetryCount);
    }
    LastAttempt(request, network, applyForSpace, fs, maxRetryCount, w0, w, last, results[last]);
  }

  /** Attempt `i` of a run: the step realDownload took, and whether download retried it. */
  lemma RunAttempt(request: DownloadRequest, network: Network, applyForSpace: int -> bool, fs: FileSystem,
                   maxRetryCount: int, w0: World, w: World, worlds: seq<World>, results: seq<AttemptResult>,
                   result: Outcome, i: nat)
    requires Run(request, network, applyForSpace, fs, maxRetryCount, w0, w, worlds, results, result)
    requires i < |results|
    ensures RealDownloaded(request, network, applyForSpace, fs, worlds[i], worlds[i + 1], results[i])
    ensures i == 0 ==> worlds[i] == w0
    ensures Retries(results[i], i, maxRetryCount) <==> i < |results| - 1
    ensures i == |results| - 1 ==> worlds[i + 1] == w && result == ResultOf(results[i])
  {
  }

  class HttpUrlConnectionImageDownloader {
    /** Cache file paths being written. */
    var downloadingFiles: set<string>
    var urlLocks: map<string, UrlLock>
    var maxRetryCount: int
    var timeOut: int

    constructor ()
      ensures downloadingFiles == {} && urlLocks == map[]
      ensures maxRetryCount == 1 && timeOut == 15 * 1000
    {
      downloadingFiles := {};
      urlLocks := map[];
      maxRetryCount := 1;
      timeOut := 15 * 1000;
    }

    method SetMaxRetryCount(maxRetryCount: int)
      modifies this`maxRetryCount
      ensures this.maxRetryCount == maxRetryCount
    {
      this.maxRetryCount := maxRetryCount;
    }

    method SetTimeOut(timeOut: int)
      modifies this`timeOut
      ensures this.timeOut == timeOut
    {
      this.timeOut := timeOut;
    }

    /** Get-or-create on urlLocks: the lock already kept for `url`, or a new one, kept from now on. */
    method GetUrlLock(url: string) returns (lock: UrlLock)
      modifies this`urlLocks
      ensures url in urlLocks && urlLocks[url] == lock
      ensures url in old(urlLocks) ==> lock == old(urlLocks)[url] && urlLocks == old(urlLocks)
      ensures url !in old(urlLocks) ==> fresh(lock) && lock.holdCount == 0 && urlLocks == old(urlLocks)[url := lock]
    {
      if url in urlLocks {
        lock := urlLocks[url];
      } else {
        lock := new UrlLock();
        urlLocks := urlLocks[url := lock];
      }
    }

    /**
     * download: takes the URL's lock, runs the attempts, releases the lock
     * and returns the result, null for every failure.
     */
    method Download(request: DownloadRequest, network: Network, fs: FileSystem, applyForSpace: int -> bool)
      returns (result: Outcome)
      modifies this`downloadingFiles, this`urlLocks, request, network, fs, urlLocks.Values
      // the lock table: get-or-create, and the lock is released again
      ensures request.uri in urlLocks && urlLocks.Keys == old(urlLocks).Keys + {request.uri}
      ensures forall u :: u in old(urlLocks) ==> urlLocks[u] == old(urlLocks)[u]
      ensures forall u :: u in old(urlLocks) ==> urlLocks[u].holdCount == old(urlLocks[u].holdCount)
      ensures request.uri !in old(urlLocks) ==> fresh(urlLocks[request.uri]) && urlLocks[request.uri].holdCount == 0
      // attempt by attempt, and as a whole
      ensures exists worlds: seq<World>, results: seq<AttemptResult> ::
                Run(request, network, applyForSpace, fs, maxRetryCount, old(Now(request, network, fs)),
                    Now(request, network, fs), worlds, results, result)
      ensures Retried(request, network, applyForSpace, fs, maxRetryCount, old(Now(request, network, fs)),
                      Now(request, network, fs), result)
      // the in-flight set
      ensures request.cacheFile.None? || request.cacheFile.value !in old(downloadingFiles) ==>
                downloadingFiles == old(downloadingFiles)
      ensures downloadingFiles == old(downloadingFiles)
              || (request.cacheFile.Some? && downloadingFiles == old(downloadingFiles) - {request.cacheFile.value})
    {
      ghost var w0 := Now(request, network, fs);
      var urlLock := GetUrlLock(request.uri);
      urlLock.Lock();
      ghost var worlds, results;
      result, worlds, results := Attempts(request, network, fs, applyForSpace);
      urlLock.Unlock();
      assert Run(request, network, applyForSpace, fs, maxRetryCount, w0, Now(request, network, fs), worlds, results, result);
    }

    /**
     * The retry loop of download: realDownload is run until it returns, is
     * cancelled, or throws something other than a socket timeout or an
     * interrupted read, or throws one of those with no retry left.
     */
    method Attempts(request: DownloadRequest, network: Network, fs: FileSystem, applyForSpace: int -> bool)
      returns (result: Outcome, ghost worlds: seq<World>, ghost results: seq<AttemptResult>)
      modifies this`downloadingFiles, request, network, fs
      ensures Run(request, network, applyForSpace, fs, maxRetryCount, old(Now(request, network, fs)),
                  Now(request, network, fs), worlds, results, result)
      ensures Retried(request, network, applyForSpace, fs, maxRetryCount, old(Now(request, network, fs)),
                      Now(request, network, fs), result)
      ensures request.cacheFile.None? || request.cacheFile.value !in old(downloadingFiles) ==>
                downloadingFiles == old(downloadingFiles)
      ensures downloadingFiles == old(downloadingFiles)
              || (request.cacheFile.Some? && downloadingFiles == old(downloadingFiles) - {request.cacheFile.value})
    {
      ghost var w0 := Now(request, network, fs);
      var number := 0;
      var r;
      r, worlds, results := TracedDownload(request, network, fs, applyForSpace, [w0], []);
      // a returned value, a cancellation, and any other throwable end the loop; so does a lack of retries
      while r.Threw? && Retryable(r.thrown) && number < maxRetryCount
        invariant 0 <= number < MaxAttempts(maxRetryCount)
        invariant |results| == number + 1 && |worlds| == number + 2
        invariant worlds[0] == w0 && worlds[number + 1] == Now(request, network, fs) && results[number] == r
        invariant Steps(request, network, applyForSpace, fs, worlds, results)
        invariant forall i :: 0 <= i < number ==> Retries(results[i], i, maxRetryCount)
        invariant request.cacheFile.None? || request.cacheFile.value !in old(downloadingFiles) ==>
                    downloadingFiles == old(downloadingFiles)
        invariant downloadingFiles == old(downloadingFiles)
                  || (request.cacheFile.Some? && downloadingFiles == old(downloadingFiles) - {request.cacheFile.value})
        decreases MaxAttempts(maxRetryCount) - number
      {
        r, worlds, results := TracedDownload(request, network, fs, applyForSpace, worlds, results);
        number := number + 1;
      }
      result := ResultOf(r);
      RunRetried(request, network, applyForSpace, fs, maxRetryCount, w0, Now(request, network, fs), worlds, results, result);
    }

    /** realDownload, with the attempt appended to the trace of the attempts so far. */
    method TracedDownload(request: DownloadRequest, network: Network, fs: FileSystem, applyForSpace: int -> bool,
                          ghost worlds: seq<World>, ghost results: seq<AttemptResult>)
      returns (r: AttemptResult, ghost worlds': seq<World>, ghost results': seq<AttemptResult>)
      modifies this`downloadingFiles, request, network, fs
      requires Steps(request, network, applyForSpace, fs, worlds, results)
      requires worlds[|worlds| - 1] == Now(request, network, fs)
      ensures worlds' == worlds + [Now(request, network, fs)] && results' == results + [r]
      ensures Steps(request, network, applyForSpace, fs, worlds', results')
      ensures request.cacheFile.None? || request.cacheFile.value !in old(downloadingFiles) ==>
                downloadingFiles == old(downloadingFiles)
      ensures downloadingFiles == old(downloadingFiles)
              || (request.cacheFile.Some? && downloadingFiles == old(downloadingFiles) - {request.cacheFile.value})
    {
      r := RealDownload(request, network, fs, applyForSpace);
      StepsExtend(request, network, applyForSpace, fs, worlds, results, Now(request, network, fs), r);
      worlds' := worlds + [Now(request, network, fs)];
      results' := results + [r];
    }

    /**
     * realDownload: one attempt. Returns null when the request is already
     * cancelled and the cache file when it already exists; otherwise opens
     * a connection and hands it to the guarded part of the attempt.
     */
    method RealDownload(request: DownloadRequest, network: Network, fs: FileSystem, applyForSpace: int -> bool)
      returns (r: AttemptResult)
      modifies this`downloadingFiles, request, network, fs
      ensures RealDownloaded(request, network, applyForSpace, fs, old(Now(request, network, fs)), Now(request, network, fs), r)
      // the in-flight set is restored
      ensures request.cacheFile.None? || request.cacheFile.value !in old(downloadingFiles) ==>
                downloadingFiles == old(downloadingFiles)
      ensures downloadingFiles == old(downloadingFiles)
              || (request.cacheFile.Some? && downloadingFiles == old(downloadingFiles) - {request.cacheFile.value})
    {
      var canceled := request.IsCanceled();
      if canceled {
        return Returned(NoResult);
      }
      var cacheFile := request.cacheFile;
      if cacheFile.Some? && cacheFile.value in fs.files {
        return Returned(CacheFile(cacheFile.value));
      }
      var exchange := network.OpenConnection();
      r := Attempt(request, exchange, fs, applyForSpace);
    }

    /**
     * The try block of realDownload up to the Content-Length check. Nothing
     * has been created or marked yet when one of these checks throws, so
     * the catch block has nothing to undo.
     */
    method Attempt(request: DownloadRequest, e: Exchange, fs: FileSystem, applyForSpace: int -> bool)
      returns (r: AttemptResult)
      requires !CacheHit(request.cacheFile, fs.files)
      modifies this`downloadingFiles, request, fs
      ensures Attempted(request, e, applyForSpace, fs, old(request.polls), old(fs.files), old(request.progress),
                        request.polls, fs.files, request.progress, r)
      ensures request.cacheFile.None? || request.cacheFile.value !in old(downloadingFiles) ==>
                downloadingFiles == old(downloadingFiles)
      ensures downloadingFiles == old(downloadingFiles)
              || (request.cacheFile.Some? && downloadingFiles == old(downloadingFiles) - {request.cacheFile.value})
    {
      if e.Unreachable? {
        return Threw(Network(e.failure));
      }
      var canceled := request.IsCanceled();
      if canceled {
        return Threw(Canceled);
      }
      if e.status >= 300 {
        return Threw(BadStatus(e.status));
      }
      if e.contentLength <= 0 {
        return Threw(BadContentLength);
      }
      r := Store(request, e, fs, applyForSpace);
    }

    /**
     * The rest of the try block and its catch: durable or in-memory mode,
     * then the guarded part of the attempt.
     */
    method Store(request: DownloadRequest, e: Exchange, fs: FileSystem, applyForSpace: int -> bool)
      returns (r: AttemptResult)
      requires GoodReplyStatus(e) && !CacheHit(request.cacheFile, fs.files)
      modifies this`downloadingFiles, request, fs
      ensures Ended(request, e, applyForSpace, fs, old(request.polls), old(fs.files), old(request.progress),
                    request.polls, fs.files, request.progress, r)
      ensures Checkpoints(request, e, old(request.polls), old(request.progress), request.polls, request.progress, r)
      ensures request.cacheFile.None? || request.cacheFile.value !in old(downloadingFiles) ==>
                downloadingFiles == old(downloadingFiles)
      ensures downloadingFiles == old(downloadingFiles)
              || (request.cacheFile.Some? && downloadingFiles == old(downloadingFiles) - {request.cacheFile.value})
    {
      var cacheFile := request.cacheFile;
      var saveToCacheFile := false;
      if cacheFile.Some? && applyForSpace(e.contentLength) {
        saveToCacheFile := CreateFile(fs, cacheFile.value);
      }
      r := Guarded(request, e, fs, applyForSpace, saveToCacheFile, old(fs.files));
    }

    /**
     * The try block after createFile, and its catch: the checkpoint after
     * createFile, in-flight marking in durable mode, the transfer; on any
     * throwable the cache file this attempt created is deleted and the mark
     * removed. `files0` are the files before createFile.
     */
    method Guarded(request: DownloadRequest, e: Exchange, fs: FileSystem, applyForSpace: int -> bool,
                   saveToCacheFile: bool, ghost files0: map<string, seq<byte>>)
      returns (r: AttemptResult)
      requires GoodReplyStatus(e) && !CacheHit(request.cacheFile, files0)
      requires saveToCacheFile == Durable(request.cacheFile, e, applyForSpace, fs)
      requires fs.files == if saveToCacheFile then files0[request.cacheFile.value := []] else files0
      modifies this`downloadingFiles, request, fs
      ensures Ended(request, e, applyForSpace, fs, old(request.polls), files0, old(request.progress),
                    request.polls, fs.files, request.progress, r)
      ensures Checkpoints(request, e, old(request.polls), old(request.progress), request.polls, request.progress, r)
      ensures request.cacheFile.None? || request.cacheFile.value !in old(downloadingFiles) ==>
                downloadingFiles == old(downloadingFiles)
      ensures downloadingFiles == old(downloadingFiles)
              || (request.cacheFile.Some? && downloadingFiles == old(downloadingFiles) - {request.cacheFile.value})
    {
      var cacheFile := request.cacheFile;
      var lockedFilePath: Option<string> := None;
      var thrown: Thrown;
      label attempt: {
        var canceled := request.IsCanceled();
        if canceled {
          thrown := Canceled;
          break attempt;
        }
        if saveToCacheFile {
          downloadingFiles := downloadingFiles + {cacheFile.value};
          lockedFilePath := cacheFile;
        }

        var received := Receive(request, e, fs, saveToCacheFile, old(downloadingFiles));
        if received.Threw? {
          thrown := received.thrown;
          break attempt;
        }
        if lockedFilePath.Some? {
          downloadingFiles := downloadingFiles - {lockedFilePath.value};
        }
        return received;
      }

      if saveToCacheFile && cacheFile.Some? && cacheFile.value in fs.files {
        fs.files := fs.files - {cacheFile.value};
      }
      assert fs.files == files0;
      if lockedFilePath.Some? {
        downloadingFiles := downloadingFiles - {lockedFilePath.value};
      }
      r := Threw(thrown);
    }

    /**
     * The stream part of the try block: getInputStream, the checkpoint after
     * it, the output stream (the truncated cache file or an in-memory
     * buffer), the copy, the checkpoint after it, and the result. The cache
     * file is marked in flight, on top of the marks `before` the attempt,
     * for the whole transfer exactly when it is written.
     */
    method Receive(request: DownloadRequest, e: Exchange, fs: FileSystem, saveToCacheFile: bool,
                   ghost before: set<string>)
      returns (r: AttemptResult)
      requires e.Reply? && e.status < 300 && e.contentLength > 0
      requires saveToCacheFile ==> request.cacheFile.Some? && request.cacheFile.value in fs.files
      requires downloadingFiles == if saveToCacheFile then before + {request.cacheFile.value} else before
      modifies request, fs
      ensures request.polls >= old(request.polls)
      ensures !saveToCacheFile ==> fs.files == old(fs.files)
      ensures saveToCacheFile ==>
                && request.cacheFile.value in fs.files
                && fs.files == old(fs.files)[request.cacheFile.value := fs.files[request.cacheFile.value]]
      ensures r.Returned? ==>
                && e.body.Stream? && request.polls == old(request.polls) + |e.body.chunks| + 3
                && !request.CanceledBy(request.polls - 1)
                && r.outcome == (if saveToCacheFile then CacheFile(request.cacheFile.value) else Bytes(Served(e)))
                && (saveToCacheFile ==> fs.files == old(fs.files)[request.cacheFile.value := Served(e)])
      ensures r == Threw(Canceled) <==> request.polls > old(request.polls) && request.CanceledBy(request.polls - 1)
      // getInputStream's throwable comes before the poll after it, and a flag raised there stops the attempt before any read
      ensures e.body.Unavailable? ==>
                r == Threw(Network(e.body.failure)) && request.polls == old(request.polls)
                && request.progress == old(request.progress)
      ensures e.body.Stream? && request.CanceledBy(old(request.polls)) ==>
                r == Threw(Canceled) && request.polls == old(request.polls) + 1
                && request.progress == old(request.progress)
      // when none of its polls answers true, the stream part makes all of them, whether the copy completes or fails
      ensures request.NotCanceledBefore(request.polls)
              || request.NotCanceledBefore(old(request.polls) + ReceivePolls(e.body)) ==>
                request.polls == old(request.polls) + ReceivePolls(e.body)
      ensures r.Threw? ==> r.thrown.Canceled? || (r.thrown.Network? && Raises(e, r.thrown.failure))
      ensures request.NotCanceledBefore(request.polls) ==>
                && (Fate(e).Some? ==> r == Threw(Fate(e).value))
                && (Fate(e).None? ==> r.Returned?)
                && request.progress == old(request.progress) + Reported(e, request.hasProgressCallback)
    {
      if e.body.Unavailable? {
        return Threw(Network(e.body.failure));
      }
      var canceled := request.IsCanceled();
      if canceled {
        return Threw(Canceled);
      }

      var sink: Sink;
      if saveToCacheFile {
        sink := new Sink.ToFile(fs, request.cacheFile.value);
      } else {
        sink := new Sink.InMemory(fs);
      }
      var chunks := e.body.chunks;
      ghost var p := request.polls;
      var copied := Copy(chunks, e.body.end, sink, request, e.contentLength);
      if !request.CanceledBy(request.polls - 1) {
        assert StopIndex(request.cancelFrom, p, |chunks|) == |chunks|;
        assert chunks[..|chunks|] == chunks;
      }
      if copied.CopyFailed? {
        return Threw(Network(copied.failure));
      }
      canceled := request.IsCanceled();
      if canceled {
        return Threw(Canceled);
      }
      assert StopIndex(request.cancelFrom, p, |chunks|) == |chunks|;
      assert chunks[..|chunks|] == chunks;
      assert sink.written == Served(e);
      if saveToCacheFile {
        assert fs.files == old(fs.files)[request.cacheFile.value := Served(e)];
      }
      r := Returned(if saveToCacheFile then CacheFile(request.cacheFile.value) else Bytes(sink.buffer));
    }

    /**
     * copy: polls the cancel flag before every read, writes each chunk to the
     * sink in order, adds its length to completedLength and fires a progress
     * callback when completedLength reaches the next tenth of contentLength
     * (rounded down) or equals contentLength. It stops when the request is
     * cancelled or the stream ends, and rethrows a failed read.
     */
    method Copy(chunks: seq<seq<byte>>, end: StreamEnd, sink: Sink, request: DownloadRequest, contentLength: int)
      returns (r: CopyResult)
      requires sink.Valid()
      modifies sink, sink.fs, request
      ensures sink.Valid()
      ensures var n := StopIndex(request.cancelFrom, old(request.polls), |chunks|);
              && request.polls == old(request.polls) + n + 1
              && sink.written == old(sink.written) + Flatten(chunks[..n])
              && (sink.target.None? ==> sink.fs.files == old(sink.fs.files))
              && (sink.target.Some? ==> sink.fs.files == old(sink.fs.files)[sink.target.value := sink.written])
              && request.progress == old(request.progress) + Metered(contentLength, request.hasProgressCallback, chunks[..n]).reports
              && r == if n == |chunks| && !request.CanceledBy(old(request.polls) + n) && end.Broken?
                      then CopyFailed(end.failure)
                      else Copied(|Flatten(chunks[..n])|)
    {
      var completedLength := 0;
      var averageLength := JavaDiv(contentLength, 10);
      var callbackNumber := 0;
      ghost var p0 := request.polls;
      var i := 0;
      var canceled := request.IsCanceled();
      // Java: while (!isCanceled() && (readNumber = read(buffer)) != -1); reading past the
      // last chunk gives -1 or throws.
      while !canceled && i < |chunks|
        invariant 0 <= i <= |chunks|
        invariant request.polls == p0 + i + 1 && canceled == request.CanceledBy(p0 + i)
        invariant i > 0 ==> !request.CanceledBy(p0 + i - 1)
        invariant sink.Valid()
        invariant sink.written == old(sink.written) + Flatten(chunks[..i])
        invariant sink.target.None? ==> sink.fs.files == old(sink.fs.files)
        invariant sink.target.Some? ==> sink.fs.files == old(sink.fs.files)[sink.target.value := sink.written]
        invariant var m := Metered(contentLength, request.hasProgressCallback, chunks[..i]);
                  completedLength == m.completed && callbackNumber == m.callbacks
                  && request.progress == old(request.progress) + m.reports
        decreases |chunks| - i
      {
        FlattenStep(chunks, i);
        MeteredStep(contentLength, request.hasProgressCallback, chunks, i);
        completedLength, callbackNumber := WriteChunk(chunks[i], sink, request, contentLength, averageLength,
                                                      completedLength, callbackNumber,
                                                      Metered(contentLength, request.hasProgressCallback, chunks[..i]),
                                                      old(request.progress));
        i := i + 1;
        canceled := request.IsCanceled();
      }
      StopIndexAt(request.cancelFrom, p0, |chunks|, i);
      if !canceled && end.Broken? {
        return CopyFailed(end.failure);
      }
      MeteredCounts(contentLength, request.hasProgressCallback, chunks[..i]);
      r := Copied(completedLength);
    }

    /** One iteration of copy's loop after a successful read; `m` is the loop's meter so far. */
    method WriteChunk(chunk: seq<byte>, sink: Sink, request: DownloadRequest, contentLength: int,
                      averageLength: int, completedLength: int, callbackNumber: nat,
                      ghost m: Meter, ghost reportedBefore: seq<Progress>)
      returns (completed: int, callbacks: nat)
      requires sink.Valid() && averageLength == JavaDiv(contentLength, 10)
      requires m.completed == completedLength && m.callbacks == callbackNumber
      requires request.progress == reportedBefore + m.reports
      modifies sink, sink.fs, request`progress
      ensures sink.Valid() && sink.written == old(sink.written) + chunk
      ensures sink.target.None? ==> sink.fs.files == old(sink.fs.files)
      ensures sink.target.Some? ==> sink.fs.files == old(sink.fs.files)[sink.target.value := sink.written]
      ensures var next := Tick(m, |chunk|, contentLength, request.hasProgressCallback);
              completed == next.completed && callbacks == next.callbacks
              && request.progress == reportedBefore + next.reports
    {
      sink.Write(chunk);
      completed := completedLength + |chunk|;
      callbacks := callbackNumber;
      if request.hasProgressCallback
         && (completed >= (callbacks + 1) * averageLength || completed == contentLength)
      {
        callbacks := callbacks + 1;
        request.OnUpdateProgress(contentLength, completed);
      }
    }

    method IsDownloadingByCacheFilePath(cacheFilePath: string) returns (downloading: bool)
      ensures downloading <==> cacheFilePath in downloadingFiles
    {
      downloading := cacheFilePath in downloadingFiles;
    }
  }
}
