/**
 * Whole runs of HttpUrlConnectionImageDownloader.download against fixed
 * servers, file systems and cancel schedules: what a caller observes.
 */
module DownloadScenarios {
  import opened Wrappers
  import opened Transfer
  import opened Download

  const Uri: string := "http://example.com/photo.jpg"
  const CachePath: string := "/cache/photo.jpg"

  /** The image the servers below send: 1000 bytes. */
  function Image(): (b: seq<byte>)
    ensures |b| == 1000
  {
    seq(1000, i => (i % 256) as byte)
  }

  /** The image as three reads of 400, 400 and 200 bytes. */
  function ImageChunks(): (chunks: seq<seq<byte>>)
    ensures |chunks| == 3 && Flatten(chunks) == Image()
  {
    var b := Image();
    var chunks := [b[..400], b[400..800], b[800..]];
    assert chunks[..2][..1] == [b[..400]];
    assert Flatten(chunks[..2][..1]) == b[..400];
    assert b[..400] + b[400..800] == b[..800];
    assert b[..800] + b[800..] == b;
    chunks
  }

  /** A server answering 200 with the image and its Content-Length. */
  function ImageReply(): (e: Exchange)
    ensures GoodReply(e) && e.contentLength == 1000 && Served(e) == Image()
  {
    Reply(200, 1000, Stream(ImageChunks(), EndOfStream))
  }

  /** Every connection times out: 1 + maxRetryCount connections, then null. */
  method AlwaysTimingOut(maxRetryCount: int) returns (connections: nat, result: Outcome)
    ensures connections == (if maxRetryCount > 0 then maxRetryCount + 1 else 1)
    ensures result == NoResult
  {
    var fs := new FileSystem(map[], {});
    var network := new Network(k => Unreachable(SocketTimeout));
    var request := new DownloadRequest(Uri, Some(CachePath), false, None);
    var downloader := new HttpUrlConnectionImageDownloader();
    downloader.SetMaxRetryCount(maxRetryCount);
    result := downloader.Download(request, network, fs, n => true);
    connections := network.connections;
    TimingOutUsesEveryAttempt(network.script, 0, MaxAttempts(maxRetryCount) - 1);
  }

  /** A 404 is not retried, gives null and leaves no cache file behind. */
  method NotFound() returns (connections: nat, result: Outcome, cacheFileLeft: bool)
    ensures connections == 1 && result == NoResult && !cacheFileLeft
  {
    var fs := new FileSystem(map[], {});
    var network := new Network(k => Reply(404, 1000, Stream(ImageChunks(), EndOfStream)));
    var request := new DownloadRequest(Uri, Some(CachePath), false, None);
    var downloader := new HttpUrlConnectionImageDownloader();
    result := downloader.Download(request, network, fs, n => true);
    connections := network.connections;
    cacheFileLeft := CachePath in fs.files;
  }

  /** A missing Content-Length (-1) is refused the same way. */
  method NoContentLength() returns (connections: nat, result: Outcome)
    ensures connections == 1 && result == NoResult
  {
    var fs := new FileSystem(map[], {});
    var network := new Network(k => Reply(200, -1, Stream(ImageChunks(), EndOfStream)));
    var request := new DownloadRequest(Uri, None, false, None);
    var downloader := new HttpUrlConnectionImageDownloader();
    result := downloader.Download(request, network, fs, n => true);
    connections := network.connections;
  }

  /**
   * Without a cache file the image comes back as bytes, with one progress
   * callback per read here: each read passes the next tenth of the length.
   */
  method InMemory() returns (result: Outcome, progress: seq<Progress>)
    ensures result == Bytes(Image())
    ensures progress == [Progress(1000, 400), Progress(1000, 800), Progress(1000, 1000)]
  {
    var fs := new FileSystem(map[], {});
    var network := new Network(k => ImageReply());
    var request := new DownloadRequest(Uri, None, true, None);
    var downloader := new HttpUrlConnectionImageDownloader();
    result := downloader.Download(request, network, fs, n => true);
    progress := request.progress;
    var chunks := ImageChunks();
    assert chunks[..3] == chunks;
    MeteredStep(1000, true, chunks, 0);
    MeteredStep(1000, true, chunks, 1);
    MeteredStep(1000, true, chunks, 2);
  }

  /** The disk cache refuses the space: the image comes back as bytes and no file is made. */
  method SpaceRefused() returns (result: Outcome, cacheFileMade: bool)
    ensures result == Bytes(Image()) && !cacheFileMade
  {
    var fs := new FileSystem(map[], {});
    var network := new Network(k => ImageReply());
    var request := new DownloadRequest(Uri, Some(CachePath), false, None);
    var downloader := new HttpUrlConnectionImageDownloader();
    result := downloader.Download(request, network, fs, n => false);
    cacheFileMade := CachePath in fs.files;
  }

  /** The cache file cannot be created: the image still comes back, as bytes. */
  method CacheFileUncreatable() returns (result: Outcome)
    ensures result == Bytes(Image())
  {
    var fs := new FileSystem(map[], {CachePath});
    var network := new Network(k => ImageReply());
    var request := new DownloadRequest(Uri, Some(CachePath), false, None);
    var downloader := new HttpUrlConnectionImageDownloader();
    result := downloader.Download(request, network, fs, n => true);
  }

  /** Durable mode: the cache file holds the image and is no longer marked in flight. */
  method Durable() returns (result: Outcome, saved: Option<seq<byte>>, inFlight: bool)
    ensures result == CacheFile(CachePath) && saved == Some(Image()) && !inFlight
  {
    var fs := new FileSystem(map[], {});
    var network := new Network(k => ImageReply());
    var request := new DownloadRequest(Uri, Some(CachePath), false, None);
    var downloader := new HttpUrlConnectionImageDownloader();
    result := downloader.Download(request, network, fs, n => true);
    saved := if CachePath in fs.files then Some(fs.files[CachePath]) else None;
    inFlight := downloader.IsDownloadingByCacheFilePath(CachePath);
  }

  /** An existing cache file is returned without connecting. */
  method CacheFileExists() returns (connections: nat, result: Outcome)
    ensures connections == 0 && result == CacheFile(CachePath)
  {
    var fs := new FileSystem(map[CachePath := Image()], {});
    var network := new Network(k => ImageReply());
    var request := new DownloadRequest(Uri, Some(CachePath), false, None);
    var downloader := new HttpUrlConnectionImageDownloader();
    result := downloader.Download(request, network, fs, n => true);
    connections := network.connections;
  }

  /** A request cancelled before it starts gives null without connecting. */
  method CanceledBeforeStart() returns (connections: nat, result: Outcome)
    ensures connections == 0 && result == NoResult
  {
    var fs := new FileSystem(map[], {});
    var network := new Network(k => ImageReply());
    var request := new DownloadRequest(Uri, Some(CachePath), false, Some(0));
    var downloader := new HttpUrlConnectionImageDownloader();
    result := downloader.Download(request, network, fs, n => true);
    connections := network.connections;
  }

  /**
   * The flag is raised from the second poll on, the one after the response
   * arrives: the attempt throws the cancellation, which is not retried, and
   * null comes back after one connection.
   */
  method CanceledAfterResponse() returns (connections: nat, result: Outcome)
    ensures connections == 1 && result == NoResult
  {
    var fs := new FileSystem(map[], {});
    var network := new Network(k => ImageReply());
    var request := new DownloadRequest(Uri, Some(CachePath), false, Some(1));
    var downloader := new HttpUrlConnectionImageDownloader();
    var space: int -> bool := n => true;
    ghost var w0 := Now(request, network, fs);
    result := downloader.Download(request, network, fs, space);
    ghost var worlds: seq<World>, results: seq<AttemptResult> :| Run(request, network, space, fs, downloader.maxRetryCount, w0,
                                                                        Now(request, network, fs), worlds, results, result);
    RunAttempt(request, network, space, fs, downloader.maxRetryCount, w0, Now(request, network, fs),
               worlds, results, result, 0);
    assert results[0] == Threw(Canceled);
    connections := network.connections;
  }

  /**
   * The flag is raised only after the thousandth poll, and every connection
   * times out: with two retries each attempt polls once, so all three
   * connections are made and null comes back after three polls.
   */
  method CanceledTooLate() returns (connections: nat, polls: nat, result: Outcome)
    ensures connections == 3 && polls == 3 && result == NoResult
  {
    var fs := new FileSystem(map[], {});
    var network := new Network(k => Unreachable(SocketTimeout));
    var request := new DownloadRequest(Uri, Some(CachePath), false, Some(1000));
    var downloader := new HttpUrlConnectionImageDownloader();
    downloader.SetMaxRetryCount(2);
    var space: int -> bool := n => true;
    ghost var w0 := Now(request, network, fs);
    result := downloader.Download(request, network, fs, space);
    ghost var worlds: seq<World>, results: seq<AttemptResult> :| Run(request, network, space, fs, downloader.maxRetryCount, w0,
                                                                        Now(request, network, fs), worlds, results, result);
    ghost var w := Now(request, network, fs);
    RunAttempt(request, network, space, fs, downloader.maxRetryCount, w0, w, worlds, results, result, 0);
    assert worlds[1].polls == 1 && worlds[1].connections == 1 && results[0] == Threw(Network(SocketTimeout));
    RunAttempt(request, network, space, fs, downloader.maxRetryCount, w0, w, worlds, results, result, 1);
    assert worlds[2].polls == 2 && worlds[2].connections == 2 && results[1] == Threw(Network(SocketTimeout));
    RunAttempt(request, network, space, fs, downloader.maxRetryCount, w0, w, worlds, results, result, 2);
    assert worlds[3].polls == 3 && worlds[3].connections == 3 && results[2] == Threw(Network(SocketTimeout));
    connections := network.connections;
    polls := request.polls;
  }

  /**
   * With no retries, the flag is raised from the poll after createFile and
   * getInputStream would time out: the attempt throws the cancellation at
   * its third poll, before asking for the body, and deletes the cache file.
   */
  method CanceledAfterCreateFile() returns (connections: nat, polls: nat, result: Outcome, cacheFileLeft: bool)
    ensures connections == 1 && polls == 3 && result == NoResult && !cacheFileLeft
  {
    var fs := new FileSystem(map[], {});
    var network := new Network(k => Reply(200, 1000, Unavailable(SocketTimeout)));
    var request := new DownloadRequest(Uri, Some(CachePath), false, Some(2));
    var downloader := new HttpUrlConnectionImageDownloader();
    downloader.SetMaxRetryCount(0);
    var space: int -> bool := n => true;
    ghost var w0 := Now(request, network, fs);
    result := downloader.Download(request, network, fs, space);
    ghost var worlds: seq<World>, results: seq<AttemptResult> :| Run(request, network, space, fs, downloader.maxRetryCount, w0,
                                                                        Now(request, network, fs), worlds, results, result);
    RunAttempt(request, network, space, fs, downloader.maxRetryCount, w0, Now(request, network, fs),
               worlds, results, result, 0);
    assert results[0] == Threw(Canceled) && worlds[1].polls == 3;
    connections := network.connections;
    polls := request.polls;
    cacheFileLeft := CachePath in fs.files;
  }

  /**
   * With no retries, getInputStream times out and the flag is raised from
   * the poll after it: the timeout is thrown first, so that poll never
   * happens, and the run ends after three polls: realDownload's first one,
   * the one after the response code and the one after createFile.
   */
  method InputStreamFailsBeforePoll() returns (connections: nat, polls: nat, result: Outcome, cacheFileLeft: bool)
    ensures connections == 1 && polls == 3 && result == NoResult && !cacheFileLeft
  {
    var fs := new FileSystem(map[], {});
    var network := new Network(k => Reply(200, 1000, Unavailable(SocketTimeout)));
    var request := new DownloadRequest(Uri, Some(CachePath), false, Some(3));
    var downloader := new HttpUrlConnectionImageDownloader();
    downloader.SetMaxRetryCount(0);
    var space: int -> bool := n => true;
    ghost var w0 := Now(request, network, fs);
    result := downloader.Download(request, network, fs, space);
    ghost var worlds: seq<World>, results: seq<AttemptResult> :| Run(request, network, space, fs, downloader.maxRetryCount, w0,
                                                                        Now(request, network, fs), worlds, results, result);
    RunAttempt(request, network, space, fs, downloader.maxRetryCount, w0, Now(request, network, fs),
               worlds, results, result, 0);
    assert results[0] == Threw(Network(SocketTimeout)) && worlds[1].polls == 3;
    connections := network.connections;
    polls := request.polls;
    cacheFileLeft := CachePath in fs.files;
  }

  /** Ten bytes, for a Content-Length of 10. */
  const Ten: seq<byte> := [1, 2, 3, 4, 5, 6, 7, 8, 9, 10]

  /** The first connection's read times out after one byte; every later one sends ten bytes in one read. */
  function BrokenThenWhole(k: nat): Exchange
  {
    if k == 0 then Reply(200, 10, Stream([[1]], Broken(SocketTimeout))) else Reply(200, 10, Stream([Ten], EndOfStream))
  }

  /**
   * A run of download against BrokenThenWhole, with the flag raised only
   * from poll 13 and one retry allowed: the first attempt makes six polls
   * and the second seven, so no poll answers true, and the second
   * attempt's bytes are the result.
   */
  lemma BrokenThenWholeRun(request: DownloadRequest, network: Network, applyForSpace: int -> bool, fs: FileSystem,
                           w0: World, w: World, worlds: seq<World>, results: seq<AttemptResult>, result: Outcome)
    requires request.cancelFrom == Some(13) && request.cacheFile.None? && network.script == BrokenThenWhole
    requires w0.polls == 0 && w0.connections == 0
    requires Run(request, network, applyForSpace, fs, 1, w0, w, worlds, results, result)
    ensures w.connections == 2 && w.polls == 13 && result == Bytes(Ten)
  {
    RunAttempt(request, network, applyForSpace, fs, 1, w0, w, worlds, results, result, 0);
    assert AttemptPolls(BrokenThenWhole(0)) == 5;
    assert worlds[1].polls == 6 && worlds[1].connections == 1 && results[0] == Threw(Network(SocketTimeout));
    RunAttempt(request, network, applyForSpace, fs, 1, w0, w, worlds, results, result, 1);
    assert Served(BrokenThenWhole(1)) == Ten by {
      assert Flatten([Ten]) == Ten;
    }
    assert AttemptPolls(BrokenThenWhole(1)) == 6;
    assert worlds[2].polls == 13 && worlds[2].connections == 2 && results[1] == Returned(Bytes(Ten));
  }

  /**
   * The first read after one byte times out and the retry reads all ten
   * bytes, with the flag raised only from poll 13: two connections,
   * thirteen polls, and the bytes come back.
   */
  method RetriedAfterBrokenRead() returns (connections: nat, polls: nat, result: Outcome)
    ensures connections == 2 && polls == 13 && result == Bytes(Ten)
  {
    var fs := new FileSystem(map[], {});
    var network := new Network(BrokenThenWhole);
    var request := new DownloadRequest(Uri, None, false, Some(13));
    var downloader := new HttpUrlConnectionImageDownloader();
    var space: int -> bool := n => true;
    ghost var w0 := Now(request, network, fs);
    result := downloader.Download(request, network, fs, space);
    ghost var worlds: seq<World>, results: seq<AttemptResult> :| Run(request, network, space, fs, downloader.maxRetryCount, w0,
                                                                        Now(request, network, fs), worlds, results, result);
    BrokenThenWholeRun(request, network, space, fs, w0, Now(request, network, fs), worlds, results, result);
    connections := network.connections;
    polls := request.polls;
  }

  /** Two downloads of one URL share its lock, and each releases it. */
  method SameUrlSameLock() returns (sameLock: bool, holdCount: nat)
    ensures sameLock && holdCount == 0
  {
    var fs := new FileSystem(map[], {});
    var network := new Network(k => Unreachable(OtherIO));
    var downloader := new HttpUrlConnectionImageDownloader();
    var first := new DownloadRequest(Uri, None, false, None);
    var r1 := downloader.Download(first, network, fs, n => true);
    var lock1 := downloader.urlLocks[Uri];
    var second := new DownloadRequest(Uri, None, false, None);
    var r2 := downloader.Download(second, network, fs, n => true);
    var lock2 := downloader.urlLocks[Uri];
    sameLock := lock1 == lock2;
    holdCount := lock2.holdCount;
  }
}
