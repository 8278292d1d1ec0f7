# Image download and placeholder bitmaps, modelled in Dafny

This project models two pieces of an Android image-loading library.

**The HTTP image downloader** (`HttpUrlConnectionImageDownloader`).
- `download` takes a per-URL lock and runs `realDownload` in a retry loop. It retries after a socket timeout or an interrupted read, at most `maxRetryCount` times (1 by default). It returns the cache file, the bytes, or null.
- `realDownload` does these steps in order:
  - It returns null if the request is already cancelled, and the cache file if it already exists.
  - Otherwise it opens one connection and checks the status code (below 300) and the Content-Length (positive).
  - It picks durable mode when there is a cache file, the disk cache grants space, and `createFile` can create the file. Otherwise it picks in-memory mode.
  - In durable mode it marks the cache file as in flight. It then streams the body through `copy` and returns the file or the buffered bytes.
  - On any throwable it deletes the cache file it created, removes the in-flight mark if it set one, and rethrows.
  - It polls the cancel flag after the response code, after creating the file, after `getInputStream`, before every read in `copy`, and after the copy.
- `copy` fires a progress callback each time the completed length reaches the next tenth of the Content-Length, rounded down, or equals it.

**The placeholder holder** (`ImageHolder`).
- `generateMemoryCacheId` builds the memory-cache id from these parts, in order:
  - the decimal resource id;
  - the resize identifier;
  - `_forceUseResize` and `_lowQualityImage`, each when its flag is set;
  - the image processor identifier.
- `getRefBitmap` returns the first of these that applies:
  - the `RefBitmap` it holds, while that bitmap is not recycled;
  - the memory cache's entry for the id, which it memoises on first use (a recycled entry is removed instead);
  - a new bitmap built from the resource drawable and the optional processor. The new bitmap is cached only when it may be recycled.

The environment is given as inputs:
- the network is a script of exchanges, one per connection;
- the disk cache's `applyForSpace` is a function;
- the file system is a map from paths to contents, plus the set of paths where creation fails;
- cancellation is the index of the first `isCanceled()` poll that answers true;
- the drawable is given by what `drawableToBitmap` makes of it.

Files:
- `wrappers.dfy`: the `Option` type.
- `transfer.dfy` (module `Transfer`): the copy loop as pure functions. `Flatten` gives the bytes written, `StopIndex` the reads done before cancellation, and `Metered` the progress callbacks. Also lemmas about them.
- `downloader.dfy` (module `Download`): the downloader class, its environment classes, and the specifications of an attempt and of the retry loop.
- `downloader_scenarios.dfy` (module `DownloadScenarios`): concrete runs of `download`.
- `image_holder.dfy` (module `Placeholder`): `String.valueOf(int)` and its inverse, `generateMemoryCacheId` with its round trips, and the `ImageHolder` class with `getRefBitmap`.
- `image_holder_scenarios.dfy` (module `PlaceholderScenarios`): concrete ids and concrete `getRefBitmap` calls.

Two consequences of the code that a caller may not expect:
- `copy` is not limited to ten progress callbacks. Once a tenth of the Content-Length, rounded down, is smaller than a read, every read fires one. `Transfer.CallbacksNotCappedAtTen` shows this for any Content-Length from 10 to 19 read one byte at a time.
- `download` returns null alike for a cancellation and for every failure, and the throwable does not reach the caller. The scenarios `NotFound`, `NoContentLength`, `AlwaysTimingOut`, `CanceledAfterResponse` and `CanceledAfterCreateFile` each end in null.

## Model

| member | source | states |
|---|---|---|
| Transfer.StopIndex | library/src/main/java/me/xiaopan/android/spear/download/HttpUrlConnectionImageDownloader.java:253 | the number of reads before the cancel flag first answers true: no poll before it answers true, and the poll right after it does unless every chunk was read |
| Transfer.JavaDiv | library/src/main/java/me/xiaopan/android/spear/download/HttpUrlConnectionImageDownloader.java:250 | Java's long division truncates: the remainder lies in [0, b) for a non-negative dividend and in (-b, 0] for a negative one |
| Transfer.MeteredCounts | library/src/main/java/me/xiaopan/android/spear/download/HttpUrlConnectionImageDownloader.java:253-259 | after a run of reads, completedLength is the number of bytes read; callbackNumber equals the number of callbacks; there is at most one per read; there are none without a progress callback |
| Transfer.MeteredIncreasing | library/src/main/java/me/xiaopan/android/spear/download/HttpUrlConnectionImageDownloader.java:255-258 | when every read is non-empty, successive callbacks report strictly increasing completed lengths |
| Transfer.MeteredReachesLength | library/src/main/java/me/xiaopan/android/spear/download/HttpUrlConnectionImageDownloader.java:256-258 | when the body is exactly Content-Length bytes, the last callback reports (contentLength, contentLength) |
| Transfer.OneByteReadsReportEach | library/src/main/java/me/xiaopan/android/spear/download/HttpUrlConnectionImageDownloader.java:250-258 | with a Content-Length from 10 to 19 and one-byte reads, every read fires a callback |
| Transfer.CallbacksNotCappedAtTen | library/src/main/java/me/xiaopan/android/spear/download/HttpUrlConnectionImageDownloader.java:250-258 | with a Content-Length from 10 to 19 read one byte at a time, the number of callbacks equals the Content-Length, which is more than ten |
| Download.MaxAttempts | library/src/main/java/me/xiaopan/android/spear/download/HttpUrlConnectionImageDownloader.java:94-105 | the loop allows at least one attempt and more attempts than maxRetryCount |
| Download.Fate | library/src/main/java/me/xiaopan/android/spear/download/HttpUrlConnectionImageDownloader.java:145-201 | an attempt that is never cancelled returns exactly when the reply passes both checks and its body reads to the end; a retried throwable is one the exchange raised; a refused status or Content-Length is never retried |
| Download.RunAttempts | library/src/main/java/me/xiaopan/android/spear/download/HttpUrlConnectionImageDownloader.java:95-116 | download makes between 1 and maxRetryCount+1 connections |
| Download.RunAttemptsStops | library/src/main/java/me/xiaopan/android/spear/download/HttpUrlConnectionImageDownloader.java:100-113 | the loop's stopping rule: after `number` retried attempts, an attempt that is not retried, or that has no retry left, is the last one |
| Download.TimingOutUsesEveryAttempt | library/src/main/java/me/xiaopan/android/spear/download/HttpUrlConnectionImageDownloader.java:103-105 | a server that always times out gets maxRetryCount+1 connections |
| Download.CreateFile | library/src/main/java/me/xiaopan/android/spear/download/HttpUrlConnectionImageDownloader.java:270-283 | the result is true exactly when the file exists afterwards: it existed already, or creating it succeeded, in which case it is empty; nothing else changes |
| Download.FirstAttempt | library/src/main/java/me/xiaopan/android/spear/download/HttpUrlConnectionImageDownloader.java:95-98 | the loop's invariant holds after the first realDownload |
| Download.NextAttempt | library/src/main/java/me/xiaopan/android/spear/download/HttpUrlConnectionImageDownloader.java:99-115 | a retry after a retried throwable keeps the loop's invariant, one connection further on |
| Download.LastAttempt | library/src/main/java/me/xiaopan/android/spear/download/HttpUrlConnectionImageDownloader.java:97-120 | when the loop stops on an attempt that is not retried, download's promise holds: connections counted by RunAttempts, progress reported by those attempts, result decided by the last exchange |
| Download.HttpUrlConnectionImageDownloader.constructor | library/src/main/java/me/xiaopan/android/spear/download/HttpUrlConnectionImageDownloader.java:48-56 | no in-flight files, no locks, maxRetryCount 1, timeOut 15000 ms |
| Download.HttpUrlConnectionImageDownloader.SetMaxRetryCount | library/src/main/java/me/xiaopan/android/spear/download/HttpUrlConnectionImageDownloader.java:58-61 | sets maxRetryCount |
| Download.HttpUrlConnectionImageDownloader.SetTimeOut | library/src/main/java/me/xiaopan/android/spear/download/HttpUrlConnectionImageDownloader.java:63-66 | sets timeOut |
| Download.HttpUrlConnectionImageDownloader.GetUrlLock | library/src/main/java/me/xiaopan/android/spear/download/HttpUrlConnectionImageDownloader.java:73-80 | returns the lock already kept for the URL, otherwise a new unheld lock that is kept from now on; other entries are untouched |
| Download.HttpUrlConnectionImageDownloader.IsDownloadingByCacheFilePath | library/src/main/java/me/xiaopan/android/spear/download/HttpUrlConnectionImageDownloader.java:82-85 | true exactly when the path is marked in flight |
| Download.HttpUrlConnectionImageDownloader.Download | library/src/main/java/me/xiaopan/android/spear/download/HttpUrlConnectionImageDownloader.java:87-121 | the URL's lock is gotten or created and is released again afterwards. There is a trace of attempts (Run): each one a step of realDownload, every one but the last ending in a retried throwable, the last one not retried and giving the result. As a whole: null when the request is cancelled at the start, and the cache file when it already exists. A downloaded result means no checkpoint saw the request cancelled. Bytes are what the last connection served. Files change only by the saved cache file. There are at most maxRetryCount+1 connections. When no poll answers true and no cache file exists, there are exactly RunAttempts connections, the progress and the polls are those of those attempts, and the last exchange decides the result and the files. The in-flight mark is removed again |
| Download.HttpUrlConnectionImageDownloader.Attempts | library/src/main/java/me/xiaopan/android/spear/download/HttpUrlConnectionImageDownloader.java:93-116 | the retry loop: realDownload runs until an attempt is not retried, and the attempts form the trace Run describes; download's whole promise (Retried) follows |
| Download.RunAttempt | library/src/main/java/me/xiaopan/android/spear/download/HttpUrlConnectionImageDownloader.java:95-116 | attempt i of a trace is a step of realDownload, and it is retried exactly when it is not the last; the last one gives download's result |
| Download.RetryingAlong | library/src/main/java/me/xiaopan/android/spear/download/HttpUrlConnectionImageDownloader.java:95-116 | after every attempt of a trace, the loop's invariant Retrying holds from the start of download |
| Download.RunRetried | library/src/main/java/me/xiaopan/android/spear/download/HttpUrlConnectionImageDownloader.java:93-120 | a trace of attempts as Run describes it keeps download's whole promise |
| Download.HttpUrlConnectionImageDownloader.RealDownload | library/src/main/java/me/xiaopan/android/spear/download/HttpUrlConnectionImageDownloader.java:123-245 | on cancellation at the start: null, with no connection and no change. On a cache hit: the cache file. Otherwise exactly one connection and Attempted: an unreachable server throws without polling; a reply is followed by a poll, and the attempt throws Canceled exactly when its last poll answered true. A status of 300 or more and a non-positive Content-Length each throw their own throwable. Past those checks, a flag raised at the poll after createFile throws Canceled there; getInputStream's throwable comes before the poll after it; a flag raised at that poll throws Canceled before any read. null only at the first checkpoint. A throwing attempt leaves the files as it found them. A returning attempt returns the cache file in durable mode, which then holds the body, and the served bytes otherwise. An attempt none of whose polls answers true makes exactly AttemptPolls of them after the first, whether its copy completes or fails. While no poll has answered true, the exchange alone decides the ending and the progress |
| Download.HttpUrlConnectionImageDownloader.Attempt | library/src/main/java/me/xiaopan/android/spear/download/HttpUrlConnectionImageDownloader.java:144-188 | the response checks in order: unreachable (no poll), cancelled, status, Content-Length; then the rest of the attempt as Store promises, its checkpoints one poll further on; exactly AttemptPolls polls when none of them answers true |
| Download.HttpUrlConnectionImageDownloader.Store | library/src/main/java/me/xiaopan/android/spear/download/HttpUrlConnectionImageDownloader.java:167-244 | durable mode exactly when Durable holds. A flag raised at the poll after createFile throws Canceled there, with no further poll and no progress. The cache file is marked in flight, on top of the marks already there, for the whole transfer. A throwable deletes the cache file this attempt created and removes the in-flight mark, restoring the files. Canceled is thrown exactly when the attempt's last poll answered true. When none of its polls answers true it makes all of them: one after createFile and those of the stream part |
| Download.HttpUrlConnectionImageDownloader.Guarded | library/src/main/java/me/xiaopan/android/spear/download/HttpUrlConnectionImageDownloader.java:169-244 | the attempt after createFile, given the files as they were before it: the same ending, checkpoints, poll counts and in-flight marks that Store promises, with the cache file created by this attempt deleted again on every throwable |
| Download.HttpUrlConnectionImageDownloader.Receive | library/src/main/java/me/xiaopan/android/spear/download/HttpUrlConnectionImageDownloader.java:181-220 | runs with the cache file marked in flight exactly when it is written. getInputStream's throwable is rethrown before any poll. A flag raised at the poll after getInputStream throws Canceled before any read. The output file is truncated and then holds exactly the served bytes. The in-memory result is the served bytes. Canceled is thrown exactly when the last poll answered true. While no poll has answered true, the exchange's Fate decides the ending, and the progress is the Metered reports of the whole body. When none of its polls answers true it makes exactly ReceivePolls of them: none before getInputStream's throwable, otherwise one after getInputStream, one per read including the last, and one after a completed copy |
| Download.HttpUrlConnectionImageDownloader.Copy | library/src/main/java/me/xiaopan/android/spear/download/HttpUrlConnectionImageDownloader.java:247-263 | one poll per read plus the final one. The sink receives exactly the chunks read before cancellation, in order. The progress calls are the Metered reports of those chunks. A read failure after the last chunk is rethrown; otherwise completedLength is returned |
| Download.HttpUrlConnectionImageDownloader.WriteChunk | library/src/main/java/me/xiaopan/android/spear/download/HttpUrlConnectionImageDownloader.java:254-259 | one loop iteration writes the chunk and advances the counters and callbacks as one Tick of the meter |
| DownloadScenarios.AlwaysTimingOut | library/src/main/java/me/xiaopan/android/spear/download/HttpUrlConnectionImageDownloader.java:95-116 | a server that always times out gets maxRetryCount+1 connections (one if maxRetryCount is not positive), and the result is null |
| DownloadScenarios.NotFound | library/src/main/java/me/xiaopan/android/spear/download/HttpUrlConnectionImageDownloader.java:157-159 | a 404 is not retried; null, and no cache file is left |
| DownloadScenarios.NoContentLength | library/src/main/java/me/xiaopan/android/spear/download/HttpUrlConnectionImageDownloader.java:162-165 | a missing Content-Length is not retried; null |
| DownloadScenarios.InMemory | library/src/main/java/me/xiaopan/android/spear/download/HttpUrlConnectionImageDownloader.java:192-204 | without a cache file the bytes are returned, with callbacks at 400, 800 and 1000 of 1000 |
| DownloadScenarios.SpaceRefused | library/src/main/java/me/xiaopan/android/spear/download/HttpUrlConnectionImageDownloader.java:168 | when the disk cache refuses space, the bytes are returned and no file is made |
| DownloadScenarios.CacheFileUncreatable | library/src/main/java/me/xiaopan/android/spear/download/HttpUrlConnectionImageDownloader.java:168 | when the cache file cannot be created, the bytes are returned |
| DownloadScenarios.Durable | library/src/main/java/me/xiaopan/android/spear/download/HttpUrlConnectionImageDownloader.java:168-217 | in durable mode the cache file is returned, it holds the image, and it is no longer in flight |
| DownloadScenarios.CacheFileExists | library/src/main/java/me/xiaopan/android/spear/download/HttpUrlConnectionImageDownloader.java:133-136 | an existing cache file is returned without connecting |
| DownloadScenarios.CanceledBeforeStart | library/src/main/java/me/xiaopan/android/spear/download/HttpUrlConnectionImageDownloader.java:125-130 | a request cancelled before the start gets null without connecting |
| DownloadScenarios.CanceledAfterResponse | library/src/main/java/me/xiaopan/android/spear/download/HttpUrlConnectionImageDownloader.java:150-156 | a flag raised at the poll after the response: Canceled is thrown, not retried, and null comes back after one connection |
| DownloadScenarios.CanceledTooLate | library/src/main/java/me/xiaopan/android/spear/download/HttpUrlConnectionImageDownloader.java:95-116 | a flag raised only after the thousandth poll, with a server that always times out and two retries: three connections and three polls, then null |
| DownloadScenarios.CanceledAfterCreateFile | library/src/main/java/me/xiaopan/android/spear/download/HttpUrlConnectionImageDownloader.java:167-174 | with no retries, a flag raised at the poll after createFile ends the attempt there: three polls, one connection, null, and the cache file is deleted |
| DownloadScenarios.InputStreamFailsBeforePoll | library/src/main/java/me/xiaopan/android/spear/download/HttpUrlConnectionImageDownloader.java:181-188 | with no retries, getInputStream's timeout is thrown before the poll after it, which would answer true: three polls, one connection, null, and the cache file is deleted |
| DownloadScenarios.BrokenThenWholeRun | library/src/main/java/me/xiaopan/android/spear/download/HttpUrlConnectionImageDownloader.java:95-116 | a run against a first connection whose read times out after one byte and a second that sends ten bytes, with the flag raised from poll 13: six polls for the first attempt and seven for the second, so two connections, thirteen polls, and the ten bytes |
| DownloadScenarios.RetriedAfterBrokenRead | library/src/main/java/me/xiaopan/android/spear/download/HttpUrlConnectionImageDownloader.java:247-263 | download against that server and flag: two connections, thirteen polls, and the ten bytes come back |
| DownloadScenarios.SameUrlSameLock | library/src/main/java/me/xiaopan/android/spear/download/HttpUrlConnectionImageDownloader.java:73-80 | two downloads of one URL share one lock, released afterwards |
| Placeholder.Digits | sketch/src/main/java/me/xiaopan/sketch/request/ImageHolder.java:95 | the decimal digits of a natural number: at least one, a leading zero only for zero, one digit exactly below ten |
| Placeholder.Decimal | sketch/src/main/java/me/xiaopan/sketch/request/ImageHolder.java:95 | String.valueOf(int): a leading minus exactly for negative values, then digits only, and no "_" |
| Placeholder.DigitsRoundTrip | sketch/src/main/java/me/xiaopan/sketch/request/ImageHolder.java:95 | reading the digits back gives the number |
| Placeholder.DecimalRoundTrip | sketch/src/main/java/me/xiaopan/sketch/request/ImageHolder.java:95 | parsing String.valueOf(n) gives n |
| Placeholder.DecimalInjective | sketch/src/main/java/me/xiaopan/sketch/request/ImageHolder.java:95 | distinct resource ids have distinct decimal forms |
| Placeholder.GenerateMemoryCacheId | sketch/src/main/java/me/xiaopan/sketch/request/ImageHolder.java:93-109 | the id starts with the decimal resource id, and is exactly that when nothing else is set |
| Placeholder.FlagsRoundTrip | sketch/src/main/java/me/xiaopan/sketch/request/ImageHolder.java:96-107 | between the resize identifier and the processor identifier, the id holds "_forceUseResize" and "_lowQualityImage" exactly when their flags are set, in that order |
| Placeholder.FlagsDistinguishIds | sketch/src/main/java/me/xiaopan/sketch/request/ImageHolder.java:99-104 | two holders with the same resource id and identifiers get the same id only when their flags agree |
| Placeholder.Head | sketch/src/main/java/me/xiaopan/sketch/request/ImageHolder.java:95-97 | the text before the first "_": a prefix without "_", followed by "_" when shorter than the text |
| Placeholder.HeadOfJoin | sketch/src/main/java/me/xiaopan/sketch/request/ImageHolder.java:95-97 | the text before the first "_" of a "_"-free head followed by separated text is that head |
| Placeholder.ResIdRoundTrip | sketch/src/main/java/me/xiaopan/sketch/request/ImageHolder.java:93-109 | the resource id is read back from the id's text before its first "_" |
| Placeholder.Build | sketch/src/main/java/me/xiaopan/sketch/request/ImageHolder.java:138-165 | the processor replaces the bitmap only when the source bitmap is there and not recycled and a processor is set, and then the result may be recycled; otherwise the source bitmap and its recyclability are kept |
| Placeholder.DrawableToBitmap | sketch/src/main/java/me/xiaopan/sketch/request/ImageHolder.java:145 | the conversion of a non-BitmapDrawable in the asked quality; null for no drawable |
| Placeholder.MakeBitmap | sketch/src/main/java/me/xiaopan/sketch/request/ImageHolder.java:138-165 | the bitmap and recyclability are Build's. A replaced source bitmap is recycled exactly when it came from a conversion. Otherwise no bitmap changes |
| Placeholder.MemoryCache.Get | sketch/src/main/java/me/xiaopan/sketch/request/ImageHolder.java:122 | the entry for the key, or null |
| Placeholder.MemoryCache.Remove | sketch/src/main/java/me/xiaopan/sketch/request/ImageHolder.java:128 | the key's entry is gone and nothing else changes |
| Placeholder.MemoryCache.Put | sketch/src/main/java/me/xiaopan/sketch/request/ImageHolder.java:171 | the key maps to the new entry and nothing else changes |
| Placeholder.ImageHolder.constructor | sketch/src/main/java/me/xiaopan/sketch/request/ImageHolder.java:47-49 | a holder of the resource id with nothing else set |
| Placeholder.ImageHolder.SetForceUseResize | sketch/src/main/java/me/xiaopan/sketch/request/ImageHolder.java:55-58 | sets the flag |
| Placeholder.ImageHolder.SetImageProcessor | sketch/src/main/java/me/xiaopan/sketch/request/ImageHolder.java:65-68 | sets the processor |
| Placeholder.ImageHolder.SetLowQualityImage | sketch/src/main/java/me/xiaopan/sketch/request/ImageHolder.java:74-77 | sets the flag |
| Placeholder.ImageHolder.SetResize | sketch/src/main/java/me/xiaopan/sketch/request/ImageHolder.java:88-91 | sets the resize |
| Placeholder.ImageHolder.GetRefBitmap | sketch/src/main/java/me/xiaopan/sketch/request/ImageHolder.java:111-177 | A held bitmap that is not recycled is returned with nothing changed. Otherwise the id is memoised from the holder's own flags, whatever the global low-quality setting. A live cache entry for the id is taken as it is. Otherwise a recycled entry is removed and the bitmap is built as Build says, in the holder's or the global low quality. A usable result becomes the new RefBitmap, with the id and String.valueOf(resId), and is cached only when it may be recycled. An unusable result leaves the previous RefBitmap. Only recyclable RefBitmaps are ever added to the cache |
| Placeholder.ImageHolder.LookUpOrCreate | sketch/src/main/java/me/xiaopan/sketch/request/ImageHolder.java:120-176 | the part after the id is known: a cache hit, or removal of a recycled entry followed by creation as Created says |
| Placeholder.ImageHolder.CreateRefBitmap | sketch/src/main/java/me/xiaopan/sketch/request/ImageHolder.java:133-176 | creation: a usable built bitmap becomes the holder's fresh RefBitmap and is cached only when recyclable; otherwise the holder and the cache stay as they were |
| PlaceholderScenarios.FlaggedCacheId | sketch/src/main/java/me/xiaopan/sketch/request/ImageHolder.java:93-109 | resource id 4 with both flags set gives "4_forceUseResize_lowQualityImage" |
| PlaceholderScenarios.IdentifiedCacheId | sketch/src/main/java/me/xiaopan/sketch/request/ImageHolder.java:93-109 | resource id 42 with a resize and a processor gives "42_R_P" |
| PlaceholderScenarios.PlainCacheId | sketch/src/main/java/me/xiaopan/sketch/request/ImageHolder.java:93-109 | resource id -7 alone gives "-7" |
| PlaceholderScenarios.HeldBitmapReused | sketch/src/main/java/me/xiaopan/sketch/request/ImageHolder.java:112-114 | a converted bitmap is cached under the id, and the second call returns the held one |
| PlaceholderScenarios.MemoisedIdIgnoresLaterSetters | sketch/src/main/java/me/xiaopan/sketch/request/ImageHolder.java:117-119 | the id is computed once; a BitmapDrawable's bitmap is not cached; once it is recycled, the old RefBitmap is returned |
| PlaceholderScenarios.GlobalLowQuality | sketch/src/main/java/me/xiaopan/sketch/request/ImageHolder.java:134-137 | the global low-quality setting picks the low-quality conversion but not the id |
| PlaceholderScenarios.RecycledEntryRemoved | sketch/src/main/java/me/xiaopan/sketch/request/ImageHolder.java:123-130 | a recycled cache entry is removed, and a BitmapDrawable's bitmap is not cached in its place |
| PlaceholderScenarios.ProcessorReplacesBitmap | sketch/src/main/java/me/xiaopan/sketch/request/ImageHolder.java:149-174 | a processor's new bitmap is used and cached, and a BitmapDrawable's own bitmap is not recycled |

## Left out

- Concurrency: `synchronized`, the real `ReentrantLock` and the synchronized collections are not modelled. A lock is its hold count, and `download` runs alone.
- The lock table is a map, not a `WeakHashMap`: locks are never collected.
- HTTP: the connect and read timeouts are stored but not used. A timeout is a failure the network script raises.
- Closing and flushing streams, `disconnect()`, and the IOExceptions those raise and swallow are not modelled. The 8 KB `BufferedOutputStream` is not modelled either: the bytes are flushed before they are read back.
- Logging, `printStackTrace` and the debug-mode branches are not modelled.
- `File.delete()` always succeeds in the model. A failed delete only logs in the source.
- `applyForSpace` is an oracle given as a function. The disk cache's eviction is not part of this model.
- `long` overflow of completedLength and of `(callbackNumber+1)*averageLength` is not modelled: integers are unbounded.
- A failed write to the output stream is not modelled: only the input side raises throwables.
- The Java `while(true)` with `break` becomes a loop guarded by the retry condition. `realDownload` and `copy` are split into helper methods (`Attempt`, `Store`, `Guarded`, `Receive`, `WriteChunk`) to keep each proof small. The retry loop calls `realDownload` through `TracedDownload`, which also records the attempt on a ghost trace.
- Download.HttpUrlConnectionImageDownloader.Download: the progress reports of a whole run are stated only when no poll answers true. An attempt that is cancelled during its copy leaves its partial progress reported, and the model does not spell out how much.
- `Throwable`s other than IOExceptions, such as an `OutOfMemoryError` in the copy, are one `Unexpected` failure. Like every non-retried throwable, it ends the loop.
- `ImageHolder.getDrawable`, `SketchUtils.drawableToBitmap`'s drawing, the resources' `getDrawable`, and `ImageProcessor.process` are not modelled. They are inputs: the drawable is given by its conversions, and the processor is a function.
- The `OutOfMemoryError` a processor throws, and the `ExceptionMonitor` call that follows it, are a processor that returns null.
- A bitmap's width, height and attributes are not modelled, and neither are `RefBitmap`'s reference counting and `setAllowRecycle`. The flag is passed to the constructor.
- The memory cache's LRU eviction and size limit are not modelled. The cache is a map.
- `Resize.appendIdentifier` and `ImageProcessor.appendIdentifier` are not modelled. They are opaque strings that include the "_" separator.
- Placeholder.ResIdRoundTrip: requires that the text after the decimal resource id be empty or start with "_", since the identifiers are opaque.
- `SpearImageView`, the request classes beyond the fields used here, and `Sketch`'s configuration are not part of this model. The global low-quality flag and the placeholder memory cache are parameters.
