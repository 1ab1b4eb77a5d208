# WebApp Hardware Bridge: lifecycle supervisor and document resolver

This project models two parts of WebApp Hardware Bridge, a local daemon. The daemon lets web
applications reach serial ports and printers through one WebSocket server.

- **The supervisor** (`Server`). `main` takes a single-instance lock and calls `start`. `start`
  loops: each run cycle it
  - builds the WebSocket transport;
  - builds, attaches and starts one adapter per configured serial port;
  - does the same for the printer adapter;
  - optionally does the same for the cloud-proxy client;
  - optionally generates a self-signed certificate and installs a secure socket factory;
  - optionally starts the HTTP API server;
  - starts the transport;
  - polls the `shouldRestart`/`shouldStop` flags every 100 ms;
  - closes and then stops the transport, and goes round again unless stop was requested.

  An `Exception` thrown while the transport and adapters are built, started, awaited or torn down
  (lines 70-124 of `Server.java`) ends the process with status 1.
- **The document resolver** (`DocumentService`). It turns a print document into a file in the
  download directory.
  - A document that carries raw content needs nothing.
  - A document that carries neither a URL nor a payload is refused.
  - An inline Base64 payload is decoded and written to the path derived from the URL.
  - Otherwise the URL is downloaded to that path.
  - The path is the configured download path followed by the URL's last segment, with spaces
    escaped as `%20`.

Files:

- `options.dfy`: the `Option` type used for Java's `null`.
- `documents.dfy`: module `Documents`.
  - Path derivation.
  - The dispatch of `prepareDocument`.
  - The effect of each operation on a filesystem, modelled as a map from path to bytes plus a set
    of directories.
  - The `DocumentService` class, whose methods are proved equal to those effects.
- `lifecycle.dfy`: module `Lifecycle`.
  - The construction plan of one cycle, as a sequence of collaborator calls (`Event`s).
  - The fault-free loop `Run` over a sequence of cycles. Each cycle carries its configuration and
    the restart/stop calls that arrive during each 100 ms sleep.
  - The `Server` class, whose `Start` is proved to perform `Run` exactly. When a collaborator
    throws, `Start` stops at the call that throws and returns `Exit(1)`.

Behaviour of the code that a reader may not expect, and that the model keeps:

- **The download path has no separator.** `getPathFromUrl` concatenates the download path and the
  file name with no `/` between them. For `http://host/dir/a b.pdf` the result is
  `<downloadDir>a%20b.pdf`; a separator appears only when the configured path ends in one.
  `OneSpaceInLastSegment` proves this for every such URL.
- **A URL ending in `/` names the download directory.** Its last segment is empty, so the derived
  path is the download path itself (`TrailingSlashIsDownloadPath`). When that directory exists,
  writing there fails (`TrailingSlashHitsDownloadDirectory`). The directory exists once the
  constructor has run, given the configuration order the model assumes (next point).
- **The constructor runs before the configuration is available.** `DocumentService.java:14`
  creates the singleton before line 15 fetches `ConfigService`. Java runs static initialisers in
  textual order, so as written line 18 dereferences a null `configService`. Class initialisation
  then fails, and every later use of the class fails with it. The model assumes the evidently
  intended order: the configuration is available when the constructor runs, and the constructor
  creates the download directory as lines 18-21 describe.
- **The download path is fixed for the service's life.** Lines 18 and 51 re-read the path from the
  configuration on every call. The model takes it once, as the `resolver` the service is built
  with.
- **The certificate is generated after the adapters.** The self-signed certificate is generated
  after the serial, printer and cloud-proxy adapters have been attached to the transport
  (`Server.java:98-106`). It still comes before the secure factory is installed and before the
  transport starts (`TlsHandling`).
- **A clean stop only returns.** A stop request makes `start` and then `main` return. Nothing calls
  `System.exit` on that path, so the model's outcome is `Returned` and no exit status is claimed.
- **`extract` decodes before it checks the URL.** A document with a payload and a null URL passes
  the null guard of `prepareDocument`. `extract` then decodes the payload and fails when deriving
  the path. No file is written, but the failure is a null dereference, not "URL is null"
  (`PayloadWithoutUrlFails`).

## Model

| member | source | states |
|---|---|---|
| Documents.EscapeSpaces | src/main/java/tigerworkshop/webapphardwarebridge/services/DocumentService.java:49 | the escaped URL contains no space and is no shorter than the original |
| Documents.NoSpaceUnchanged | src/main/java/tigerworkshop/webapphardwarebridge/services/DocumentService.java:49 | escaping leaves a string without spaces unchanged |
| Documents.EscapeAppend | src/main/java/tigerworkshop/webapphardwarebridge/services/DocumentService.java:49 | escaping distributes over concatenation, so it is applied space by space |
| Documents.EscapeKeepsSlashes | src/main/java/tigerworkshop/webapphardwarebridge/services/DocumentService.java:49 | the escaped string contains a '/' iff the original does |
| Documents.EscapeOneSpace | src/main/java/tigerworkshop/webapphardwarebridge/services/DocumentService.java:49 | a single space between two space-free strings becomes exactly "%20" |
| Documents.LastSegment | src/main/java/tigerworkshop/webapphardwarebridge/services/DocumentService.java:50 | no contract; the part after the last '/', characterised by FileNameIsEscapedLastSegment and LastSegmentAfterSlash |
| Documents.LastSegmentAfterSlash | src/main/java/tigerworkshop/webapphardwarebridge/services/DocumentService.java:50 | whatever precedes a URL's last '/', the '/'-free part after it is its last segment |
| Documents.LastIndexOf | src/main/java/tigerworkshop/webapphardwarebridge/services/DocumentService.java:50 | the result is -1 or a position holding the character, and no later position holds it |
| Documents.FileName | src/main/java/tigerworkshop/webapphardwarebridge/services/DocumentService.java:49-50 | the file name has no '/' and no space; it is the suffix of the escaped URL that follows a '/', or the whole escaped URL |
| Documents.PathFromUrl | src/main/java/tigerworkshop/webapphardwarebridge/services/DocumentService.java:48-52 | the path starts with the download path verbatim, and the rest contains no '/' and no space |
| Documents.FileNameIsEscapedLastSegment | src/main/java/tigerworkshop/webapphardwarebridge/services/DocumentService.java:49-50 | escaping then cutting at the last '/' equals cutting the raw URL at its last '/' then escaping |
| Documents.PathIsDownloadPathPlusSegment | src/main/java/tigerworkshop/webapphardwarebridge/services/DocumentService.java:48-52 | the path is the download path plus the escaped last segment of the URL, with no separator added |
| Documents.NoSlashUsesWholeUrl | src/main/java/tigerworkshop/webapphardwarebridge/services/DocumentService.java:50-51 | a URL without '/' is used whole, escaped, as the file name |
| Documents.OneSpaceInLastSegment | src/main/java/tigerworkshop/webapphardwarebridge/services/DocumentService.java:48-52 | for any URL `prefix/x y` with space-free x and y, the path is the download path followed by `x%20y` |
| Documents.TrailingSlashIsDownloadPath | src/main/java/tigerworkshop/webapphardwarebridge/services/DocumentService.java:48-52 | a URL ending in '/' derives exactly the download path |
| Documents.EmptyUrlIsDownloadPath | src/main/java/tigerworkshop/webapphardwarebridge/services/DocumentService.java:48-52 | the empty URL derives exactly the download path |
| Documents.Dispatch | src/main/java/tigerworkshop/webapphardwarebridge/services/DocumentService.java:54-68 | each of the four routes is taken iff its condition holds: skip iff raw content is present, reject iff neither URL nor payload, decode iff a payload, download iff a URL and no payload; the route carries the document's own fields |
| Documents.Write | src/main/java/tigerworkshop/webapphardwarebridge/services/DocumentService.java:31-32 | no contract; opening a directory for writing fails, anything else is created or replaced whole; characterised by ExtractOverwrites, UrlOnlyDownloads and WriteIgnoresEarlierContent |
| Documents.ExtractEffect | src/main/java/tigerworkshop/webapphardwarebridge/services/DocumentService.java:28-34 | no contract; characterised by ExtractOverwrites and TrailingSlashHitsDownloadDirectory |
| Documents.DownloadEffect | src/main/java/tigerworkshop/webapphardwarebridge/services/DocumentService.java:36-38 | no contract; characterised by UrlOnlyDownloads and DirectoryNeverWritten |
| Documents.Prepared | src/main/java/tigerworkshop/webapphardwarebridge/services/DocumentService.java:54-68 | no contract; characterised by the lemmas below, each about one route of prepareDocument |
| Documents.ExtractOverwrites | src/main/java/tigerworkshop/webapphardwarebridge/services/DocumentService.java:28-34 | extract succeeds iff the payload decodes, the URL is non-null and the derived path is not a directory; the failures come in that order; on failure no file changes; on success the derived path holds exactly the decoded bytes and every other file is kept |
| Documents.TrailingSlashHitsDownloadDirectory | src/main/java/tigerworkshop/webapphardwarebridge/services/DocumentService.java:28-34 | once the download directory exists, a decodable payload for a URL ending in '/' fails because the path is a directory, and no file changes |
| Documents.RawContentTouchesNothing | src/main/java/tigerworkshop/webapphardwarebridge/services/DocumentService.java:55-57 | non-empty raw content succeeds with the filesystem unchanged |
| Documents.MissingSourceRejected | src/main/java/tigerworkshop/webapphardwarebridge/services/DocumentService.java:59-61 | without raw content, URL or payload the call fails with "URL is null" and nothing changes |
| Documents.PayloadWithoutUrlFails | src/main/java/tigerworkshop/webapphardwarebridge/services/DocumentService.java:59-64 | a payload with a null URL passes the guard, then fails (invalid Base64 first, else the null path) and writes nothing |
| Documents.PayloadBeatsUrl | src/main/java/tigerworkshop/webapphardwarebridge/services/DocumentService.java:63-64 | with a payload, the result is extract's and does not depend on the network's reply |
| Documents.UrlOnlyDownloads | src/main/java/tigerworkshop/webapphardwarebridge/services/DocumentService.java:65-67 | with only a URL, a failed fetch fails and changes nothing; a fetched body is stored at the derived path, unless that path is a directory, which fails and changes nothing |
| Documents.DirectoryNeverWritten | src/main/java/tigerworkshop/webapphardwarebridge/services/DocumentService.java:28-38 | when the derived path is a directory, resolution fails and no file changes |
| Documents.PreparedKeepsDisjoint | src/main/java/tigerworkshop/webapphardwarebridge/services/DocumentService.java:54-68 | resolving a document never makes a path both a file and a directory |
| Documents.DoneIsResolvable | src/main/java/tigerworkshop/webapphardwarebridge/services/DocumentService.java:54-68 | without raw content, resolution succeeds iff there is a URL, there are bytes to write (a decodable payload, or else a fetched body) and the derived path is not a directory |
| Documents.ResolvedWrite | src/main/java/tigerworkshop/webapphardwarebridge/services/DocumentService.java:63-67 | a resolvable document is written to its derived path with the decoded payload, or else the fetched body |
| Documents.WriteIgnoresEarlierContent | src/main/java/tigerworkshop/webapphardwarebridge/services/DocumentService.java:31-32 | a write to a path that is not a directory does not depend on what the path held before |
| Documents.ResolutionIgnoresEarlierContent | src/main/java/tigerworkshop/webapphardwarebridge/services/DocumentService.java:28-38 | a successful resolution's result does not depend on what was at the derived path before: nothing is cached |
| Documents.SecondResolutionWins | src/main/java/tigerworkshop/webapphardwarebridge/services/DocumentService.java:28-38 | two successful resolutions of the same URL leave only the second one's bytes (last writer wins) |
| Documents.DeleteUndoesResolution | src/main/java/tigerworkshop/webapphardwarebridge/services/DocumentService.java:44-46 | deleting the derived path after a successful resolution restores the files, when the path held nothing before |
| Documents.DocumentService.constructor | src/main/java/tigerworkshop/webapphardwarebridge/services/DocumentService.java:17-22 | assuming the configuration is available when it runs (see "## Left out"), the download directory is created iff nothing exists at that path; files are untouched; no path is both a file and a directory |
| Documents.DocumentService.FileFromUrl | src/main/java/tigerworkshop/webapphardwarebridge/services/DocumentService.java:40-42 | the file names exactly the path getPathFromUrl derives |
| Documents.DocumentService.Extract | src/main/java/tigerworkshop/webapphardwarebridge/services/DocumentService.java:28-34 | outcome and new filesystem are ExtractEffect of the old one (properties in ExtractOverwrites); no path becomes both a file and a directory |
| Documents.DocumentService.Download | src/main/java/tigerworkshop/webapphardwarebridge/services/DocumentService.java:36-38 | outcome and new filesystem are DownloadEffect of the old one; no path becomes both a file and a directory |
| Documents.DocumentService.DeleteFileFromUrl | src/main/java/tigerworkshop/webapphardwarebridge/services/DocumentService.java:44-46 | the file at the derived path is removed, or the directory there when nothing lies inside it; everything else is kept |
| Documents.DocumentService.PrepareDocument | src/main/java/tigerworkshop/webapphardwarebridge/services/DocumentService.java:54-68 | outcome and new filesystem are Prepared of the old one, so every lemma about Prepared holds of the method; no path becomes both a file and a directory |
| Lifecycle.CyclePlan | src/main/java/tigerworkshop/webapphardwarebridge/Server.java:70-115 | no contract; the calls of one cycle's construction, characterised by the lemmas that follow |
| Lifecycle.Teardown | src/main/java/tigerworkshop/webapphardwarebridge/Server.java:123-124 | no contract; close, then stop; characterised by TeardownClosesThenStops |
| Lifecycle.SerialStepsShape | src/main/java/tigerworkshop/webapphardwarebridge/Server.java:77-82 | one build/attach/start triple per serial entry, in list order, and nothing else |
| Lifecycle.SerialStepsOnlySerial | src/main/java/tigerworkshop/webapphardwarebridge/Server.java:77-82 | the serial loop touches serial adapters only |
| Lifecycle.TransportFirstStartedLast | src/main/java/tigerworkshop/webapphardwarebridge/Server.java:72-115 | a cycle first creates the transport, turns address reuse on and sets the 3 s connection-lost timeout; the transport start is its last call and occurs nowhere else |
| Lifecycle.SerialAdaptersInOrder | src/main/java/tigerworkshop/webapphardwarebridge/Server.java:77-82 | the serial adapters sit right after the transport set-up, in list order, and no serial event occurs anywhere else in the cycle |
| Lifecycle.PrinterAlwaysStarted | src/main/java/tigerworkshop/webapphardwarebridge/Server.java:85-88 | the printer adapter is always built, attached, given the notification listener and started, right after the serials |
| Lifecycle.CloudProxyIffEnabled | src/main/java/tigerworkshop/webapphardwarebridge/Server.java:91-95 | the cloud-proxy client is built, attached and started iff it is enabled |
| Lifecycle.ApiIffEnabled | src/main/java/tigerworkshop/webapphardwarebridge/Server.java:109-112 | the API server is built and started iff it is enabled, and is never attached to the transport |
| Lifecycle.TlsHandling | src/main/java/tigerworkshop/webapphardwarebridge/Server.java:98-106 | TLS off: no certificate and no secure factory; TLS on: the factory is installed; a certificate for the configured address is generated iff self-signed is also set, and always before the factory |
| Lifecycle.CertificateBeforeFactory | src/main/java/tigerworkshop/webapphardwarebridge/Server.java:98-106 | in every plan, certificate generation comes before installing the secure factory |
| Lifecycle.NoTeardownInPlan | src/main/java/tigerworkshop/webapphardwarebridge/Server.java:70-115 | construction never closes or stops the transport |
| Lifecycle.FirstWake | src/main/java/tigerworkshop/webapphardwarebridge/Server.java:119-121 | the result is the first tick with a restart or stop request, or none when no tick has one |
| Lifecycle.Run | src/main/java/tigerworkshop/webapphardwarebridge/Server.java:49-130 | no contract; the loop when nothing throws, characterised by the lemmas that follow |
| Lifecycle.CycleEvents | src/main/java/tigerworkshop/webapphardwarebridge/Server.java:70-124 | a cycle's calls begin with its whole plan; when its wait sees a request they continue with exactly the teardown (close, then stop), and otherwise there is nothing after the plan |
| Lifecycle.CycleEventsFirst | src/main/java/tigerworkshop/webapphardwarebridge/Server.java:49-130 | the loop's calls from a cycle on begin with that cycle's calls, teardown included once it wakes |
| Lifecycle.StopBeforeStartRunsNothing | src/main/java/tigerworkshop/webapphardwarebridge/Server.java:50 | with stop already requested the loop makes no call and returns |
| Lifecycle.EarlyRestartDiscarded | src/main/java/tigerworkshop/webapphardwarebridge/Server.java:50-51 | a restart requested before a cycle begins has no effect, because the cycle clears the flag |
| Lifecycle.NoSignalNoTeardown | src/main/java/tigerworkshop/webapphardwarebridge/Server.java:119-124 | a cycle whose wait sees no request makes only its construction calls and never closes or stops the transport |
| Lifecycle.StopWins | src/main/java/tigerworkshop/webapphardwarebridge/Server.java:119-129 | a cycle woken with stop requested (with or without restart) tears down and is the last one; the loop returns |
| Lifecycle.RestartBuildsOneNewCycle | src/main/java/tigerworkshop/webapphardwarebridge/Server.java:50-124 | a restart-only wake tears down and builds exactly one new cycle from the next configuration, whose construction comes next |
| Lifecycle.RunStartsWithTransport | src/main/java/tigerworkshop/webapphardwarebridge/Server.java:72 | the loop's calls, when there are any, begin with creating a transport |
| Lifecycle.TeardownClosesThenStops | src/main/java/tigerworkshop/webapphardwarebridge/Server.java:115-124 | over the whole loop, every close directly follows a transport start and is directly followed by a stop, and every stop directly follows a close |
| Lifecycle.Server.constructor | src/main/java/tigerworkshop/webapphardwarebridge/Server.java:30-36 | the server keeps the given listener (none for the no-argument constructor); both flags start false |
| Lifecycle.Server.Stop | src/main/java/tigerworkshop/webapphardwarebridge/Server.java:132-134 | sets the stop flag and nothing else |
| Lifecycle.Server.Restart | src/main/java/tigerworkshop/webapphardwarebridge/Server.java:136-138 | sets the restart flag and nothing else |
| Lifecycle.Server.Call | src/main/java/tigerworkshop/webapphardwarebridge/Server.java:70-124 | one collaborator call is appended to the trace; it throws iff it is the call at the fault position |
| Lifecycle.Server.AddAdapter | src/main/java/tigerworkshop/webapphardwarebridge/Server.java:79-81 | builds, attaches and starts one adapter, stopping at a call that throws |
| Lifecycle.Server.CreateTransport | src/main/java/tigerworkshop/webapphardwarebridge/Server.java:72-74 | makes exactly the transport set-up calls, stopping at a call that throws |
| Lifecycle.Server.AddSerials | src/main/java/tigerworkshop/webapphardwarebridge/Server.java:77-82 | makes exactly the serial part of the plan, stopping at a call that throws |
| Lifecycle.Server.AddPrinter | src/main/java/tigerworkshop/webapphardwarebridge/Server.java:85-88 | makes exactly the printer part of the plan, stopping at a call that throws |
| Lifecycle.Server.AddCloudProxy | src/main/java/tigerworkshop/webapphardwarebridge/Server.java:91-95 | makes exactly the cloud-proxy part of the plan, stopping at a call that throws |
| Lifecycle.Server.ConfigureTls | src/main/java/tigerworkshop/webapphardwarebridge/Server.java:98-106 | makes exactly the TLS part of the plan, stopping at a call that throws |
| Lifecycle.Server.StartApi | src/main/java/tigerworkshop/webapphardwarebridge/Server.java:109-112 | makes exactly the API part of the plan, stopping at a call that throws |
| Lifecycle.Server.Construct | src/main/java/tigerworkshop/webapphardwarebridge/Server.java:70-115 | makes exactly the cycle's whole plan, or its prefix up to and including a call that throws |
| Lifecycle.Server.Await | src/main/java/tigerworkshop/webapphardwarebridge/Server.java:119-121 | with a flag already set it returns at once; otherwise it wakes iff some tick carries a request, and the flags then are that first tick's requests |
| Lifecycle.Server.Shutdown | src/main/java/tigerworkshop/webapphardwarebridge/Server.java:123-124 | closes, then stops, the transport, stopping at a call that throws |
| Lifecycle.Server.ServeCycle | src/main/java/tigerworkshop/webapphardwarebridge/Server.java:51-128 | one cycle makes its plan and, once woken, its teardown, cut at a call that throws; without a throw the flags are those of the first signalled tick |
| Lifecycle.Server.NextCycle | src/main/java/tigerworkshop/webapphardwarebridge/Server.java:50-128 | one pass of the loop either throws and ends the run with Exit(1) cut at the fault, or is never woken and leaves the run's calls and outcome as Run's, or leaves the rest of Run to the next cycle with the flags of the tick that woke it |
| Lifecycle.Server.Start | src/main/java/tigerworkshop/webapphardwarebridge/Server.java:49-130 | without a throw, the calls, outcome and final flags are exactly those of Run; a throw yields Exit(1) with the calls of Run up to and including the one that threw |
| Lifecycle.Server.Launch | src/main/java/tigerworkshop/webapphardwarebridge/Server.java:38-47 | a held lock exits with status 1 after no call and no change; otherwise the result is Start's |

## Left out

- The `DocumentService` singleton, the config singleton and logging are not modelled. The download path and the Base64 decoder are parameters (`Resolver`).
- Documents.DocumentService.constructor: assumes the configuration is available when it runs. As written, `DocumentService.java:14` runs the constructor before line 15 sets `configService`, so line 18 throws a `NullPointerException` and the class never initialises. The model does not capture that failure; it models the evidently intended order.
- The download path is read once, when the service is built (`DocumentService.resolver`). The source re-reads it from the configuration on every call (lines 18 and 51), so a configuration change between calls is not modelled.
- Base64 decoding is an uninterpreted function the resolver is given (`Resolver.decode`). It either rejects its input or yields the bytes that are written. Bouncy Castle's decoder is not part of this model.
- The HTTP download (`DownloadUtil.file`), its timeout and its TLS-verification switch are not modelled: I/O. The network's answer is a parameter of each call. A failed download is assumed to leave the file untouched; a partial write is not modelled.
- The filesystem is a finite map from file path to bytes plus a set of directory paths, never overlapping (`DocumentService.Valid`). The only write failure modelled is a directory at the derived path. Writing into a missing directory, permission failures and disk errors are not modelled.
- Paths are compared as strings. `java.io.File`'s normalisation (dropping a trailing separator, resolving relative paths) is not modelled.
- `DownloadUtil` is not part of this model. When the fetch fails and the derived path is also a directory, the model reports the fetch failure; which one `DownloadUtil` reports is not visible.
- `mkdir` failure and the case of `mkdir` on a path whose parent is missing are not modelled. The constructor always succeeds in creating the directory.
- Documents.DocumentService.DeleteFileFromUrl: takes a non-null URL. The null dereference for a null URL and `File.delete`'s boolean result are not modelled.
- Documents.DocumentService.FileFromUrl and Documents.DocumentService.Download: take a non-null URL. `getFileFromUrl` and `download` are public, and a null URL makes line 49 throw a `NullPointerException`; that failure is not modelled for them. `extract` and `prepareDocument` do model the null URL.
- The single-instance lock (JUnique) is the `lockHeld` input of `Launch`. Lock identity and the other process are not modelled.
- Start-up logging and the system diagnostics (`Server.java:53-65`) are not modelled: output only.
- Loading the configuration (`Server.java:67-68`) is not modelled; `ConfigService` is not part of this model. Each cycle's configuration is an input, the same as the previous cycle's or a different one.
- The `bridgeWebSocketServer` field, the adapters and the API server exist only as the events they receive. Their own behaviour, ports and threads are not modelled.
- Reading the certificate files and building the secure factory (`TLSUtil.getSecureFactory`), then installing it, are one event, `InstallSecureFactory`.
- The 100 ms sleep is not modelled as time. Each `Tick` is the restart/stop calls that arrive during one sleep.
- An `InterruptedException` from the sleep (`Server.java:120`) is not modelled. It would end the process with status 1 before the transport is closed.
- Throwables that are not `Exception`s (an `Error` such as a failed native-library load) are not modelled. Line 125 does not catch them, so they would leave `start` without `System.exit(1)`.
- An exception in lines 53-68 of `Server.java` (diagnostics and configuration loading) is not modelled. Those lines lie outside the `try`, so such an exception would leave `start` without `System.exit(1)`. The model's throwing calls are only the collaborator calls of lines 72-124.
- Thread visibility of `shouldRestart`/`shouldStop` (the fields are not `volatile`) is not modelled. Calls from other threads are assumed to be seen at the next poll.
- Exceptions are modelled as one throwing collaborator call at a given position. The kind of exception and its stack trace are not modelled.
- Lifecycle.Server.Start: after `Exit(1)` the final flag values are not stated, since the process is gone.
- Lifecycle.Server.Launch: after `Exit(1)` from `Start` the final flag values are not stated, as for `Start`.
- A run whose input runs out ends with the outcome `Running`. The model cannot express that the real server would go on serving.
