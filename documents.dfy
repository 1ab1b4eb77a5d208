/**
 * The document resolver (DocumentService): it turns a print document's
 * reference (a URL, an inline Base64 payload, or already-resolved raw
 * content) into a file in the download directory.
 *
 * The filesystem is a map from path to bytes plus a set of directories.
 * Base64 decoding is a function the service is configured with, and the
 * network's answer to a download is a parameter of the call.
 */
module Documents {
  import opened Options

  newtype byte = x: int | 0 <= x < 256

  type Bytes = seq<byte>

  /** Base64 decoding; None when the decoder rejects its input. */
  type Decoder = string -> Option<Bytes>

  /** What the resolver is configured with: the downloader path and the decoder. */
  datatype Resolver = Resolver(downloadPath: string, decode: Decoder)

  // ---------------------------------------------------------------------
  // Path derivation (getPathFromUrl)
  // ---------------------------------------------------------------------

  /** `s.replace(" ", "%20")`: every space becomes "%20", nothing else changes. */
  function EscapeSpaces(s: string): (r: string)
    ensures ' ' !in r
    ensures |s| <= |r|
  {
    if s == [] then []
    else (if s[0] == ' ' then "%20" else [s[0]]) + EscapeSpaces(s[1..])
  }

  /** `s.lastIndexOf(c)`: the last position holding `c`, or -1 when there is none. */
  function LastIndexOf(s: string, c: char): (i: int)
    ensures -1 <= i < |s|
    ensures 0 <= i ==> s[i] == c
    ensures forall j :: i < j < |s| ==> s[j] != c
  {
    if s == [] then -1
    else if s[|s| - 1] == c then |s| - 1
    else LastIndexOf(s[..|s| - 1], c)
  }

  /** The part of a string after its last '/', or all of it when it has none. */
  function LastSegment(s: string): string
  {
    s[LastIndexOf(s, '/') + 1..]
  }

  /**
   * The file name a URL is cached under: the space-escaped URL cut after
   * its last '/'. It is the longest suffix of the escaped URL without a '/'.
   */
  function FileName(url: string): (f: string)
    ensures '/' !in f && ' ' !in f
    ensures var e := EscapeSpaces(url);
      |f| <= |e| && f == e[|e| - |f|..] && (|f| == |e| || e[|e| - |f| - 1] == '/')
  {
    var e := EscapeSpaces(url);
    var f := LastSegment(e);
    assert forall k :: 0 <= k < |f| ==> f[k] == e[LastIndexOf(e, '/') + 1 + k];
    f
  }

  /**
   * getPathFromUrl: the configured download path followed directly, with
   * no separator added, by the URL's file name.
   */
  function PathFromUrl(downloadPath: string, url: string): (path: string)
    ensures |downloadPath| <= |path| && path[..|downloadPath|] == downloadPath
    ensures '/' !in path[|downloadPath|..] && ' ' !in path[|downloadPath|..]
  {
    var path := downloadPath + FileName(url);
    assert path[|downloadPath|..] == FileName(url);
    path
  }

  lemma {:induction false} EscapeAppend(a: string, b: string)
    ensures EscapeSpaces(a + b) == EscapeSpaces(a) + EscapeSpaces(b)
  {
    if a != [] {
      assert (a + b)[0] == a[0];
      assert (a + b)[1..] == a[1..] + b;
      EscapeAppend(a[1..], b);
    } else {
      assert a + b == b;
    }
  }

  /** A string without spaces is left as it is. */
  lemma {:induction false} NoSpaceUnchanged(s: string)
    requires ' ' !in s
    ensures EscapeSpaces(s) == s
  {
    if s != [] {
      assert s[0] != ' ' && ' ' !in s[1..];
      NoSpaceUnchanged(s[1..]);
    }
  }

  /** Escaping neither adds nor removes a '/'. */
  lemma {:induction false} EscapeKeepsSlashes(s: string)
    ensures '/' in EscapeSpaces(s) <==> '/' in s
  {
    if s != [] {
      EscapeKeepsSlashes(s[1..]);
      assert s == [s[0]] + s[1..];
    }
  }

  /** After a string ending in `c` (or an empty one), nothing free of `c` moves the last `c`. */
  lemma {:induction false} LastIndexOfSplit(x: string, y: string, c: char)
    requires x == [] || x[|x| - 1] == c
    requires c !in y
    ensures LastIndexOf(x + y, c) == |x| - 1
  {
    var s := x + y;
    forall j | |x| <= j < |s|
      ensures s[j] != c
    {
      assert s[j] == y[j - |x|];
    }
    if x != [] {
      assert s[|x| - 1] == c;
    }
  }

  /** Escaping keeps a final '/' final. */
  lemma {:induction false} EscapeKeepsFinalSlash(a: string)
    requires a == [] || a[|a| - 1] == '/'
    ensures var ea := EscapeSpaces(a); ea == [] || ea[|ea| - 1] == '/'
  {
    if a != [] {
      assert a == a[..|a| - 1] + "/";
      EscapeAppend(a[..|a| - 1], "/");
      assert EscapeSpaces("/") == "/";
    }
  }

  /** A string cut just after its last '/' (or not at all when it has none). */
  lemma {:induction false} SplitAtLastSlash(s: string)
    ensures var i := LastIndexOf(s, '/'); s == s[..i + 1] + s[i + 1..]
    ensures var i := LastIndexOf(s, '/'); '/' !in s[i + 1..]
    ensures var i := LastIndexOf(s, '/'); i < 0 || s[..i + 1][i] == '/'
  {
    var i := LastIndexOf(s, '/');
    assert forall j :: i + 1 <= j < |s| ==> s[j] != '/';
  }

  /** After a prefix ending in '/', a suffix free of '/' is the last segment. */
  lemma {:induction false} LastSegmentOfSplit(a: string, b: string)
    requires a == [] || a[|a| - 1] == '/'
    requires '/' !in b
    ensures LastSegment(a + b) == b
  {
    LastIndexOfSplit(a, b, '/');
  }

  /**
   * The cached file's name is the URL's last segment with its spaces
   * escaped: escaping first and cutting second, as the source does, is the
   * same as cutting first and escaping second.
   */
  lemma {:induction false} FileNameIsEscapedLastSegment(url: string)
    ensures FileName(url) == EscapeSpaces(LastSegment(url))
  {
    var i := LastIndexOf(url, '/');
    var a, b := url[..i + 1], url[i + 1..];
    SplitAtLastSlash(url);
    assert a == [] || a[|a| - 1] == '/';
    EscapeAppend(a, b);
    EscapeKeepsSlashes(b);
    EscapeKeepsFinalSlash(a);
    LastSegmentOfSplit(EscapeSpaces(a), EscapeSpaces(b));
  }

  /** getPathFromUrl is the download path concatenated with the escaped last segment. */
  lemma PathIsDownloadPathPlusSegment(downloadPath: string, url: string)
    ensures PathFromUrl(downloadPath, url) == downloadPath + EscapeSpaces(LastSegment(url))
  {
    FileNameIsEscapedLastSegment(url);
  }

  /** A URL without '/' is used whole: lastIndexOf gives -1 and substring(0) takes everything. */
  lemma NoSlashUsesWholeUrl(downloadPath: string, url: string)
    requires '/' !in url
    ensures PathFromUrl(downloadPath, url) == downloadPath + EscapeSpaces(url)
  {
    EscapeKeepsSlashes(url);
    assert LastIndexOf(EscapeSpaces(url), '/') == -1;
  }

  /** A single space between two space-free parts becomes "%20" and nothing else changes. */
  lemma {:induction false} EscapeOneSpace(x: string, y: string)
    requires ' ' !in x && ' ' !in y
    ensures EscapeSpaces(x + " " + y) == x + "%20" + y
  {
    NoSpaceUnchanged(x);
    NoSpaceUnchanged(y);
    EscapeAppend(x, " ");
    assert EscapeSpaces(" ") == "%20";
    EscapeAppend(x + " ", y);
  }

  /** Whatever precedes a URL's last '/', the part after it is the last segment. */
  lemma {:induction false} LastSegmentAfterSlash(prefix: string, name: string)
    requires '/' !in name
    ensures LastSegment(prefix + "/" + name) == name
  {
    LastSegmentOfSplit(prefix + "/", name);
  }

  /**
   * The shape of the worked example "http://host/dir/a b.pdf": whatever
   * precedes the last '/', a last segment `x y` holding one space is
   * cached as `x%20y`, appended verbatim to the download path.
   */
  lemma {:induction false} OneSpaceInLastSegment(downloadPath: string, prefix: string, x: string, y: string)
    requires ' ' !in x && ' ' !in y && '/' !in x && '/' !in y
    ensures PathFromUrl(downloadPath, prefix + "/" + (x + " " + y)) == downloadPath + (x + "%20" + y)
  {
    EscapeKeepsSlashes(x + " " + y);
    EscapeOneSpace(x, y);
    EscapeKeepsSlashes(x + "%20" + y);
    LastSegmentAfterSlash(prefix, x + " " + y);
    PathIsDownloadPathPlusSegment(downloadPath, prefix + "/" + (x + " " + y));
  }

  // ---------------------------------------------------------------------
  // prepareDocument's dispatch
  // ---------------------------------------------------------------------

  /** A print document; each field may be null. */
  datatype PrintDocument = PrintDocument(
    rawContent: Option<string>,
    url: Option<string>,
    fileContent: Option<string>)

  /** Raw content counts only when it is non-null and non-empty. */
  predicate HasRawContent(doc: PrintDocument)
  {
    doc.rawContent.Some? && doc.rawContent.value != ""
  }

  /** What prepareDocument goes on to do. */
  datatype Step =
    | Skip
    | Reject
    | Decode(base64: string, url: Option<string>)
    | Fetch(source: string)

  function Dispatch(doc: PrintDocument): (step: Step)
    ensures step.Skip? <==> HasRawContent(doc)
    ensures step.Reject? <==> !HasRawContent(doc) && doc.url.None? && doc.fileContent.None?
    ensures step.Decode? <==> !HasRawContent(doc) && doc.fileContent.Some?
    ensures step.Fetch? <==> !HasRawContent(doc) && doc.fileContent.None? && doc.url.Some?
    ensures step.Decode? ==> step.base64 == doc.fileContent.value && step.url == doc.url
    ensures step.Fetch? ==> Some(step.source) == doc.url
  {
    if HasRawContent(doc) then Skip
    else if doc.url.None? && doc.fileContent.None? then Reject
    else if doc.fileContent.Some? then Decode(doc.fileContent.value, doc.url)
    else Fetch(doc.url.value)
  }

  // ---------------------------------------------------------------------
  // Effects on the filesystem
  // ---------------------------------------------------------------------

  datatype Failure =
    | UrlIsNull          // the exception "URL is null"
    | NullUrlPath        // getPathFromUrl(null) dereferences null
    | InvalidBase64      // the decoder rejects the payload
    | IsDirectory        // the derived path names a directory, which cannot be opened for writing
    | FetchError         // the download fails

  datatype Outcome = Done | Failed(failure: Failure)

  /** The network's answer to one download. */
  datatype Reply = Fetched(body: Bytes) | FetchFailed

  /** A call's outcome and the regular files afterwards; resolving a document never changes the directories. */
  datatype Effect = Effect(outcome: Outcome, files: map<string, Bytes>)

  /** No path is both a regular file and a directory. */
  predicate Disjoint(files: map<string, Bytes>, dirs: set<string>)
  {
    files.Keys !! dirs
  }

  /**
   * Opening `path` for writing and filling it with `bytes`: a directory
   * cannot be opened; anything else is created or replaced whole.
   */
  function Write(files: map<string, Bytes>, dirs: set<string>, path: string, bytes: Bytes): Effect
  {
    if path in dirs then Effect(Failed(IsDirectory), files)
    else Effect(Done, files[path := bytes])
  }

  /** extract: decode first, then derive the path, then write the file there. */
  function ExtractEffect(rs: Resolver, files: map<string, Bytes>, dirs: set<string>,
                         base64: string, url: Option<string>): Effect
  {
    match rs.decode(base64)
    case None => Effect(Failed(InvalidBase64), files)
    case Some(bytes) =>
      match url
      case None => Effect(Failed(NullUrlPath), files)
      case Some(u) => Write(files, dirs, PathFromUrl(rs.downloadPath, u), bytes)
  }

  /** download: the fetched body is written to the derived path. */
  function DownloadEffect(rs: Resolver, files: map<string, Bytes>, dirs: set<string>, url: string, reply: Reply): Effect
  {
    match reply
    case FetchFailed => Effect(Failed(FetchError), files)
    case Fetched(body) => Write(files, dirs, PathFromUrl(rs.downloadPath, url), body)
  }

  /** prepareDocument, as a function of the filesystem before it. */
  function Prepared(rs: Resolver, files: map<string, Bytes>, dirs: set<string>, doc: PrintDocument, reply: Reply): Effect
  {
    match Dispatch(doc)
    case Skip => Effect(Done, files)
    case Reject => Effect(Failed(UrlIsNull), files)
    case Decode(base64, url) => ExtractEffect(rs, files, dirs, base64, url)
    case Fetch(url) => DownloadEffect(rs, files, dirs, url, reply)
  }

  /**
   * extract succeeds exactly when the payload decodes, the URL is non-null
   * and the derived path is not a directory; the failures come in that order.
   */
  lemma ExtractOverwrites(rs: Resolver, files: map<string, Bytes>, dirs: set<string>,
                          base64: string, url: Option<string>)
    ensures var e := ExtractEffect(rs, files, dirs, base64, url);
      (e.outcome == Done <==>
         rs.decode(base64).Some? && url.Some? && PathFromUrl(rs.downloadPath, url.value) !in dirs)
      && (rs.decode(base64).None? ==> e.outcome == Failed(InvalidBase64))
      && (rs.decode(base64).Some? && url.None? ==> e.outcome == Failed(NullUrlPath))
      && ((rs.decode(base64).Some? && url.Some? && PathFromUrl(rs.downloadPath, url.value) in dirs)
            ==> e.outcome == Failed(IsDirectory))
      && (e.outcome != Done ==> e.files == files)
      && (e.outcome == Done ==>
            var path := PathFromUrl(rs.downloadPath, url.value);
            path in e.files && e.files[path] == rs.decode(base64).value
            && e.files.Keys == files.Keys + {path}
            && forall p :: p in files && p != path ==> e.files[p] == files[p])
  {
  }

  /** Raw content that is present stops prepareDocument before any file is touched. */
  lemma RawContentTouchesNothing(rs: Resolver, files: map<string, Bytes>, dirs: set<string>,
                                 doc: PrintDocument, reply: Reply)
    requires HasRawContent(doc)
    ensures Prepared(rs, files, dirs, doc, reply) == Effect(Done, files)
  {
  }

  /** Without raw content, a document with neither URL nor payload is refused and nothing changes. */
  lemma MissingSourceRejected(rs: Resolver, files: map<string, Bytes>, dirs: set<string>,
                              doc: PrintDocument, reply: Reply)
    requires !HasRawContent(doc) && doc.url.None? && doc.fileContent.None?
    ensures Prepared(rs, files, dirs, doc, reply) == Effect(Failed(UrlIsNull), files)
  {
  }

  /**
   * A payload with a null URL passes the guard; the payload is decoded and
   * then deriving the path fails, so the call fails and no file changes.
   */
  lemma PayloadWithoutUrlFails(rs: Resolver, files: map<string, Bytes>, dirs: set<string>,
                               doc: PrintDocument, reply: Reply)
    requires !HasRawContent(doc) && doc.fileContent.Some? && doc.url.None?
    ensures var e := Prepared(rs, files, dirs, doc, reply);
      e.files == files
      && e.outcome == Failed(if rs.decode(doc.fileContent.value).Some? then NullUrlPath else InvalidBase64)
  {
  }

  /** The payload takes precedence over the URL: the network is never consulted. */
  lemma PayloadBeatsUrl(rs: Resolver, files: map<string, Bytes>, dirs: set<string>,
                        doc: PrintDocument, r1: Reply, r2: Reply)
    requires !HasRawContent(doc) && doc.fileContent.Some?
    ensures Prepared(rs, files, dirs, doc, r1) == Prepared(rs, files, dirs, doc, r2)
      == ExtractEffect(rs, files, dirs, doc.fileContent.value, doc.url)
  {
  }

  /**
   * With no payload and a URL, the document is downloaded to the derived
   * path, unless the fetch fails or that path is a directory.
   */
  lemma UrlOnlyDownloads(rs: Resolver, files: map<string, Bytes>, dirs: set<string>,
                         doc: PrintDocument, reply: Reply)
    requires !HasRawContent(doc) && doc.fileContent.None? && doc.url.Some?
    ensures var e := Prepared(rs, files, dirs, doc, reply);
      var path := PathFromUrl(rs.downloadPath, doc.url.value);
      match reply
      case FetchFailed => e == Effect(Failed(FetchError), files)
      case Fetched(body) =>
        if path in dirs then e == Effect(Failed(IsDirectory), files)
        else e.outcome == Done && e.files == files[path := body]
  {
  }

  /** A document whose derived path is a directory is never written: the call fails and no file changes. */
  lemma DirectoryNeverWritten(rs: Resolver, files: map<string, Bytes>, dirs: set<string>,
                              doc: PrintDocument, reply: Reply)
    requires !HasRawContent(doc) && doc.url.Some? && PathFromUrl(rs.downloadPath, doc.url.value) in dirs
    ensures var e := Prepared(rs, files, dirs, doc, reply);
      e.outcome.Failed? && e.files == files
  {
    var path := PathFromUrl(rs.downloadPath, doc.url.value);
    if doc.fileContent.Some? {
      assert Dispatch(doc) == Decode(doc.fileContent.value, doc.url);
      var d := rs.decode(doc.fileContent.value);
      if d.Some? {
        assert ExtractEffect(rs, files, dirs, doc.fileContent.value, doc.url) == Write(files, dirs, path, d.value);
      }
    } else {
      assert Dispatch(doc) == Fetch(doc.url.value);
    }
  }

  /** A URL ending in '/' has an empty last segment, so it derives the download path itself. */
  lemma {:induction false} TrailingSlashIsDownloadPath(downloadPath: string, prefix: string)
    ensures PathFromUrl(downloadPath, prefix + "/") == downloadPath
  {
    var u := prefix + "/";
    LastIndexOfSplit(u, [], '/');
    assert u + [] == u;
    assert LastSegment(u) == [];
    PathIsDownloadPathPlusSegment(downloadPath, u);
  }

  /** The empty URL derives the download path itself. */
  lemma EmptyUrlIsDownloadPath(downloadPath: string)
    ensures PathFromUrl(downloadPath, []) == downloadPath
  {
    PathIsDownloadPathPlusSegment(downloadPath, []);
  }

  /**
   * Once the download directory exists, a payload for a URL ending in '/'
   * is refused: the derived path is that directory.
   */
  lemma TrailingSlashHitsDownloadDirectory(rs: Resolver, files: map<string, Bytes>, dirs: set<string>,
                                           base64: string, prefix: string)
    requires rs.downloadPath in dirs && rs.decode(base64).Some?
    ensures ExtractEffect(rs, files, dirs, base64, Some(prefix + "/")) == Effect(Failed(IsDirectory), files)
  {
    TrailingSlashIsDownloadPath(rs.downloadPath, prefix);
  }

  /** Resolving a document never makes a path both a file and a directory. */
  lemma PreparedKeepsDisjoint(rs: Resolver, files: map<string, Bytes>, dirs: set<string>,
                              doc: PrintDocument, reply: Reply)
    requires Disjoint(files, dirs)
    ensures Disjoint(Prepared(rs, files, dirs, doc, reply).files, dirs)
  {
  }

  /** A document that resolution writes: no raw content, a URL, and bytes to write. */
  predicate Resolvable(rs: Resolver, doc: PrintDocument, reply: Reply)
  {
    !HasRawContent(doc) && doc.url.Some?
    && if doc.fileContent.Some? then rs.decode(doc.fileContent.value).Some? else reply.Fetched?
  }

  /** The bytes resolution writes: the decoded payload, or else the fetched body. */
  function Payload(rs: Resolver, doc: PrintDocument, reply: Reply): Bytes
    requires Resolvable(rs, doc, reply)
  {
    if doc.fileContent.Some? then rs.decode(doc.fileContent.value).value else reply.body
  }

  /** Only a resolvable document whose derived path is no directory resolves by writing a file. */
  lemma DoneIsResolvable(rs: Resolver, files: map<string, Bytes>, dirs: set<string>, doc: PrintDocument, reply: Reply)
    requires !HasRawContent(doc)
    ensures Prepared(rs, files, dirs, doc, reply).outcome == Done <==>
      Resolvable(rs, doc, reply) && PathFromUrl(rs.downloadPath, doc.url.value) !in dirs
  {
  }

  /** A resolvable document is written to its derived path, whatever the files were. */
  lemma ResolvedWrite(rs: Resolver, files: map<string, Bytes>, dirs: set<string>, doc: PrintDocument, reply: Reply)
    requires Resolvable(rs, doc, reply)
    ensures Prepared(rs, files, dirs, doc, reply)
         == Write(files, dirs, PathFromUrl(rs.downloadPath, doc.url.value), Payload(rs, doc, reply))
  {
    if doc.fileContent.Some? {
      assert Dispatch(doc) == Decode(doc.fileContent.value, doc.url);
    } else {
      assert Dispatch(doc) == Fetch(doc.url.value);
    }
  }

  /** A write does not depend on what the path held before. */
  lemma WriteIgnoresEarlierContent(files: map<string, Bytes>, dirs: set<string>, path: string,
                                   bytes: Bytes, earlier: Bytes)
    requires path !in dirs
    ensures Write(files[path := earlier], dirs, path, bytes) == Write(files, dirs, path, bytes)
  {
    assert files[path := earlier][path := bytes] == files[path := bytes];
  }

  /**
   * Resolution never reuses what is at the derived path: the result does
   * not depend on the earlier content there.
   */
  lemma ResolutionIgnoresEarlierContent(rs: Resolver, files: map<string, Bytes>, dirs: set<string>,
                                        doc: PrintDocument, reply: Reply, earlier: Bytes)
    requires !HasRawContent(doc) && doc.url.Some?
    requires Prepared(rs, files, dirs, doc, reply).outcome == Done
    ensures Prepared(rs, files[PathFromUrl(rs.downloadPath, doc.url.value) := earlier], dirs, doc, reply)
         == Prepared(rs, files, dirs, doc, reply)
  {
    var path := PathFromUrl(rs.downloadPath, doc.url.value);
    DoneIsResolvable(rs, files, dirs, doc, reply);
    ResolvedWrite(rs, files, dirs, doc, reply);
    ResolvedWrite(rs, files[path := earlier], dirs, doc, reply);
    WriteIgnoresEarlierContent(files, dirs, path, Payload(rs, doc, reply), earlier);
  }

  /** Two resolutions of the same URL: the file holds only what the second one wrote. */
  lemma SecondResolutionWins(rs: Resolver, files: map<string, Bytes>, dirs: set<string>,
                             d1: PrintDocument, d2: PrintDocument, r1: Reply, r2: Reply)
    requires !HasRawContent(d1) && !HasRawContent(d2) && d1.url.Some? && d1.url == d2.url
    requires Prepared(rs, files, dirs, d1, r1).outcome == Done
    requires Prepared(rs, files, dirs, d2, r2).outcome == Done
    ensures Prepared(rs, Prepared(rs, files, dirs, d1, r1).files, dirs, d2, r2).files
         == Prepared(rs, files, dirs, d2, r2).files
  {
    var path := PathFromUrl(rs.downloadPath, d1.url.value);
    DoneIsResolvable(rs, files, dirs, d1, r1);
    ResolvedWrite(rs, files, dirs, d1, r1);
    ResolutionIgnoresEarlierContent(rs, files, dirs, d2, r2, Payload(rs, d1, r1));
  }

  /**
   * Deleting what a successful resolution wrote restores the files, when
   * the derived path held nothing before.
   */
  lemma DeleteUndoesResolution(rs: Resolver, files: map<string, Bytes>, dirs: set<string>,
                               doc: PrintDocument, reply: Reply)
    requires !HasRawContent(doc) && doc.url.Some?
    requires PathFromUrl(rs.downloadPath, doc.url.value) !in files
    requires Prepared(rs, files, dirs, doc, reply).outcome == Done
    ensures Prepared(rs, files, dirs, doc, reply).files - {PathFromUrl(rs.downloadPath, doc.url.value)} == files
  {
    var path := PathFromUrl(rs.downloadPath, doc.url.value);
    DoneIsResolvable(rs, files, dirs, doc, reply);
    ResolvedWrite(rs, files, dirs, doc, reply);
    assert files[path := Payload(rs, doc, reply)] - {path} == files;
  }

  // ---------------------------------------------------------------------
  // The service and the filesystem it writes to
  // ---------------------------------------------------------------------

  /** java.io.File: an abstract path name. */
  datatype File = File(path: string)

  /** Path `p` lies inside directory `d`: `d`, then a separator, is a prefix of `p`. */
  predicate Inside(d: string, p: string)
  {
    |d| < |p| && p[..|d|] == d && (p[|d|] == '/' || (d != [] && d[|d| - 1] == '/'))
  }

  /** Nothing, neither file nor directory, lies inside directory `d`. */
  predicate EmptyDir(files: map<string, Bytes>, dirs: set<string>, d: string)
  {
    (forall p :: p in files ==> !Inside(d, p)) && (forall p :: p in dirs ==> !Inside(d, p))
  }

  class DocumentService {
    const resolver: Resolver
    var files: map<string, Bytes>
    var dirs: set<string>

    predicate Valid()
      reads this
    {
      Disjoint(files, dirs)
    }

    /**
     * The constructor creates the download directory when nothing exists at
     * that path. The filesystem it starts from has no path that is both a
     * file and a directory.
     */
    constructor (resolver: Resolver, files: map<string, Bytes>, dirs: set<string>)
      requires Disjoint(files, dirs)
      ensures Valid()
      ensures this.resolver == resolver && this.files == files
      ensures this.dirs ==
        if resolver.downloadPath in files || resolver.downloadPath in dirs then dirs
        else dirs + {resolver.downloadPath}
    {
      this.resolver := resolver;
      this.files := files;
      var path := resolver.downloadPath;
      if !(path in files || path in dirs) {
        this.dirs := dirs + {path};
      } else {
        this.dirs := dirs;
      }
    }

    /** getFileFromUrl names exactly the path getPathFromUrl derives. */
    function FileFromUrl(url: string): (f: File)
      ensures f.path == PathFromUrl(resolver.downloadPath, url)
    {
      File(PathFromUrl(resolver.downloadPath, url))
    }

    method Extract(base64: string, url: Option<string>) returns (o: Outcome)
      requires Valid()
      modifies this`files
      ensures Valid()
      ensures Effect(o, files) == ExtractEffect(resolver, old(files), dirs, base64, url)
    {
      var decoded := resolver.decode(base64);
      if decoded.None? {
        return Failed(InvalidBase64);
      }
      if url.None? {
        return Failed(NullUrlPath);
      }
      var path := PathFromUrl(resolver.downloadPath, url.value);
      if path in dirs {
        return Failed(IsDirectory);
      }
      files := files[path := decoded.value];
      o := Done;
    }

    method Download(url: string, reply: Reply) returns (o: Outcome)
      requires Valid()
      modifies this`files
      ensures Valid()
      ensures Effect(o, files) == DownloadEffect(resolver, old(files), dirs, url, reply)
    {
      var path := PathFromUrl(resolver.downloadPath, url);
      match reply {
        case FetchFailed =>
          o := Failed(FetchError);
        case Fetched(body) =>
          if path in dirs {
            return Failed(IsDirectory);
          }
          files := files[path := body];
          o := Done;
      }
    }

    /**
     * deleteFileFromUrl removes the file at the derived path, or the
     * directory there when nothing lies inside it; nothing else changes.
     */
    method DeleteFileFromUrl(url: string)
      requires Valid()
      modifies this`files, this`dirs
      ensures Valid()
      ensures var path := FileFromUrl(url).path;
        files == old(files) - {path}
        && dirs == if path in old(dirs) && EmptyDir(old(files), old(dirs), path) then old(dirs) - {path}
                   else old(dirs)
    {
      var path := FileFromUrl(url).path;
      if path in dirs && EmptyDir(files, dirs, path) {
        dirs := dirs - {path};
      }
      files := files - {path};
    }

    method PrepareDocument(doc: PrintDocument, reply: Reply) returns (o: Outcome)
      requires Valid()
      modifies this`files
      ensures Valid()
      ensures Effect(o, files) == Prepared(resolver, old(files), dirs, doc, reply)
    {
      if doc.rawContent.Some? && doc.rawContent.value != "" {
        return Done;
      }
      if doc.url.None? && doc.fileContent.None? {
        return Failed(UrlIsNull);
      }
      if doc.fileContent.Some? {
        o := Extract(doc.fileContent.value, doc.url);
      } else {
        o := Download(doc.url.value, reply);
      }
    }
  }
}
