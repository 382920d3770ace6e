/**
 * Opening the located thymesheets as streams, all or none: ThymesheetPreprocessor.openFiles,
 * getFileFromWebapp, getInputStream and closeInputStreams. The class loader and the servlet
 * context are oracles that say whether a path resolves.
 */
module Resources {
  import opened Wrappers
  import opened Sequences
  import opened Paths

  /** What ServletContextURLFactory.getURL followed by URL.openStream gives for a webapp path. */
  datatype WebLookup =
    | Opened                        // a stream was opened
    | NullStream                    // openStream returned null
    | UrlNotFound                   // getURL returned null
    | MalformedUrl(message: string) // getURL threw MalformedURLException
    | OpenFailed(message: string)   // openStream threw IOException

  datatype UrlFactory = UrlFactory(getStream: string -> WebLookup)

  /** getClass().getResourceAsStream: whether a resource of that name exists. */
  datatype ClassLoader = ClassLoader(hasResource: string -> bool)

  /** The result of opening one path: a stream, or the message of the FileNotFoundException thrown. */
  datatype Opening = Resolved | Unresolved(message: string)

  function NotFoundMessage(filePath: string): string {
    "Thymesheet file \"" + filePath + "\" not found."
  }

  function UnableToOpenMessage(filePath: string, reason: string): string {
    "Unable to open " + filePath + " - " + reason
  }

  function MissingUrlMessage(filePath: string): string {
    "File \"" + filePath + "\" not found."
  }

  /** One iteration of openFiles: class-path lookup or webapp lookup, then the null check. */
  function OpenPath(urlFactory: Option<UrlFactory>, loader: ClassLoader, filePath: string): (r: Opening)
    ensures r.Resolved? <==>
      if IsClassPath(urlFactory.Some?, filePath) then loader.hasResource(FixClassPath(filePath))
      else urlFactory.value.getStream(filePath) == Opened
    ensures r.Unresolved? ==> Contains(r.message, filePath)
  {
    if IsClassPath(urlFactory.Some?, filePath) then
      if loader.hasResource(FixClassPath(filePath)) then Resolved
      else
        ContainsInfix("Thymesheet file \"", filePath, "\" not found.");
        Unresolved(NotFoundMessage(filePath))
    else
      match urlFactory.value.getStream(filePath)
      case Opened => Resolved
      case NullStream =>
        ContainsInfix("Thymesheet file \"", filePath, "\" not found.");
        Unresolved(NotFoundMessage(filePath))
      case UrlNotFound =>
        ContainsInfix("Unable to open ", filePath, " - " + MissingUrlMessage(filePath));
        assert UnableToOpenMessage(filePath, MissingUrlMessage(filePath)) ==
          "Unable to open " + filePath + (" - " + MissingUrlMessage(filePath));
        Unresolved(UnableToOpenMessage(filePath, MissingUrlMessage(filePath)))
      case MalformedUrl(m) =>
        ContainsInfix("Unable to open ", filePath, " - " + m);
        assert UnableToOpenMessage(filePath, m) == "Unable to open " + filePath + (" - " + m);
        Unresolved(UnableToOpenMessage(filePath, m))
      case OpenFailed(m) =>
        ContainsInfix("Unable to open ", filePath, " - " + m);
        assert UnableToOpenMessage(filePath, m) == "Unable to open " + filePath + (" - " + m);
        Unresolved(UnableToOpenMessage(filePath, m))
  }

  /** The first path that does not resolve, if any. */
  function FirstUnresolved(urlFactory: Option<UrlFactory>, loader: ClassLoader, filePaths: seq<string>): (r: Option<nat>)
    ensures r.Some? ==>
      && r.value < |filePaths|
      && OpenPath(urlFactory, loader, filePaths[r.value]).Unresolved?
      && forall j :: 0 <= j < r.value ==> OpenPath(urlFactory, loader, filePaths[j]).Resolved?
    ensures r.None? <==> forall j :: 0 <= j < |filePaths| ==> OpenPath(urlFactory, loader, filePaths[j]).Resolved?
  {
    FirstIndex(filePaths, p => OpenPath(urlFactory, loader, p).Unresolved?)
  }

  /**
   * An input stream over one thymesheet; `path` records which path it was opened for, and
   * `closeThrows` whether its close throws IOException (an oracle: the stream's own behaviour).
   */
  class Stream {
    const path: string
    const closeThrows: bool
    var isOpen: bool
    ghost var closeAttempted: bool

    constructor (path: string, closeThrows: bool)
      ensures this.path == path && this.closeThrows == closeThrows && isOpen && !closeAttempted
    {
      this.path := path;
      this.closeThrows := closeThrows;
      isOpen := true;
      closeAttempted := false;
    }

    /** InputStream.close: either it closes the stream, or it throws and the stream stays as it was. */
    method Close() returns (threw: bool)
      modifies this
      ensures threw == closeThrows && closeAttempted
      ensures isOpen == (old(isOpen) && closeThrows)
    {
      closeAttempted := true;
      if closeThrows {
        return true;
      }
      isOpen := false;
      return false;
    }
  }

  /** The List<InputStream> that openFiles appends to. */
  class StreamList {
    var items: seq<Stream>

    constructor ()
      ensures items == []
    {
      items := [];
    }

    method Add(s: Stream)
      modifies this
      ensures items == old(items) + [s]
    {
      items := items + [s];
    }
  }

  /** How many paths openFiles gets through: all of them, or those before the first failure. */
  function OpenedCount(urlFactory: Option<UrlFactory>, loader: ClassLoader, filePaths: seq<string>): nat {
    match FirstUnresolved(urlFactory, loader, filePaths)
    case None => |filePaths|
    case Some(i) => i
  }

  /**
   * openFiles: one new open stream per path appended in path order; on the first path that does
   * not resolve, stops with the streams of the earlier paths appended and reports that path.
   */
  method OpenFiles(
    urlFactory: Option<UrlFactory>, loader: ClassLoader, closeThrows: string -> bool,
    filePaths: seq<string>, streams: StreamList)
    returns (failure: Option<string>)
    modifies streams
    ensures |streams.items| == |old(streams.items)| + OpenedCount(urlFactory, loader, filePaths)
    ensures streams.items[..|old(streams.items)|] == old(streams.items)
    ensures forall k :: |old(streams.items)| <= k < |streams.items| ==>
      && fresh(streams.items[k]) && streams.items[k].isOpen && !streams.items[k].closeAttempted
      && streams.items[k].path == filePaths[k - |old(streams.items)|]
      && streams.items[k].closeThrows == closeThrows(streams.items[k].path)
    ensures failure == match FirstUnresolved(urlFactory, loader, filePaths)
      case None => None
      case Some(i) => Some(OpenPath(urlFactory, loader, filePaths[i]).message)
  {
    ghost var n0 := |streams.items|;
    for i := 0 to |filePaths|
      invariant forall j :: 0 <= j < i ==> OpenPath(urlFactory, loader, filePaths[j]).Resolved?
      invariant |streams.items| == n0 + i && streams.items[..n0] == old(streams.items)
      invariant forall k :: n0 <= k < |streams.items| ==>
        && fresh(streams.items[k]) && streams.items[k].isOpen && !streams.items[k].closeAttempted
        && streams.items[k].path == filePaths[k - n0]
        && streams.items[k].closeThrows == closeThrows(streams.items[k].path)
    {
      var filePath := filePaths[i];
      var stream := OpenPath(urlFactory, loader, filePath);
      if stream.Unresolved? {
        FirstIndexAt(filePaths, p => OpenPath(urlFactory, loader, p).Unresolved?, i);
        return Some(stream.message);
      }
      var s := new Stream(filePath, closeThrows(filePath));
      streams.Add(s);
    }
    return None;
  }

  /**
   * closeInputStreams: every stream gets a close attempt, also after an earlier close threw (its
   * IOException is swallowed); a stream ends closed unless its own close threw.
   */
  method CloseInputStreams(streams: seq<Stream>)
    modifies set s | s in streams
    ensures forall s :: s in streams ==> s.closeAttempted && s.isOpen == (old(s.isOpen) && s.closeThrows)
  {
    for i := 0 to |streams|
      invariant forall j :: 0 <= j < i ==>
        streams[j].closeAttempted && streams[j].isOpen == (old(streams[j].isOpen) && streams[j].closeThrows)
      invariant forall s :: s in streams && s !in streams[..i] ==> unchanged(s)
    {
      assert streams[i] in streams[..i + 1];
      var _ := streams[i].Close();  // an IOException from close is caught and ignored
    }
  }

  /**
   * getInputStream: opens every path; on success the streams, one per path in path order, are what
   * the SequenceInputStream concatenates; on failure every stream opened so far gets a close attempt and the
   * FileNotFoundException is rethrown. `attempted` are the streams this call created.
   */
  method GetInputStream(
    urlFactory: Option<UrlFactory>, loader: ClassLoader, closeThrows: string -> bool, filePaths: seq<string>)
    returns (r: Result<seq<Stream>, string>, ghost attempted: seq<Stream>)
    ensures forall s :: s in attempted ==> fresh(s)
    ensures match FirstUnresolved(urlFactory, loader, filePaths)
      case None =>
        r == Success(attempted) && |attempted| == |filePaths| &&
        forall k :: 0 <= k < |filePaths| ==> attempted[k].isOpen && attempted[k].path == filePaths[k]
      case Some(i) =>
        r == Failure(OpenPath(urlFactory, loader, filePaths[i]).message) && |attempted| == i &&
        forall k :: 0 <= k < i ==>
          && attempted[k].path == filePaths[k] && attempted[k].closeAttempted
          && (attempted[k].isOpen <==> attempted[k].closeThrows)
  {
    var streams := new StreamList();
    var failure := OpenFiles(urlFactory, loader, closeThrows, filePaths, streams);
    attempted := streams.items;
    if failure.Some? {
      CloseInputStreams(streams.items);
      return Failure(failure.value), attempted;
    }
    return Success(streams.items), attempted;
  }
}
