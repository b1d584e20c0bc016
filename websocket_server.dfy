/**
 * WebSocketServer: the running flag and listener of `StartAsync`/`Stop`, the
 * classification of requests into WebSocket sessions and static files, the
 * receive loop of one session, and `ProcessMouseCommand`, which decodes a
 * text frame and drives the MouseController (move and click only).
 */
module Server {
  import opened Common
  import opened Json
  import opened MouseControl
  import opened StaticFiles

  // ---------------------------------------------------------------- decoding

  /** What `ProcessMouseCommand` makes of one frame. */
  datatype Decoded =
    | Ignored                        // no controller call, nothing logged
    | MoveCommand(x: Int32, y: Int32)
    | ClickCommand(button: string)
    | DecodeFailure(fault: Fault)    // an exception, caught and logged

  function DecodeMove(props: map<string, Value>): Decoded {
    if "x" in props && "y" in props then
      match GetInt32(props["x"])
      case Err(f) => DecodeFailure(f)
      case Ok(x) =>
        match GetInt32(props["y"])
        case Err(f) => DecodeFailure(f)
        case Ok(y) => MoveCommand(x, y)
    else Ignored
  }

  function DecodeClick(props: map<string, Value>): Decoded {
    if "button" in props then
      match GetString(props["button"])
      case Err(f) => DecodeFailure(f)
      case Ok(None) => ClickCommand("left")
      case Ok(Some(b)) => ClickCommand(b)
    else Ignored
  }

  /** The body of `ProcessMouseCommand`'s try block, as a value. */
  function DecodeMouseCommand(doc: Document): Decoded {
    match doc
    case Malformed => DecodeFailure(ParseFailure)
    case Parsed(root) =>
      match TryGetProperty(root, "type")
      case Err(f) => DecodeFailure(f)
      case Ok(None) => Ignored
      case Ok(Some(typeElement)) =>
        match GetString(typeElement)
        case Err(f) => DecodeFailure(f)
        case Ok(t) =>
          if t == Some("move") then DecodeMove(root.props)
          else if t == Some("click") then DecodeClick(root.props)
          else Ignored
  }

  /** A frame the way the browser client writes one, for the round trip below. */
  function EncodeMouseCommand(d: Decoded): Document
    requires d.MoveCommand? || d.ClickCommand?
  {
    match d
    case MoveCommand(x, y) => Parsed(Object(map["type" := Str("move"), "x" := Integer(x), "y" := Integer(y)]))
    case ClickCommand(b) => Parsed(Object(map["type" := Str("click"), "button" := Str(b)]))
  }

  /** Round trip: the decoder reads back every move and click the client can write. */
  lemma DecodeEncode(d: Decoded)
    requires d.MoveCommand? || d.ClickCommand?
    ensures DecodeMouseCommand(EncodeMouseCommand(d)) == d
  {
  }

  /** A frame with no `type` property produces no controller call. */
  lemma DecodeWithoutType(props: map<string, Value>)
    requires "type" !in props
    ensures DecodeMouseCommand(Parsed(Object(props))) == Ignored
  {
  }

  /**
   * A `move` frame moves by (x, y) when both are int32 values; when either is
   * missing nothing happens; when both are present but one is not an int32,
   * the error is caught and nothing moves.
   */
  lemma DecodeMoveFrame(props: map<string, Value>)
    requires "type" in props && props["type"] == Str("move")
    ensures ("x" !in props || "y" !in props) ==> DecodeMouseCommand(Parsed(Object(props))) == Ignored
    ensures "x" in props && "y" in props ==>
      match (GetInt32(props["x"]), GetInt32(props["y"]))
      case (Ok(x), Ok(y)) => DecodeMouseCommand(Parsed(Object(props))) == MoveCommand(x, y)
      case _ => DecodeMouseCommand(Parsed(Object(props))) == DecodeFailure(NotAnInt32)
  {
  }

  /** A `click` frame clicks its button string, and a null button means "left". */
  lemma DecodeClickFrame(props: map<string, Value>)
    requires "type" in props && props["type"] == Str("click")
    ensures "button" !in props ==> DecodeMouseCommand(Parsed(Object(props))) == Ignored
    ensures "button" in props && props["button"] == Null ==> DecodeMouseCommand(Parsed(Object(props))) == ClickCommand("left")
    ensures "button" in props && props["button"].Str? ==>
      DecodeMouseCommand(Parsed(Object(props))) == ClickCommand(props["button"].s)
    ensures "button" in props && !props["button"].Str? && props["button"] != Null ==>
      DecodeMouseCommand(Parsed(Object(props))) == DecodeFailure(NotAString)
  {
  }

  /** Any other `type` string, or a null `type`, is silently ignored: no call and no error. */
  lemma DecodeOtherType(props: map<string, Value>)
    requires "type" in props && (props["type"] == Null || (props["type"].Str? && props["type"].s != "move" && props["type"].s != "click"))
    ensures DecodeMouseCommand(Parsed(Object(props))) == Ignored
  {
  }

  /** A malformed frame, a root that is not an object, or a non-string `type` is an error result. */
  lemma DecodeErrors(doc: Document)
    ensures doc.Malformed? ==> DecodeMouseCommand(doc) == DecodeFailure(ParseFailure)
    ensures doc.Parsed? && !doc.root.Object? ==> DecodeMouseCommand(doc) == DecodeFailure(NotAnObject)
    ensures doc.Parsed? && doc.root.Object? && "type" in doc.root.props
            && !doc.root.props["type"].Str? && doc.root.props["type"] != Null ==>
      DecodeMouseCommand(doc) == DecodeFailure(NotAString)
  {
  }

  // ---------------------------------------------------------------- logging

  /** The server's log lines; exception messages are represented by their cause. */
  datatype LogLine =
    | Info(text: string)
    | ServerStarted(localIp: string, port: int)   // the four lines of a successful start,
    | ListeningEverywhere                          // rendered by `BannerText`
    | TestFromMobile(localIp: string, port: int)
    | TestFromPC(port: int)
    | CommandProcessingError(fault: Fault)   // "Command processing error: ..."
    | CommunicationError                      // "WebSocket communication error: ..."
    | WebSocketAcceptError                    // "WebSocket error: ..."

  function MoveLine(x: Int32, y: Int32): string {
    "Move: (" + IntToDecimal(x) + ", " + IntToDecimal(y) + ")"
  }

  /** The lines `ProcessMouseCommand` logs for one decoded frame. */
  function CommandLog(d: Decoded, debugLogging: bool): seq<LogLine> {
    match d
    case MoveCommand(x, y) => if debugLogging then [Info(MoveLine(x, y))] else []
    case ClickCommand(b) => if debugLogging then [Info("Click: " + b)] else []
    case DecodeFailure(f) => [CommandProcessingError(f)]
    case Ignored => []
  }

  /** The controller call of one decoded frame, on the host state. */
  function Dispatch(s: MouseState, d: Decoded): MouseState {
    match d
    case MoveCommand(x, y) => MoveRelativeOn(s, x, y)
    case ClickCommand(b) => ClickOn(s, b)
    case _ => s
  }

  /** An error is always logged and never reaches the controller; an ignored frame leaves no trace. */
  lemma FailureIsContained(s: MouseState, d: Decoded, debugLogging: bool)
    ensures d.DecodeFailure? ==> Dispatch(s, d) == s && CommandLog(d, debugLogging) == [CommandProcessingError(d.fault)]
    ensures d.Ignored? ==> Dispatch(s, d) == s && CommandLog(d, debugLogging) == []
  {
  }

  // ---------------------------------------------------------------- sessions

  /** One completed `ReceiveAsync` on an open socket, or the exception it threw. */
  datatype Frame = TextFrame(doc: Document) | BinaryFrame | CloseFrame | ReceiveFailure

  predicate EndsSession(f: Frame) {
    f.CloseFrame? || f.ReceiveFailure?
  }

  /** The host state after a run of frames: text frames are dispatched until a close or a failure. */
  function SessionMouse(s: MouseState, frames: seq<Frame>): MouseState
    decreases |frames|
  {
    if frames == [] then s
    else match frames[0]
      case TextFrame(doc) => SessionMouse(Dispatch(s, DecodeMouseCommand(doc)), frames[1..])
      case BinaryFrame => SessionMouse(s, frames[1..])
      case _ => s
  }

  /** The lines the receive loop logs for a run of frames. */
  function SessionLog(frames: seq<Frame>, debugLogging: bool): seq<LogLine>
    decreases |frames|
  {
    if frames == [] then []
    else match frames[0]
      case TextFrame(doc) => CommandLog(DecodeMouseCommand(doc), debugLogging) + SessionLog(frames[1..], debugLogging)
      case BinaryFrame => SessionLog(frames[1..], debugLogging)
      case CloseFrame => [Info("WebSocket client disconnected")]
      case ReceiveFailure => [CommunicationError]
  }

  /** A malformed frame does not end the session: the frames after it are still actuated. */
  lemma MalformedFrameSkipped(s: MouseState, doc: Document, rest: seq<Frame>, debugLogging: bool)
    requires DecodeMouseCommand(doc).DecodeFailure?
    ensures SessionMouse(s, [TextFrame(doc)] + rest) == SessionMouse(s, rest)
    ensures SessionLog([TextFrame(doc)] + rest, debugLogging)
      == [CommandProcessingError(DecodeMouseCommand(doc).fault)] + SessionLog(rest, debugLogging)
  {
    assert ([TextFrame(doc)] + rest)[1..] == rest;
  }

  /** Nothing after a close frame or a receive failure is actuated. */
  lemma SessionEndsAt(s: MouseState, f: Frame, rest: seq<Frame>)
    requires EndsSession(f)
    ensures SessionMouse(s, [f] + rest) == s
  {
  }

  /** Frames are actuated in receive order: a session splits at any point before its end. */
  lemma {:induction false} SessionSplit(s: MouseState, a: seq<Frame>, b: seq<Frame>, debugLogging: bool)
    requires forall i :: 0 <= i < |a| ==> !EndsSession(a[i])
    ensures SessionMouse(s, a + b) == SessionMouse(SessionMouse(s, a), b)
    ensures SessionLog(a + b, debugLogging) == SessionLog(a, debugLogging) + SessionLog(b, debugLogging)
    decreases |a|
  {
    if a == [] {
      assert a + b == b;
    } else {
      assert (a + b)[0] == a[0] && (a + b)[1..] == a[1..] + b;
      match a[0]
      case TextFrame(doc) =>
        SessionSplit(Dispatch(s, DecodeMouseCommand(doc)), a[1..], b, debugLogging);
      case BinaryFrame =>
        SessionSplit(s, a[1..], b, debugLogging);
    }
  }

  /** Binary frames are skipped without effect. */
  lemma {:induction false} BinaryFramesIgnored(s: MouseState, n: nat, rest: seq<Frame>, debugLogging: bool)
    ensures SessionMouse(s, seq(n, _ => BinaryFrame) + rest) == SessionMouse(s, rest)
    ensures SessionLog(seq(n, _ => BinaryFrame) + rest, debugLogging) == SessionLog(rest, debugLogging)
    decreases n
  {
    var run := seq(n, _ => BinaryFrame);
    if n > 0 {
      assert (run + rest)[0] == BinaryFrame;
      assert (run + rest)[1..] == seq(n - 1, _ => BinaryFrame) + rest;
      BinaryFramesIgnored(s, n - 1, rest, debugLogging);
    } else {
      assert run + rest == rest;
    }
  }

  // ---------------------------------------------------------------- lifecycle

  /** The `HttpListener` object the server holds, if any. */
  datatype ListenerState = Created | Listening | Closed

  /** What `httpListener.Start()` does: succeeds, or throws `HttpListenerException` with an error code. */
  datatype BindOutcome = Bound | BindRefused(errorCode: int)

  const ERROR_ACCESS_DENIED: int := 5

  /** The exception `StartAsync` lets out. */
  datatype StartError =
    | PrivilegeRequired(port: int)            // UnauthorizedAccessException, with `AccessDeniedMessage(port)`
    | ListenerFailure(errorCode: int)         // the HttpListenerException itself

  function UrlAclCommand(port: int): string {
    "netsh http add urlacl url=http://+:" + IntToDecimal(port) + "/ user=Everyone"
  }

  const AccessDeniedPreamble: string :=
    "Administrator privileges required. Please run as administrator or execute this command in an admin command prompt:\n\n"

  function AccessDeniedMessage(port: int): string {
    AccessDeniedPreamble + UrlAclCommand(port)
  }

  /** The four lines logged once the listener is started. */
  function StartedLines(localIp: string, port: int): seq<LogLine> {
    [ServerStarted(localIp, port), ListeningEverywhere, TestFromMobile(localIp, port), TestFromPC(port)]
  }

  predicate IsBanner(line: LogLine) {
    line.ServerStarted? || line.ListeningEverywhere? || line.TestFromMobile? || line.TestFromPC?
  }

  function Url(host: string, port: int): string {
    "http://" + host + ":" + IntToDecimal(port) + "/"
  }

  /** The text of each start line. */
  function BannerText(line: LogLine): string
    requires IsBanner(line)
  {
    match line
    case ServerStarted(localIp, port) => "Server started at " + Url(localIp, port)
    case ListeningEverywhere => "Listening on all interfaces - accessible from other devices"
    case TestFromMobile(localIp, port) => "Test from mobile: " + Url(localIp, port)
    case TestFromPC(port) => "Test from PC: " + Url("localhost", port)
  }

  /**
   * The start lines advertise one address: the first and the third end with
   * the LAN URL, the fourth with the loopback URL on the same port, and
   * different ports give different URLs.
   */
  lemma StartedLinesAdvertise(localIp: string, port: int, other: int)
    ensures forall line :: line in StartedLines(localIp, port) ==> IsBanner(line)
    ensures IsSuffix(Url(localIp, port), BannerText(StartedLines(localIp, port)[0]))
    ensures IsSuffix(Url(localIp, port), BannerText(StartedLines(localIp, port)[2]))
    ensures IsSuffix(Url("localhost", port), BannerText(StartedLines(localIp, port)[3]))
    ensures Url(localIp, port) == Url(localIp, other) ==> port == other
  {
    SuffixOfConcat("Server started at ", Url(localIp, port));
    SuffixOfConcat("Test from mobile: ", Url(localIp, port));
    SuffixOfConcat("Test from PC: ", Url("localhost", port));
    if Url(localIp, port) == Url(localIp, other) {
      InterpolationInjective("http://" + localIp + ":", port, other, "/");
    }
  }

  /** The access-denied message ends with the reservation command, and that command names the port. */
  lemma AccessDeniedNamesPort(port: int, other: int)
    ensures IsSuffix(UrlAclCommand(port), AccessDeniedMessage(port))
    ensures UrlAclCommand(port) == UrlAclCommand(other) ==> port == other
  {
    SuffixOfConcat(AccessDeniedPreamble, UrlAclCommand(port));
    if UrlAclCommand(port) == UrlAclCommand(other) {
      InterpolationInjective("netsh http add urlacl url=http://+:", port, other, "/ user=Everyone");
    }
  }

  /**
   * An incoming request: a WebSocket upgrade (whether accepting it succeeds,
   * and the frames then received), or a plain request with its URL path.
   */
  datatype Request = Upgrade(accepted: bool, frames: seq<Frame>) | Plain(path: Option<string>)

  class WebSocketServer {
    const port: int
    const mouseController: MouseController
    var listener: Option<ListenerState>
    var isRunning: bool
    var debugLogging: bool
    var log: seq<LogLine>

    /** `new WebSocketServer(port)`, on a host whose cursor is at `cursor`. */
    constructor (port: int, cursor: Point, cursorReadable: bool)
      ensures this.port == port && listener.None? && !isRunning && debugLogging && log == []
      ensures fresh(mouseController) && mouseController.State() == MouseState(cursor, cursorReadable, [])
    {
      this.port := port;
      this.mouseController := new MouseController(cursor, cursorReadable);
      listener := None;
      isRunning := false;
      debugLogging := true;
      log := [];
    }

    /** The `DebugLogging` setter. */
    method SetDebugLogging(value: bool)
      modifies this`debugLogging
      ensures debugLogging == value
    {
      debugLogging := value;
    }

    /**
     * `StartAsync()`: a no-op when already running. Otherwise a new listener
     * is created and started; on success the server is running and logs its
     * addresses. A failed `HttpListener.Start` closes the listener before it
     * throws. On access denied (error code 5) the listener is then dropped,
     * the server is not running, and the error carries the
     * `netsh http add urlacl` command; any other error code propagates as is
     * and the closed listener stays in the field.
     */
    method StartAsync(localIp: string, bind: BindOutcome) returns (error: Option<StartError>)
      modifies this`listener, this`isRunning, this`log
      ensures old(isRunning) ==> error.None? && listener == old(listener) && isRunning && log == old(log)
      ensures !old(isRunning) && bind.Bound? ==>
        error.None? && isRunning && listener == Some(Listening) && log == old(log) + StartedLines(localIp, port)
      ensures !old(isRunning) && bind.BindRefused? && bind.errorCode == ERROR_ACCESS_DENIED ==>
        error == Some(PrivilegeRequired(port)) && !isRunning && listener.None? && log == old(log)
      ensures !old(isRunning) && bind.BindRefused? && bind.errorCode != ERROR_ACCESS_DENIED ==>
        error == Some(ListenerFailure(bind.errorCode)) && !isRunning && listener == Some(Closed) && log == old(log)
    {
      if isRunning {
        return None;
      }
      listener := Some(Created);
      match bind
      case Bound =>
        listener := Some(Listening);
        isRunning := true;
        log := log + StartedLines(localIp, port);
        error := None;
      case BindRefused(code) =>
        if code == ERROR_ACCESS_DENIED {
          listener := Some(Closed);
          listener := None;
          isRunning := false;
          error := Some(PrivilegeRequired(port));
        } else {
          listener := Some(Closed);
          error := Some(ListenerFailure(code));
        }
    }

    /**
     * `Stop()`: clears the running flag, stops and closes the listener if
     * there is one, and logs. The field keeps the closed listener, so on a
     * second call `HttpListener.Stop` finds it disposed and throws
     * `ObjectDisposedException` (`disposed`) before anything is logged.
     */
    method Stop() returns (disposed: bool)
      modifies this`listener, this`isRunning, this`log
      ensures !isRunning
      ensures disposed <==> old(listener) == Some(Closed)
      ensures listener == if old(listener).Some? then Some(Closed) else None
      ensures log == old(log) + (if disposed then [] else [Info("Server stopped")])
    {
      isRunning := false;
      if listener == Some(Closed) {
        return true;
      }
      if listener.Some? {
        listener := Some(Closed);
      }
      log := log + [Info("Server stopped")];
      disposed := false;
    }

    /** `ProcessMouseCommand(message)`: decode, call the controller, log; every error is caught. */
    method ProcessMouseCommand(doc: Document)
      modifies this`log, mouseController
      ensures mouseController.State() == Dispatch(old(mouseController.State()), DecodeMouseCommand(doc))
      ensures log == old(log) + CommandLog(DecodeMouseCommand(doc), debugLogging)
    {
      var decoded := DecodeMouseCommand(doc);
      match decoded
      case MoveCommand(x, y) =>
        mouseController.MoveRelative(x, y);
        if debugLogging {
          log := log + [Info(MoveLine(x, y))];
        }
      case ClickCommand(button) =>
        mouseController.Click(button);
        if debugLogging {
          log := log + [Info("Click: " + button)];
        }
      case DecodeFailure(fault) =>
        log := log + [CommandProcessingError(fault)];
      case Ignored =>
    }

    /**
     * The receive loop of `HandleWebSocketAsync` over the frames received so
     * far: text frames are processed, other data frames skipped, and a close
     * frame or a receive failure ends the session.
     */
    method ReceiveLoop(frames: seq<Frame>)
      modifies this`log, mouseController
      ensures mouseController.State() == SessionMouse(old(mouseController.State()), frames)
      ensures log == old(log) + SessionLog(frames, debugLogging)
    {
      ghost var s0 := mouseController.State();
      ghost var log0 := log;
      var open := true;
      var i := 0;
      while open && i < |frames|
        invariant 0 <= i <= |frames|
        invariant open ==> SessionMouse(mouseController.State(), frames[i..]) == SessionMouse(s0, frames)
        invariant open ==> log + SessionLog(frames[i..], debugLogging) == log0 + SessionLog(frames, debugLogging)
        invariant !open ==> mouseController.State() == SessionMouse(s0, frames)
        invariant !open ==> log == log0 + SessionLog(frames, debugLogging)
        decreases |frames| - i, open
      {
        assert frames[i..][0] == frames[i] && frames[i..][1..] == frames[i + 1..];
        match frames[i] {
          case TextFrame(doc) =>
            ProcessMouseCommand(doc);
          case BinaryFrame =>
          case CloseFrame =>
            log := log + [Info("WebSocket client disconnected")];
            open := false;
          case ReceiveFailure =>
            log := log + [CommunicationError];
            open := false;
        }
        i := i + 1;
      }
      if open {
        assert frames[i..] == [];
      }
    }

    /** `HandleWebSocketAsync`: a failed accept answers 500; an accepted socket runs the receive loop. */
    method HandleWebSocket(accepted: bool, frames: seq<Frame>) returns (response: Option<Response>)
      modifies this`log, mouseController
      ensures !accepted ==>
        && response == Some(Response(500, "", []))
        && log == old(log) + [WebSocketAcceptError]
        && mouseController.State() == old(mouseController.State())
      ensures accepted ==>
        && response.None?
        && log == old(log) + [Info("WebSocket client connected")] + SessionLog(frames, debugLogging)
        && mouseController.State() == SessionMouse(old(mouseController.State()), frames)
    {
      if !accepted {
        log := log + [WebSocketAcceptError];
        return Some(Response(500, "", []));
      }
      log := log + [Info("WebSocket client connected")];
      ReceiveLoop(frames);
      response := None;
    }

    /** `HandleRequestAsync`: WebSocket requests become sessions, all others are static files. */
    method HandleRequest(request: Request, files: map<string, seq<bv8>>) returns (response: Option<Response>)
      modifies this`log, mouseController
      ensures request.Plain? ==>
        && response == Some(ServeStaticFile(request.path, files))
        && log == old(log)
        && mouseController.State() == old(mouseController.State())
      ensures request.Upgrade? && !request.accepted ==>
        && response == Some(Response(500, "", []))
        && log == old(log) + [WebSocketAcceptError]
        && mouseController.State() == old(mouseController.State())
      ensures request.Upgrade? && request.accepted ==>
        && response.None?
        && log == old(log) + [Info("WebSocket client connected")] + SessionLog(request.frames, debugLogging)
        && mouseController.State() == SessionMouse(old(mouseController.State()), request.frames)
    {
      match request
      case Upgrade(accepted, frames) =>
        response := HandleWebSocket(accepted, frames);
      case Plain(path) =>
        response := Some(ServeStaticFile(path, files));
    }
  }

  /**
   * A start refused for lack of privilege leaves the server able to start:
   * once the reservation exists, the next `StartAsync` on the same object runs.
   */
  method StartAfterAccessDenied(port: int, localIp: string) returns (first: Option<StartError>, second: Option<StartError>, running: bool)
    ensures first == Some(PrivilegeRequired(port))
    ensures second.None? && running
  {
    var server := new WebSocketServer(port, Point(0, 0), true);
    first := server.StartAsync(localIp, BindRefused(ERROR_ACCESS_DENIED));
    second := server.StartAsync(localIp, Bound);
    running := server.isRunning;
  }

  /**
   * "Server stopped" is logged once per listener: a started server stops
   * normally, and stopping it again throws on the disposed listener and logs
   * nothing more. A server that was never started stops, and logs, every time.
   */
  method StopTwice(port: int, localIp: string, start: bool) returns (first: bool, second: bool, stopLines: nat)
    ensures !first
    ensures second <==> start
    ensures stopLines == if start then 1 else 2
  {
    var server := new WebSocketServer(port, Point(0, 0), true);
    if start {
      var _ := server.StartAsync(localIp, Bound);
    }
    var before := |server.log|;
    first := server.Stop();
    second := server.Stop();
    stopLines := |server.log| - before;
  }

  /**
   * After a start that fails with an error other than access denied, the
   * server holds a closed listener, so `Stop` throws and logs nothing.
   */
  method StopAfterFailedStart(port: int, localIp: string, errorCode: int) returns (error: Option<StartError>, disposed: bool, logged: seq<LogLine>)
    requires errorCode != ERROR_ACCESS_DENIED
    ensures error == Some(ListenerFailure(errorCode))
    ensures disposed && logged == []
  {
    var server := new WebSocketServer(port, Point(0, 0), true);
    error := server.StartAsync(localIp, BindRefused(errorCode));
    disposed := server.Stop();
    logged := server.log;
  }
}
