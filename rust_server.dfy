/**
 * The Rust server: a text message is decoded by serde into the internally
 * tagged `MouseAction` enum and turned into rdev events (an absolute
 * MouseMove, or ButtonPress then ButtonRelease); every request is admitted
 * only from a private IPv4 address.
 */
module RustServer {
  import opened Common
  import opened Json
  import Server

  // ---------------------------------------------------------------- decoding

  /** `enum MouseAction`, tagged by its `type` field. */
  datatype MouseAction = Move(x: Int32, y: Int32) | Click(button: string)

  /**
   * serde's `i32` field: an integer literal in range. serde_json reads the
   * literal -0 as the float -0.0, which an `i32` field rejects.
   */
  function SerdeI32(v: Value): (r: Option<Int32>)
    ensures r.Some? <==> v.Integer? && InInt32(v.n)
    ensures r.Some? ==> r.value == v.n
  {
    if v.Integer? && InInt32(v.n) then Some(v.n) else None
  }

  /**
   * `serde_json::from_str::<MouseAction>`: the root must be an object whose
   * `type` is the string "move" or "click"; `move` needs `x` and `y` as i32
   * integers and `click` a string `button`. Other fields are ignored.
   */
  function ParseAction(doc: Document): Option<MouseAction> {
    match doc
    case Malformed => None
    case Parsed(root) =>
      if !root.Object? || "type" !in root.props || !root.props["type"].Str? then None
      else
        var props := root.props;
        var tag := props["type"].s;
        if tag == "move" then
          if "x" in props && "y" in props then
            match (SerdeI32(props["x"]), SerdeI32(props["y"]))
            case (Some(x), Some(y)) => Some(Move(x, y))
            case _ => None
          else None
        else if tag == "click" then
          if "button" in props && props["button"].Str? then Some(Click(props["button"].s)) else None
        else None
  }

  /** The JSON object serde would write for an action. */
  function EncodeAction(a: MouseAction): Document {
    match a
    case Move(x, y) => Parsed(Object(map["type" := Str("move"), "x" := Integer(x), "y" := Integer(y)]))
    case Click(b) => Parsed(Object(map["type" := Str("click"), "button" := Str(b)]))
  }

  /** Round trip: every action decodes from its own encoding. */
  lemma ParseEncode(a: MouseAction)
    ensures ParseAction(EncodeAction(a)) == Some(a)
  {
  }

  /** Conversely, every document that decodes is the encoding of its action plus ignored fields. */
  lemma ParseOnlyFromEncoding(doc: Document)
    requires ParseAction(doc).Some?
    ensures doc.Parsed? && doc.root.Object?
    ensures forall k :: k in EncodeAction(ParseAction(doc).value).root.props ==>
      k in doc.root.props && doc.root.props[k] == EncodeAction(ParseAction(doc).value).root.props[k]
  {
  }

  /** Fields other than `type`, `x`, `y` and `button` make no difference. */
  lemma ParseIgnoresExtraFields(props: map<string, Value>, k: string, v: Value)
    requires k != "type" && k != "x" && k != "y" && k != "button"
    ensures ParseAction(Parsed(Object(props[k := v]))) == ParseAction(Parsed(Object(props)))
  {
  }

  /** Matching is exact: a capitalised tag, a null button or a fractional coordinate is rejected. */
  lemma ParseExamples()
    ensures ParseAction(Parsed(Object(map["type" := Str("Move"), "x" := Integer(1), "y" := Integer(2)]))).None?
    ensures ParseAction(Parsed(Object(map["type" := Str("click"), "button" := Null]))).None?
    ensures ParseAction(Parsed(Object(map["type" := Str("move"), "x" := NonInteger, "y" := Integer(2)]))).None?
    ensures ParseAction(Parsed(Object(map["type" := Str("move"), "x" := Integer(INT32_MAX + 1), "y" := Integer(2)]))).None?
  {
    assert "Move" != "move" by { assert "Move"[0] != "move"[0]; }
    assert "Move" != "click" by { assert "Move"[0] != "click"[0]; }
  }

  // ---------------------------------------------------------------- events

  datatype Button = Left | Right | Middle

  /** rdev's `EventType`: `x as f64` is exact for every i32, so coordinates stay integers. */
  datatype EventType = MouseMove(x: int, y: int) | ButtonPress(button: Button) | ButtonRelease(button: Button)

  function ButtonName(b: Button): string {
    match b
    case Left => "left"
    case Right => "right"
    case Middle => "middle"
  }

  /** The `match button.as_str()`: exact and case-sensitive. */
  function ButtonOf(name: string): Option<Button> {
    if name == "left" then Some(Left)
    else if name == "right" then Some(Right)
    else if name == "middle" then Some(Middle)
    else None
  }

  /** A name selects a button exactly when it is that button's name. */
  lemma ButtonOfName(name: string, b: Button)
    ensures ButtonOf(name) == Some(b) <==> name == ButtonName(b)
  {
  }

  lemma ButtonOfExamples()
    ensures ButtonOf("Left").None? && ButtonOf("").None? && ButtonOf("back").None?
  {
    assert "Left" != "left" by { assert "Left"[0] != "left"[0]; }
  }

  /** The lines `handle_ws` prints to stderr; rdev's error value is left abstract. */
  datatype ErrorLine = FailedToMove | FailedToPress | FailedToRelease | UnknownButtonLine(name: string)

  /** What one message asks for. */
  datatype Step = Skip | Simulate(events: seq<EventType>) | UnknownButton(name: string)

  /** A warp message as `to_str` sees it: only text frames carry text. */
  datatype Message = Text(doc: Document) | Binary | Ping | Pong | Close

  /** One item of the receive stream: a message, or an error. */
  datatype Incoming = Received(msg: Message) | StreamError

  /** The per-message dispatch of `handle_ws`. */
  function StepOf(m: Message): Step {
    if !m.Text? then Skip
    else match ParseAction(m.doc)
      case None => Skip
      case Some(Move(x, y)) => Simulate([MouseMove(x, y)])
      case Some(Click(name)) =>
        match ButtonOf(name)
        case None => UnknownButton(name)
        case Some(btn) => Simulate([ButtonPress(btn), ButtonRelease(btn)])
  }

  function EventsOf(s: Step): seq<EventType> {
    if s.Simulate? then s.events else []
  }

  function FailureLine(e: EventType): ErrorLine {
    match e
    case MouseMove(_, _) => FailedToMove
    case ButtonPress(_) => FailedToPress
    case ButtonRelease(_) => FailedToRelease
  }

  /** The lines printed for `events`, whose attempts are numbered from `base`; `refused` holds the numbers that fail. */
  function FailureLines(events: seq<EventType>, refused: set<nat>, base: nat): seq<ErrorLine>
    decreases |events|
  {
    if events == [] then []
    else (if base in refused then [FailureLine(events[0])] else []) + FailureLines(events[1..], refused, base + 1)
  }

  function StepErrors(s: Step, refused: set<nat>, base: nat): seq<ErrorLine> {
    match s
    case Skip => []
    case Simulate(events) => FailureLines(events, refused, base)
    case UnknownButton(name) => [UnknownButtonLine(name)]
  }

  /** Every event `handle_ws` asks rdev for, in order, until the stream fails or ends. */
  function SessionAttempts(items: seq<Incoming>): seq<EventType>
    decreases |items|
  {
    if items == [] || items[0].StreamError? then []
    else EventsOf(StepOf(items[0].msg)) + SessionAttempts(items[1..])
  }

  /** Every stderr line `handle_ws` prints, when the attempts are numbered from `base`. */
  function SessionErrors(items: seq<Incoming>, refused: set<nat>, base: nat): seq<ErrorLine>
    decreases |items|
  {
    if items == [] || items[0].StreamError? then []
    else
      var s := StepOf(items[0].msg);
      StepErrors(s, refused, base) + SessionErrors(items[1..], refused, base + |EventsOf(s)|)
  }

  lemma FailureLinesSingle(e: EventType, refused: set<nat>, base: nat)
    ensures FailureLines([e], refused, base) == if base in refused then [FailureLine(e)] else []
  {
    assert [e][1..] == [];
    var head := if base in refused then [FailureLine(e)] else [];
    assert head + [] == head;
  }

  lemma FailureLinesPair(e1: EventType, e2: EventType, refused: set<nat>, base: nat)
    ensures FailureLines([e1, e2], refused, base)
      == (if base in refused then [FailureLine(e1)] else []) + (if base + 1 in refused then [FailureLine(e2)] else [])
  {
    var events := [e1, e2];
    assert events[1..] == [e2] && events[1..][1..] == [];
    var tail := if base + 1 in refused then [FailureLine(e2)] else [];
    assert FailureLines([e2], refused, base + 1) == tail + [];
    assert tail + [] == tail;
  }

  /** A move is one absolute MouseMove to exactly (x, y). */
  lemma MoveIsOneEvent(x: Int32, y: Int32)
    ensures EventsOf(StepOf(Text(EncodeAction(Move(x, y))))) == [MouseMove(x, y)]
  {
  }

  /**
   * A click on a known button asks for the press and then the release of that
   * button, whichever of the two fails: a failed press is printed and the
   * release is still attempted.
   */
  lemma ClickPressesThenReleases(doc: Document, btn: Button, refused: set<nat>, base: nat)
    requires ParseAction(doc) == Some(Click(ButtonName(btn)))
    ensures EventsOf(StepOf(Text(doc))) == [ButtonPress(btn), ButtonRelease(btn)]
    ensures StepErrors(StepOf(Text(doc)), refused, base)
      == (if base in refused then [FailedToPress] else []) + (if base + 1 in refused then [FailedToRelease] else [])
  {
    ButtonOfName(ButtonName(btn), btn);
    FailureLinesPair(ButtonPress(btn), ButtonRelease(btn), refused, base);
  }

  /** An unknown button produces no event and one line, and the next message is still handled. */
  lemma UnknownButtonContinues(doc: Document, rest: seq<Incoming>, refused: set<nat>, base: nat)
    requires ParseAction(doc).Some? && ParseAction(doc).value.Click? && ButtonOf(ParseAction(doc).value.button).None?
    ensures SessionAttempts([Received(Text(doc))] + rest) == SessionAttempts(rest)
    ensures SessionErrors([Received(Text(doc))] + rest, refused, base)
      == [UnknownButtonLine(ParseAction(doc).value.button)] + SessionErrors(rest, refused, base)
  {
    assert ([Received(Text(doc))] + rest)[1..] == rest;
  }

  /** Non-text messages, and text that does not decode, are skipped silently. */
  lemma SkippedMessage(m: Message, rest: seq<Incoming>, refused: set<nat>, base: nat)
    requires !m.Text? || ParseAction(m.doc).None?
    ensures SessionAttempts([Received(m)] + rest) == SessionAttempts(rest)
    ensures SessionErrors([Received(m)] + rest, refused, base) == SessionErrors(rest, refused, base)
  {
    assert ([Received(m)] + rest)[1..] == rest;
  }

  /** Nothing after a stream error is handled. */
  lemma StreamErrorStops(rest: seq<Incoming>, refused: set<nat>, base: nat)
    ensures SessionAttempts([StreamError] + rest) == []
    ensures SessionErrors([StreamError] + rest, refused, base) == []
  {
  }

  lemma {:induction false} FailureLinesCount(events: seq<EventType>, refused: set<nat>, base: nat)
    ensures |FailureLines(events, refused, base)| <= |events|
    ensures (forall k :: base <= k < base + |events| ==> k !in refused) ==> FailureLines(events, refused, base) == []
    decreases |events|
  {
    if events != [] {
      FailureLinesCount(events[1..], refused, base + 1);
    }
  }

  /** When rdev never fails, the only lines printed name unknown buttons. */
  lemma {:induction false} ReliableHostPrintsOnlyUnknownButtons(items: seq<Incoming>, base: nat)
    ensures forall i :: 0 <= i < |SessionErrors(items, {}, base)| ==> SessionErrors(items, {}, base)[i].UnknownButtonLine?
    decreases |items|
  {
    if items != [] && items[0].Received? {
      var s := StepOf(items[0].msg);
      if s.Simulate? {
        FailureLinesCount(s.events, {}, base);
      }
      ReliableHostPrintsOnlyUnknownButtons(items[1..], base + |EventsOf(s)|);
    }
  }

  // ---------------------------------------------------------------- session

  /** rdev and the process's stderr; `refused` numbers the `simulate` calls that return an error. */
  class Host {
    const refused: set<nat>
    var attempts: seq<EventType>
    var stderr: seq<ErrorLine>

    constructor (refused: set<nat>)
      ensures this.refused == refused && attempts == [] && stderr == []
    {
      this.refused := refused;
      attempts := [];
      stderr := [];
    }

    /** `simulate(&event)`: the attempt is made whether or not it fails. */
    method SimulateEvent(e: EventType) returns (ok: bool)
      modifies this`attempts
      ensures attempts == old(attempts) + [e]
      ensures ok <==> |old(attempts)| !in refused
    {
      ok := |attempts| !in refused;
      attempts := attempts + [e];
    }

    /** `eprintln!`. */
    method PrintError(line: ErrorLine)
      modifies this`stderr
      ensures stderr == old(stderr) + [line]
    {
      stderr := stderr + [line];
    }
  }

  /**
   * The body of `handle_ws`'s loop for one message; the early return is the
   * `continue` after an unknown button.
   */
  method HandleMessage(host: Host, msg: Message)
    modifies host
    ensures host.attempts == old(host.attempts) + EventsOf(StepOf(msg))
    ensures host.stderr == old(host.stderr) + StepErrors(StepOf(msg), host.refused, |old(host.attempts)|)
  {
    if !msg.Text? {
      return;
    }
    var action := ParseAction(msg.doc);
    if action.None? {
      return;
    }
    match action.value {
      case Move(x, y) =>
        FailureLinesSingle(MouseMove(x, y), host.refused, |host.attempts|);
        var ok := host.SimulateEvent(MouseMove(x, y));
        if !ok {
          host.PrintError(FailedToMove);
        }
      case Click(button) =>
        var btn := ButtonOf(button);
        if btn.None? {
          host.PrintError(UnknownButtonLine(button));
          return;
        }
        var base := |host.attempts|;
        var ok := host.SimulateEvent(ButtonPress(btn.value));
        if !ok {
          host.PrintError(FailedToPress);
        }
        ok := host.SimulateEvent(ButtonRelease(btn.value));
        if !ok {
          host.PrintError(FailedToRelease);
        }
        FailureLinesPair(ButtonPress(btn.value), ButtonRelease(btn.value), host.refused, base);
    }
  }

  /** Handling one more message extends the attempts so far by that message's events. */
  lemma SessionStepAttempts(done: seq<EventType>, items: seq<Incoming>, i: nat)
    requires i < |items| && items[i].Received?
    ensures done + EventsOf(StepOf(items[i].msg)) + SessionAttempts(items[i + 1..]) == done + SessionAttempts(items[i..])
  {
    var rest := items[i..];
    assert rest[0] == items[i] && rest[1..] == items[i + 1..];
    var events := EventsOf(StepOf(items[i].msg));
    var later := SessionAttempts(items[i + 1..]);
    assert SessionAttempts(rest) == events + later;
    assert done + events + later == done + (events + later);
  }

  /** Handling one more message extends the lines so far by that message's lines. */
  lemma SessionStepErrors(printed: seq<ErrorLine>, items: seq<Incoming>, i: nat, refused: set<nat>, base: nat)
    requires i < |items| && items[i].Received?
    ensures printed + StepErrors(StepOf(items[i].msg), refused, base)
        + SessionErrors(items[i + 1..], refused, base + |EventsOf(StepOf(items[i].msg))|)
      == printed + SessionErrors(items[i..], refused, base)
  {
    var rest := items[i..];
    assert rest[0] == items[i] && rest[1..] == items[i + 1..];
    var step := StepOf(items[i].msg);
    var lines := StepErrors(step, refused, base);
    var laterLines := SessionErrors(items[i + 1..], refused, base + |EventsOf(step)|);
    assert SessionErrors(rest, refused, base) == lines + laterLines;
    assert printed + lines + laterLines == printed + (lines + laterLines);
  }

  /** Nothing is left to handle at the end of the stream or at a stream error. */
  lemma SessionEnd(items: seq<Incoming>, i: nat, refused: set<nat>, base: nat)
    requires i <= |items| && (i == |items| || items[i].StreamError?)
    ensures SessionAttempts(items[i..]) == [] && SessionErrors(items[i..], refused, base) == []
  {
  }

  /** One turn of `handle_ws`'s loop, stated against the rest of the stream. */
  method HandleItem(host: Host, items: seq<Incoming>, i: nat)
    requires i < |items| && items[i].Received?
    modifies host
    ensures host.attempts + SessionAttempts(items[i + 1..]) == old(host.attempts) + SessionAttempts(items[i..])
    ensures host.stderr + SessionErrors(items[i + 1..], host.refused, |host.attempts|)
      == old(host.stderr) + SessionErrors(items[i..], host.refused, |old(host.attempts)|)
  {
    SessionStepAttempts(host.attempts, items, i);
    SessionStepErrors(host.stderr, items, i, host.refused, |host.attempts|);
    HandleMessage(host, items[i].msg);
  }

  /** `handle_ws`: handles each message in turn until the stream fails or ends. */
  method HandleWs(host: Host, items: seq<Incoming>)
    modifies host
    ensures host.attempts == old(host.attempts) + SessionAttempts(items)
    ensures host.stderr == old(host.stderr) + SessionErrors(items, host.refused, |old(host.attempts)|)
  {
    ghost var allAttempts := host.attempts + SessionAttempts(items);
    ghost var allErrors := host.stderr + SessionErrors(items, host.refused, |host.attempts|);
    var i := 0;
    while i < |items| && items[i].Received?
      invariant 0 <= i <= |items|
      invariant host.attempts + SessionAttempts(items[i..]) == allAttempts
      invariant host.stderr + SessionErrors(items[i..], host.refused, |host.attempts|) == allErrors
    {
      HandleItem(host, items, i);
      i := i + 1;
    }
    SessionEnd(items, i, host.refused, |host.attempts|);
    assert host.attempts + [] == host.attempts && host.stderr + [] == host.stderr;
  }

  // ---------------------------------------------------------------- access filter

  datatype IpAddr = V4(a: bv8, b: bv8, c: bv8, d: bv8) | V6(segments: seq<bv16>)

  datatype SocketAddr = SocketAddr(ip: IpAddr, port: bv16)

  /** `Ipv4Addr::is_private` on the octets; no IPv6 address counts as private. */
  predicate IsPrivate(ip: IpAddr) {
    ip.V4? && (ip.a == 10 || (ip.a == 172 && 16 <= ip.b <= 31) || (ip.a == 192 && ip.b == 168))
  }

  /** The address as one 32-bit number, most significant octet first. */
  function Bits(a: bv8, b: bv8, c: bv8, d: bv8): bv32 {
    (a as bv32 << 24) | (b as bv32 << 16) | (c as bv32 << 8) | d as bv32
  }

  /** Membership of a CIDR block `network/len`. */
  predicate InBlock(addr: bv32, network: bv32, len: nat)
    requires len <= 32
  {
    addr & !((0xFFFF_FFFF as bv32) >> len) == network
  }

  /** The three private blocks of RFC 1918, section 3. */
  predicate InPrivateBlock(addr: bv32) {
    InBlock(addr, 0x0A00_0000, 8) || InBlock(addr, 0xAC10_0000, 12) || InBlock(addr, 0xC0A8_0000, 16)
  }

  /** The octet test agrees with the RFC 1918 blocks written as masks. */
  lemma IsPrivateIsRfc1918(a: bv8, b: bv8, c: bv8, d: bv8)
    ensures IsPrivate(V4(a, b, c, d)) <==> InPrivateBlock(Bits(a, b, c, d))
  {
  }

  datatype Admission = Admitted | Forbidden

  /** The filter in front of every route: no remote address, or a non-private one, is `Forbidden`. */
  function Admit(remote: Option<SocketAddr>): Admission {
    match remote
    case None => Forbidden
    case Some(addr) => if IsPrivate(addr.ip) then Admitted else Forbidden
  }

  /** A request is admitted exactly when it comes from an IPv4 address in one of the private blocks. */
  lemma AdmitIff(remote: Option<SocketAddr>)
    ensures Admit(remote) == Admitted <==>
      remote.Some? && remote.value.ip.V4?
      && InPrivateBlock(Bits(remote.value.ip.a, remote.value.ip.b, remote.value.ip.c, remote.value.ip.d))
  {
    if remote.Some? && remote.value.ip.V4? {
      var ip := remote.value.ip;
      IsPrivateIsRfc1918(ip.a, ip.b, ip.c, ip.d);
    }
  }

  /** The edges of the blocks, and loopback, which is not private and is refused. */
  lemma AdmitExamples(port: bv16)
    ensures Admit(Some(SocketAddr(V4(192, 168, 1, 20), port))) == Admitted
    ensures Admit(Some(SocketAddr(V4(172, 31, 255, 255), port))) == Admitted
    ensures Admit(Some(SocketAddr(V4(172, 32, 0, 1), port))) == Forbidden
    ensures Admit(Some(SocketAddr(V4(127, 0, 0, 1), port))) == Forbidden
    ensures Admit(Some(SocketAddr(V4(8, 8, 8, 8), port))) == Forbidden
    ensures Admit(None) == Forbidden
  {
  }

  // ---------------------------------------------------------------- the two servers

  /**
   * On every message the Rust server accepts, the C# server decodes the same
   * command; the C# server also accepts a null button, as "left".
   */
  lemma ServersAgree(doc: Document)
    ensures ParseAction(doc).Some? && ParseAction(doc).value.Move? ==>
      Server.DecodeMouseCommand(doc) == Server.MoveCommand(ParseAction(doc).value.x, ParseAction(doc).value.y)
    ensures ParseAction(doc).Some? && ParseAction(doc).value.Click? ==>
      Server.DecodeMouseCommand(doc) == Server.ClickCommand(ParseAction(doc).value.button)
    ensures doc == Parsed(Object(map["type" := Str("click"), "button" := Null])) ==>
      ParseAction(doc).None? && Server.DecodeMouseCommand(doc) == Server.ClickCommand("left")
  {
  }

  /** A coordinate written -0 is skipped by the Rust server but read as 0 by the C# one. */
  lemma MinusZeroDisagrees(y: Int32)
    ensures ParseAction(Parsed(Object(map["type" := Str("move"), "x" := NegativeZero, "y" := Integer(y)]))).None?
    ensures Server.DecodeMouseCommand(Parsed(Object(map["type" := Str("move"), "x" := NegativeZero, "y" := Integer(y)])))
      == Server.MoveCommand(0, y)
  {
  }
}
