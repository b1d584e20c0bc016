/**
 * MouseController: absolute and relative cursor moves through
 * `GetCursorPos`/`SetCursorPos`, and button clicks through `mouse_event`
 * down/up flag pairs. The host is a cursor position, whether reading it
 * succeeds, and the log of calls the controller made into it.
 */
module MouseControl {
  import opened Common

  const MOUSEEVENTF_LEFTDOWN: bv32 := 0x0002
  const MOUSEEVENTF_LEFTUP: bv32 := 0x0004
  const MOUSEEVENTF_RIGHTDOWN: bv32 := 0x0008
  const MOUSEEVENTF_RIGHTUP: bv32 := 0x0010
  const MOUSEEVENTF_MIDDLEDOWN: bv32 := 0x0020
  const MOUSEEVENTF_MIDDLEUP: bv32 := 0x0040

  datatype Point = Point(x: Int32, y: Int32)

  /** One call into the host: `SetCursorPos(x, y)` or `mouse_event(flags, 0, 0, 0, 0)`. */
  datatype MouseEvent = CursorSet(pos: Point) | ButtonEvent(flags: bv32)

  /** What the controller can observe of the host, and what it has done to it. */
  datatype MouseState = MouseState(cursor: Point, cursorReadable: bool, events: seq<MouseEvent>)

  predicate IsDownFlag(f: bv32) {
    f == MOUSEEVENTF_LEFTDOWN || f == MOUSEEVENTF_RIGHTDOWN || f == MOUSEEVENTF_MIDDLEDOWN
  }

  predicate IsUpFlag(f: bv32) {
    f == MOUSEEVENTF_LEFTUP || f == MOUSEEVENTF_RIGHTUP || f == MOUSEEVENTF_MIDDLEUP
  }

  predicate IsButtonName(name: string) {
    name == "left" || name == "right" || name == "middle"
  }

  /** The `switch (button.ToLower())` of `Click`: the down and up flag a lower-cased name selects. */
  function ButtonFlags(name: string): Option<(bv32, bv32)> {
    if name == "left" then Some((MOUSEEVENTF_LEFTDOWN, MOUSEEVENTF_LEFTUP))
    else if name == "right" then Some((MOUSEEVENTF_RIGHTDOWN, MOUSEEVENTF_RIGHTUP))
    else if name == "middle" then Some((MOUSEEVENTF_MIDDLEDOWN, MOUSEEVENTF_MIDDLEUP))
    else None
  }

  /** The events one `Click(button)` emits. */
  function ClickEvents(button: string): seq<MouseEvent> {
    match ButtonFlags(ToLower(button))
    case Some((down, up)) => [ButtonEvent(down), ButtonEvent(up)]
    case None => []
  }

  /** `current + delta` per coordinate, in unchecked 32-bit C# arithmetic. */
  function Offset(p: Point, dx: Int32, dy: Int32): Point {
    Point(Wrap32(p.x + dx), Wrap32(p.y + dy))
  }

  /** Two's-complement negation, so that `Offset` can be undone. */
  function Negate32(d: Int32): Int32 {
    Wrap32(-(d as int))
  }

  // The host transitions the controller's methods are proved against.

  function CursorSetOn(s: MouseState, p: Point): MouseState {
    s.(cursor := p, events := s.events + [CursorSet(p)])
  }

  function MoveRelativeOn(s: MouseState, dx: Int32, dy: Int32): MouseState {
    if s.cursorReadable then CursorSetOn(s, Offset(s.cursor, dx, dy)) else s
  }

  function ClickOn(s: MouseState, button: string): MouseState {
    s.(events := s.events + ClickEvents(button))
  }

  /**
   * A click on a known button emits exactly two events, a DOWN flag and then
   * the UP flag of the same button; any other name emits nothing.
   */
  lemma ClickEventsShape(button: string)
    ensures IsButtonName(ToLower(button)) ==> |ClickEvents(button)| == 2
    ensures !IsButtonName(ToLower(button)) ==> ClickEvents(button) == []
    ensures |ClickEvents(button)| == 2 ==>
      && ClickEvents(button)[0].ButtonEvent? && IsDownFlag(ClickEvents(button)[0].flags)
      && ClickEvents(button)[1].ButtonEvent? && IsUpFlag(ClickEvents(button)[1].flags)
      && ClickEvents(button)[1].flags == ClickEvents(button)[0].flags << 1
    ensures forall e :: e in ClickEvents(button) ==> e.ButtonEvent?
  {
  }

  /** Button names are matched case-insensitively: `Click("LEFT")` is `Click("left")`. */
  lemma {:induction false} ClickCaseInsensitive(b1: string, b2: string)
    requires ToLower(b1) == ToLower(b2)
    ensures ClickEvents(b1) == ClickEvents(b2)
    ensures ClickEvents(b1) == ClickEvents(ToLower(b1))
  {
    ToLowerIdempotent(b1);
  }

  /** The concrete pair of each button. */
  lemma ClickOfEachButton()
    ensures ClickEvents("Left") == [ButtonEvent(0x2), ButtonEvent(0x4)]
    ensures ClickEvents("right") == [ButtonEvent(0x8), ButtonEvent(0x10)]
    ensures ClickEvents("MIDDLE") == [ButtonEvent(0x20), ButtonEvent(0x40)]
    ensures ClickEvents("back") == []
  {
    assert ToLower("Left") == "left";
    assert ToLower("right") == "right";
    assert ToLower("MIDDLE") == "middle";
    assert ToLower("back") == "back";
  }

  /** The three flag pairs share no flag, and within a pair up differs from down. */
  lemma FlagPairsDisjoint(n1: string, n2: string)
    requires ButtonFlags(n1).Some? && ButtonFlags(n2).Some?
    ensures ButtonFlags(n1).value.0 != ButtonFlags(n1).value.1
    ensures n1 != n2 ==>
      {ButtonFlags(n1).value.0, ButtonFlags(n1).value.1} !! {ButtonFlags(n2).value.0, ButtonFlags(n2).value.1}
  {
  }

  /** Without overflow, a relative move lands exactly on current + delta, with one cursor write. */
  lemma MoveRelativeExact(s: MouseState, dx: Int32, dy: Int32)
    requires s.cursorReadable
    requires InInt32(s.cursor.x + dx) && InInt32(s.cursor.y + dy)
    ensures MoveRelativeOn(s, dx, dy).cursor == Point(s.cursor.x + dx, s.cursor.y + dy)
    ensures MoveRelativeOn(s, dx, dy).events == s.events + [CursorSet(Point(s.cursor.x + dx, s.cursor.y + dy))]
  {
  }

  /** A relative move whose cursor read fails writes nothing and leaves the host as it was. */
  lemma MoveRelativeUnreadable(s: MouseState, dx: Int32, dy: Int32)
    requires !s.cursorReadable
    ensures MoveRelativeOn(s, dx, dy) == s
  {
  }

  /** The opposite relative move restores the cursor, wrap-around included. */
  lemma {:induction false} MoveRelativeUndo(s: MouseState, dx: Int32, dy: Int32)
    requires s.cursorReadable
    ensures MoveRelativeOn(MoveRelativeOn(s, dx, dy), Negate32(dx), Negate32(dy)).cursor == s.cursor
    ensures |MoveRelativeOn(MoveRelativeOn(s, dx, dy), Negate32(dx), Negate32(dy)).events| == |s.events| + 2
  {
    OffsetUndo(s.cursor, dx, dy);
  }

  lemma OffsetUndo(p: Point, dx: Int32, dy: Int32)
    ensures Offset(Offset(p, dx, dy), Negate32(dx), Negate32(dy)) == p
  {
    WrapUndo(p.x, dx);
    WrapUndo(p.y, dy);
  }

  lemma WrapUndo(a: Int32, d: Int32)
    ensures Wrap32(Wrap32(a + d) + Negate32(d)) == a
  {
    var w: int := Wrap32(a + d);
    var n: int := Negate32(d);
    var di: int := d;
    var k1 := (w - (a + di)) / 0x1_0000_0000;
    var k2 := (n + di) / 0x1_0000_0000;
    assert w == a + di + k1 * 0x1_0000_0000;
    assert n == -di + k2 * 0x1_0000_0000;
    assert w + n - a == (k1 + k2) * 0x1_0000_0000;
    WrapCongruent(w + n, a);
  }

  class MouseController {
    var cursor: Point
    var cursorReadable: bool
    var events: seq<MouseEvent>

    function State(): MouseState
      reads this
    {
      MouseState(cursor, cursorReadable, events)
    }

    constructor (cursor: Point, cursorReadable: bool)
      ensures State() == MouseState(cursor, cursorReadable, [])
    {
      this.cursor := cursor;
      this.cursorReadable := cursorReadable;
      this.events := [];
    }

    /** The host's `GetCursorPos`: reports the position when the read succeeds. */
    method GetCursorPos() returns (ok: bool, p: Point)
      ensures ok == cursorReadable
      ensures ok ==> p == cursor
    {
      ok, p := cursorReadable, cursor;
    }

    /** The host's `SetCursorPos`. */
    method SetCursorPos(x: Int32, y: Int32)
      modifies this
      ensures State() == CursorSetOn(old(State()), Point(x, y))
    {
      cursor := Point(x, y);
      events := events + [CursorSet(cursor)];
    }

    /** The host's `mouse_event(flags, 0, 0, 0, 0)`. */
    method MouseEventCall(flags: bv32)
      modifies this
      ensures State() == old(State()).(events := old(events) + [ButtonEvent(flags)])
    {
      events := events + [ButtonEvent(flags)];
    }

    /** `Move(x, y)`: sets the absolute cursor position to exactly (x, y). */
    method Move(x: Int32, y: Int32)
      modifies this
      ensures cursor == Point(x, y)
      ensures State() == CursorSetOn(old(State()), Point(x, y))
    {
      SetCursorPos(x, y);
    }

    /** `MoveRelative(dx, dy)`: reads the cursor and, if that works, writes it back displaced. */
    method MoveRelative(dx: Int32, dy: Int32)
      modifies this
      ensures State() == MoveRelativeOn(old(State()), dx, dy)
    {
      var ok, current := GetCursorPos();
      if ok {
        SetCursorPos(Wrap32(current.x + dx), Wrap32(current.y + dy));
      }
    }

    /** `Click(button)`: picks the flag pair in a switch, then emits down and up. */
    method Click(button: string)
      modifies this
      ensures State() == ClickOn(old(State()), button)
    {
      var downFlag: bv32 := 0;
      var upFlag: bv32 := 0;
      var name := ToLower(button);
      if name == "left" {
        downFlag, upFlag := MOUSEEVENTF_LEFTDOWN, MOUSEEVENTF_LEFTUP;
      } else if name == "right" {
        downFlag, upFlag := MOUSEEVENTF_RIGHTDOWN, MOUSEEVENTF_RIGHTUP;
      } else if name == "middle" {
        downFlag, upFlag := MOUSEEVENTF_MIDDLEDOWN, MOUSEEVENTF_MIDDLEUP;
      } else {
        return;
      }
      MouseEventCall(downFlag);
      MouseEventCall(upFlag);
    }
  }
}
