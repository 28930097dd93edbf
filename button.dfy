/** The menu button of `button.go`: an inclusive rectangle hit test, and a
    life loop that presses on mouse-down inside, fires the action on
    mouse-up inside while pressed, and cancels when the mouse moves out
    while pressed. The frame index (0 or 1) is the pressed state, and the
    label is pushed down by 8 pixels while pressed.

    The button embeds a sprite in the source; its fields that the button
    reads (visibility, position, frame, the template's frame size) are
    fields of the class here. The action itself is a callback the model
    cannot see: a turn of the loop reports whether it was invoked, and its
    error, which is only logged, changes nothing. */
module ButtonActor {
  import opened Geometry
  import opened Wrappers
  import opened Notify

  const PressOffset := 8

  /** What the hit test reads: visibility, position and frame size. */
  datatype Face = Face(invisible: bool, x: int, y: int, w: int, h: int)

  /** What the life loop changes: the frame and the label's y offset. */
  datatype Press = Press(frame: int, textY: int)

  /** `hitTest`: a visible button is hit by every point of its frame,
      both edges included. */
  predicate Hit(f: Face, px: int, py: int)
    ensures Hit(f, px, py) ==> !f.invisible && f.w >= 0 && f.h >= 0
  {
    !f.invisible && f.x <= px <= f.x + f.w && f.y <= py <= f.y + f.h
  }

  /** The four corners are inside, one pixel beyond any edge is outside, and
      an invisible button is never hit. */
  lemma HitEdges(f: Face, px: int, py: int)
    requires f.w >= 0 && f.h >= 0
    ensures !f.invisible ==> Hit(f, f.x, f.y) && Hit(f, f.x + f.w, f.y + f.h) &&
                             Hit(f, f.x, f.y + f.h) && Hit(f, f.x + f.w, f.y)
    ensures !Hit(f, f.x - 1, py) && !Hit(f, f.x + f.w + 1, py)
    ensures !Hit(f, px, f.y - 1) && !Hit(f, px, f.y + f.h + 1)
    ensures f.invisible ==> !Hit(f, px, py)
  {
  }

  /** The result of one turn of the loop. */
  datatype Reaction = Reaction(press: Press, invoked: bool)

  /** One message other than "quit". */
  function Step(f: Face, p: Press, msg: Message): (r: Reaction)
    ensures r.invoked ==> msg.v.MouseUp? && p.frame == 1 && r.press == Press(0, p.textY - PressOffset)
    ensures r.press == p ||
            r.press == Press(1, p.textY + PressOffset) ||
            (p.frame == 1 && r.press == Press(0, p.textY - PressOffset))
    ensures r.press != p && r.press.frame == 1 ==> msg.v.MouseDown? && Hit(f, msg.v.x, msg.v.y)
    ensures !(msg.v.MouseDown? || msg.v.MouseUp? || msg.v.MouseMotion?) ==> r == Reaction(p, false)
  {
    match msg.v
    case MouseDown(mx, my) =>
      if Hit(f, mx, my) then Reaction(Press(1, p.textY + PressOffset), false)
      else Reaction(p, false)
    case MouseUp(mx, my) =>
      if Hit(f, mx, my) && p.frame == 1 then Reaction(Press(0, p.textY - PressOffset), true)
      else Reaction(p, false)
    case MouseMotion(mx, my) =>
      if !Hit(f, mx, my) && p.frame == 1 then Reaction(Press(0, p.textY - PressOffset), false)
      else Reaction(p, false)
    case _ => Reaction(p, false)
  }

  /** The state after the messages in order, and how many times the action
      ran; a "quit" message ends the loop before its payload is looked at. */
  datatype Outcome = Outcome(press: Press, invocations: nat)

  function Run(f: Face, p: Press, msgs: seq<Message>): Outcome
    decreases |msgs|
  {
    if msgs == [] || msgs[0].k == "quit" then Outcome(p, 0)
    else
      var r := Step(f, p, msgs[0]);
      var rest := Run(f, r.press, msgs[1..]);
      Outcome(rest.press, rest.invocations + (if r.invoked then 1 else 0))
  }

  /** How many mouse-up events a message list holds. */
  function Releases(msgs: seq<Message>): nat
  {
    if msgs == [] then 0 else (if msgs[0].v.MouseUp? then 1 else 0) + Releases(msgs[1..])
  }

  // ---------------------------------------------------------------------
  // Properties
  // ---------------------------------------------------------------------

  /** Pressing inside and releasing inside runs the action once and puts
      the frame and the label back where they were. */
  lemma ClickInvokesOnce(f: Face, p: Press, x1: int, y1: int, x2: int, y2: int)
    requires p.frame == 0 && Hit(f, x1, y1) && Hit(f, x2, y2)
    ensures Run(f, p, [Message("input.event", MouseDown(x1, y1)),
                       Message("input.event", MouseUp(x2, y2))]) == Outcome(p, 1)
  {
    var down, up := Message("input.event", MouseDown(x1, y1)), Message("input.event", MouseUp(x2, y2));
    var pressed := Step(f, p, down).press;
    assert [down, up][1..] == [up];
    assert Run(f, pressed, [up]) == Outcome(p, 1) by {
      assert [up][1..] == [];
    }
  }

  /** Pressing inside, dragging out and releasing anywhere never runs the
      action, and leaves the button unpressed. */
  lemma DragAwayCancels(f: Face, p: Press, x1: int, y1: int, x2: int, y2: int, x3: int, y3: int)
    requires Hit(f, x1, y1) && !Hit(f, x2, y2)
    ensures var o := Run(f, p, [Message("input.event", MouseDown(x1, y1)),
                                Message("input.event", MouseMotion(x2, y2)),
                                Message("input.event", MouseUp(x3, y3))]);
            o.invocations == 0 && o.press == Press(0, p.textY)
  {
    var down, move, up := Message("input.event", MouseDown(x1, y1)),
                          Message("input.event", MouseMotion(x2, y2)),
                          Message("input.event", MouseUp(x3, y3));
    var cancelled := Press(0, p.textY);
    assert [down, move, up][1..] == [move, up];
    assert [move, up][1..] == [up];
    assert [up][1..] == [];
    assert Run(f, cancelled, [up]) == Outcome(cancelled, 0);
    assert Run(f, Step(f, p, down).press, [move, up]) == Outcome(cancelled, 0);
  }

  /** Mouse-down outside, and mouse-up without a press, change nothing. */
  lemma StrayEventsIgnored(f: Face, p: Press, mx: int, my: int, k: string)
    ensures !Hit(f, mx, my) ==> Step(f, p, Message(k, MouseDown(mx, my))) == Reaction(p, false)
    ensures !Hit(f, mx, my) || p.frame == 0 ==> Step(f, p, Message(k, MouseUp(mx, my))) == Reaction(p, false)
    ensures Hit(f, mx, my) ==> Step(f, p, Message(k, MouseMotion(mx, my))) == Reaction(p, false)
  {
  }

  /** A second press before a release pushes the label down again, and the
      release lifts it only once: the label ends 8 pixels lower. */
  lemma DoublePressShiftsLabel(f: Face, p: Press, mx: int, my: int)
    requires p.frame == 0 && Hit(f, mx, my)
    ensures Run(f, p, [Message("input.event", MouseDown(mx, my)),
                       Message("input.event", MouseDown(mx, my)),
                       Message("input.event", MouseUp(mx, my))])
            == Outcome(Press(0, p.textY + PressOffset), 1)
  {
    var down, up := Message("input.event", MouseDown(mx, my)), Message("input.event", MouseUp(mx, my));
    var once, twice := Press(1, p.textY + PressOffset), Press(1, p.textY + 2 * PressOffset);
    assert [down, down, up][1..] == [down, up];
    assert [down, up][1..] == [up];
    assert [up][1..] == [];
    assert Run(f, twice, [up]) == Outcome(Press(0, p.textY + PressOffset), 1);
    assert Run(f, once, [down, up]) == Outcome(Press(0, p.textY + PressOffset), 1);
  }

  /** The action never runs more often than there are mouse-up events. */
  lemma {:induction false} InvocationsNeedReleases(f: Face, p: Press, msgs: seq<Message>)
    ensures Run(f, p, msgs).invocations <= Releases(msgs)
    decreases |msgs|
  {
    if msgs != [] && msgs[0].k != "quit" {
      InvocationsNeedReleases(f, Step(f, p, msgs[0]).press, msgs[1..]);
    }
  }

  /** A "quit" message ends the loop whatever it carries. */
  lemma QuitEndsLoop(f: Face, p: Press, v: Payload, rest: seq<Message>)
    ensures Run(f, p, [Message("quit", v)] + rest) == Outcome(p, 0)
  {
  }

  /** `(frame - text) / 2`, the label's offset that centres it in the frame. */
  function Centre(frameSize: int, textSize: int): (c: int)
    ensures frameSize >= textSize ==> 0 <= c && c + textSize <= frameSize
    ensures var far := frameSize - textSize - c; c <= far <= c + 1 || far <= c <= far + 1
    ensures frameSize >= textSize ==> c <= frameSize - textSize - c <= c + 1
  {
    Quo(frameSize - textSize, 2)
  }

  /** What `draw` produces for a button: the sprite frame to show, and the
      label's rectangle on the screen. */
  datatype Drawing = Drawing(frame: int, caption: Rect)

  class Button {
    var invisible: bool
    var x: int
    var y: int
    var frame: int
    var frameWidth: int
    var frameHeight: int
    var textX: int
    var textY: int
    var textW: int
    var textH: int
    var inbox: MailboxId

    /** `newButton`: the label, of the size the font gave it, is centred in
        the frame of the template the button is made from, and the inbox is
        registered for "quit" and "input.event". */
    constructor (bus: Bus, frameWidth: int, frameHeight: int, textW: int, textH: int)
      requires bus.Valid()
      modifies bus
      ensures frame == 0 && !invisible && x == 0 && y == 0
      ensures this.frameWidth == frameWidth && this.frameHeight == frameHeight
      ensures textX == Centre(frameWidth, textW) && textY == Centre(frameHeight, textH)
      ensures this.textW == textW && this.textH == textH
      ensures bus.Valid() && inbox == |old(bus.boxes)| && bus.boxes == old(bus.boxes) + [[]]
      ensures bus.notes == Register(Register(old(bus.notes), "quit", inbox), "input.event", inbox)
    {
      var id := bus.NewMailbox();
      bus.Kmp("quit", id);
      bus.Kmp("input.event", id);
      invisible, x, y, frame := false, 0, 0, 0;
      this.frameWidth, this.frameHeight := frameWidth, frameHeight;
      this.textW, this.textH := textW, textH;
      textX := Quo(frameWidth - textW, 2);
      textY := Quo(frameHeight - textH, 2);
      inbox := id;
    }

    /** What the hit test reads. */
    function Shape(): Face
      reads this
    {
      Face(invisible, x, y, frameWidth, frameHeight)
    }

    /** `hitTest(x, y)`. */
    predicate HitTest(px: int, py: int)
      reads this
      ensures HitTest(px, py) <==>
                !invisible && x <= px <= x + frameWidth && y <= py <= y + frameHeight
    {
      Hit(Shape(), px, py)
    }

    /** One turn of the life loop. */
    method Handle(msg: Message) returns (stop: bool, invoked: bool)
      modifies this
      ensures stop <==> msg.k == "quit"
      ensures stop ==> !invoked && frame == old(frame) && textY == old(textY)
      ensures !stop ==> Reaction(Press(frame, textY), invoked) ==
                          Step(old(Shape()), Press(old(frame), old(textY)), msg)
      ensures Shape() == old(Shape()) && inbox == old(inbox)
      ensures textX == old(textX) && textW == old(textW) && textH == old(textH)
    {
      if msg.k == "quit" {
        return true, false;
      }
      stop, invoked := false, false;
      match msg.v {
        case MouseDown(mx, my) =>
          if HitTest(mx, my) {
            frame := 1;
            textY := textY + PressOffset;
          }
        case MouseUp(mx, my) =>
          if HitTest(mx, my) {
            if frame == 1 {
              invoked := true;
              frame := 0;
              textY := textY - PressOffset;
            }
          }
        case MouseMotion(mx, my) =>
          if !HitTest(mx, my) {
            if frame == 1 {
              textY := textY - PressOffset;
              frame := 0;
            }
          }
        case _ =>
      }
    }
  }

  /** `draw`: a missing or invisible button draws nothing and cannot fail;
      otherwise the current frame is drawn and the label inside it, offset
      by the button's position. */
  function Draw(b: Button?): (r: Option<Drawing>)
    reads b
    ensures r == None <==> b == null || b.invisible
    ensures r.Some? ==> r.value.frame == b.frame &&
                        r.value.caption == Rect(b.x + b.textX, b.y + b.textY, b.textW, b.textH)
  {
    if b == null || b.invisible then None
    else Some(Drawing(b.frame, Rect(b.x + b.textX, b.y + b.textY, b.textW, b.textH)))
  }

  /** A button whose label fits its frame and was centred by the
      constructor draws the label inside the frame while unpressed; a
      press draws it 8 pixels lower. */
  lemma CentredCaptionInFrame(b: Button, pressed: bool)
    requires !b.invisible && 0 <= b.textW <= b.frameWidth && 0 <= b.textH <= b.frameHeight
    requires b.textX == Centre(b.frameWidth, b.textW)
    requires b.textY == Centre(b.frameHeight, b.textH) + (if pressed then PressOffset else 0)
    ensures Draw(b).Some?
    ensures var c := Draw(b).value.caption;
            b.x <= c.X && c.X + c.W <= b.x + b.frameWidth &&
            c.Y == b.y + Centre(b.frameHeight, b.textH) + (if pressed then PressOffset else 0) &&
            (!pressed ==> b.y <= c.Y && c.Y + c.H <= b.y + b.frameHeight)
  {
  }
}
