/** The door actor of `exit.go`: the player's location opens the door when
    it is strictly within 200 units of the door on both axes and closes it
    otherwise; a periodic tick eases the animation frame one step toward 3
    (open) or 0 (closed); a control value overrides the state, and the quit
    value ends the loop. */
module ExitActor {
  import opened Geometry
  import opened Notify

  datatype DoorState = Closed | Open | Quit

  const Reach := 200
  const MaxFrame := 3
  const FrameWidth := 64
  const FrameHeight := 64

  /** The door's own state. */
  datatype Door = Door(state: DoorState, x: int, y: int, frame: int)

  /** The player at (mx, my) is near the door: strictly less than Reach away
      on each axis. */
  predicate Near(d: Door, mx: int, my: int)
    ensures Near(d, mx, my) <==> d.x - 200 < mx < d.x + 200 && d.y - 200 < my < d.y + 200
  {
    Abs(mx - d.x) < Reach && Abs(my - d.y) < Reach
  }

  /** A location update: open a closed door if the player is near, then close
      an open door if the player is not. Position and frame are untouched. */
  function OnLocation(d: Door, mx: int, my: int): (r: Door)
    ensures r.x == d.x && r.y == d.y && r.frame == d.frame
    ensures d.state != Quit ==> (r.state == Open <==> Near(d, mx, my))
    ensures d.state != Quit ==> r.state != Quit
    ensures d.state == Quit ==> r == d
  {
    var afterOpen :=
      if d.state == Closed && mx > d.x - 200 && mx < d.x + 200 && my > d.y - 200 && my < d.y + 200
      then Open else d.state;
    var afterClose :=
      if afterOpen == Open && (mx <= d.x - 200 || mx >= d.x + 200 || my <= d.y - 200 || my >= d.y + 200)
      then Closed else afterOpen;
    assert d.state == Closed && !Near(d, mx, my) ==> afterOpen == Closed;
    d.(state := afterClose)
  }

  /** A message from the inbox: only a location published on
      "player.location" is acted on. */
  function OnMessage(d: Door, msg: Message): (r: Door)
    ensures r.x == d.x && r.y == d.y && r.frame == d.frame
    ensures d.state != Quit && msg.k == "player.location" && msg.v.Location? ==>
              (r.state == Open <==> Near(d, msg.v.x, msg.v.y))
    ensures msg.k != "player.location" || !msg.v.Location? ==> r == d
  {
    if msg.v.Location? && msg.k == "player.location" then OnLocation(d, msg.v.x, msg.v.y) else d
  }

  /** A tick of the animation timer. */
  function OnTick(d: Door): (r: Door)
    ensures r.state == d.state && r.x == d.x && r.y == d.y
    ensures 0 <= d.frame <= MaxFrame ==> 0 <= r.frame <= MaxFrame
  {
    if d.state == Closed && d.frame > 0 then d.(frame := d.frame - 1)
    else if d.state == Open && d.frame < MaxFrame then d.(frame := d.frame + 1)
    else d
  }

  /** One turn of the life loop: a message, a control value or a tick. */
  datatype Event = Inbox(msg: Message) | Control(c: DoorState) | Timer

  /** The door after the events in order, up to a control Quit, which ends
      the loop. */
  function Run(d: Door, evs: seq<Event>): Door
    decreases |evs|
  {
    if evs == [] then d
    else match evs[0]
      case Inbox(msg) => Run(OnMessage(d, msg), evs[1..])
      case Control(c) => if c == Quit then d else Run(d.(state := c), evs[1..])
      case Timer => Run(OnTick(d), evs[1..])
  }

  /** n timer ticks with nothing else happening. */
  function Ticks(d: Door, n: nat): Door
    decreases n
  {
    if n == 0 then d else Ticks(OnTick(d), n - 1)
  }

  // ---------------------------------------------------------------------
  // Properties
  // ---------------------------------------------------------------------

  /** Exactly at 200 units on either axis the player is too far: a closed
      door stays closed and an open door closes. */
  lemma BoundaryIsOutside(d: Door, mx: int, my: int)
    requires d.state != Quit
    requires Abs(mx - d.x) == Reach || Abs(my - d.y) == Reach
    ensures OnLocation(d, mx, my).state == Closed
  {
  }

  /** Whatever the events, a door whose frame starts in 0..3 keeps it there. */
  lemma {:induction false} FrameStaysInRange(d: Door, evs: seq<Event>)
    requires 0 <= d.frame <= MaxFrame
    ensures 0 <= Run(d, evs).frame <= MaxFrame
    decreases |evs|
  {
    if evs != [] {
      match evs[0]
      case Inbox(msg) => FrameStaysInRange(OnMessage(d, msg), evs[1..]);
      case Control(c) => if c != Quit { FrameStaysInRange(d.(state := c), evs[1..]); }
      case Timer => FrameStaysInRange(OnTick(d), evs[1..]);
    }
  }

  /** While the state stays put, each tick moves the frame one step toward
      its end and stops there. */
  lemma {:induction false} TicksEase(d: Door, n: nat)
    requires 0 <= d.frame <= MaxFrame
    ensures d.state == Open ==>
              Ticks(d, n) == d.(frame := if d.frame + n < MaxFrame then d.frame + n else MaxFrame)
    ensures d.state == Closed ==>
              Ticks(d, n) == d.(frame := if d.frame - n > 0 then d.frame - n else 0)
    ensures d.state == Quit ==> Ticks(d, n) == d
    decreases n
  {
    if n > 0 {
      TicksEase(OnTick(d), n - 1);
    }
  }

  /** At most three ticks fully open an open door or fully close a closed one. */
  lemma ThreeTicksSettle(d: Door, n: nat)
    requires 0 <= d.frame <= MaxFrame && n >= 3
    ensures d.state == Open ==> Ticks(d, n).frame == MaxFrame
    ensures d.state == Closed ==> Ticks(d, n).frame == 0
  {
    TicksEase(d, n);
  }

  /** The door's region of the four-frame sheet, and where it is drawn. */
  function SourceRect(frame: int): (r: Rect)
    ensures 0 <= frame <= MaxFrame ==> 0 <= r.X <= 192 && r.X + r.W <= 4 * FrameWidth
    ensures r.W == FrameWidth && r.H == FrameHeight && r.Y == 0
  {
    Rect(frame * FrameWidth, 0, FrameWidth, FrameHeight)
  }

  // ---------------------------------------------------------------------
  // The door object
  // ---------------------------------------------------------------------

  class Exit {
    var state: DoorState
    var x: int
    var y: int
    var frame: int
    var inbox: MailboxId

    /** `NewExit`: a closed door at the origin (the constructor sets no
        position) whose inbox is registered for "player.location". */
    constructor (bus: Bus)
      requires bus.Valid()
      modifies bus
      ensures Model() == Door(Closed, 0, 0, 0)
      ensures bus.Valid() && inbox == |old(bus.boxes)| && bus.boxes == old(bus.boxes) + [[]]
      ensures bus.notes == Register(old(bus.notes), "player.location", inbox)
    {
      var id := bus.NewMailbox();
      bus.Kmp("player.location", id);
      state, x, y, frame := Closed, 0, 0, 0;
      inbox := id;
    }

    ghost function Model(): Door
      reads this
    {
      Door(state, x, y, frame)
    }

    /** A message taken from the inbox. */
    method HandleMessage(msg: Message)
      modifies this
      ensures Model() == OnMessage(old(Model()), msg) && inbox == old(inbox)
    {
      match msg.v {
        case Location(mx, my) =>
          if msg.k == "player.location" {
            if state == Closed && mx > x - 200 && mx < x + 200 && my > y - 200 && my < y + 200 {
              state := Open;
            }
            if state == Open && (mx <= x - 200 || mx >= x + 200 || my <= y - 200 || my >= y + 200) {
              state := Closed;
            }
          }
        case _ =>
      }
    }

    /** A value from the controller: Quit ends the loop, any other value
        becomes the state. */
    method HandleControl(c: DoorState) returns (stop: bool)
      modifies this
      ensures stop <==> c == Quit
      ensures Model() == if stop then old(Model()) else old(Model()).(state := c)
      ensures inbox == old(inbox)
    {
      if c == Quit {
        return true;
      }
      state := c;
      stop := false;
    }

    /** A tick of the animation timer. */
    method Tick()
      modifies this
      ensures Model() == OnTick(old(Model())) && inbox == old(inbox)
    {
      if state == Closed && frame > 0 {
        frame := frame - 1;
      } else if state == Open && frame < MaxFrame {
        frame := frame + 1;
      }
    }

    /** What `Draw` copies: the current frame to the door's position. */
    function Draw(): (r: (Rect, Rect))
      reads this
      ensures r.0 == SourceRect(frame)
      ensures r.1 == Rect(x, y, FrameWidth, FrameHeight)
    {
      (Rect(frame * FrameWidth, 0, FrameWidth, FrameHeight), Rect(x, y, FrameWidth, FrameHeight))
    }
  }
}
