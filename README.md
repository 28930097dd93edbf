# gogame core, modelled in Dafny

A model of the game logic of `gogame`, a small SDL side-scroller written in
Go. Each actor of the game runs a `life` loop in a goroutine and talks to the
others through a process-wide topic registry. Here each loop becomes a
sequential step that handles one input, and the channels become FIFO
mailboxes held by a bus object. The model covers:

- **Notify**: the topic registry of `notify.go`. `kmp` appends a mailbox to
  a topic's list and `notify` pushes a message onto every registered
  mailbox. `Deliver` specifies a broadcast. The `Bus` class keeps the
  registry and the mailboxes, and its `Notify` loop is proved against
  `Deliver`.
- **Camera**: `worldView.focus`. It snaps the view so the tracked point lies
  in the central dead zone, then clamps the view into the world. The pure
  `Focused` is the specification. `WorldView.Focus` performs the
  step-by-step in-place update and is proved equal to it.
- **GameController**: the game's life loop (menu actions, quit, camera
  focus on the player's location), `Quitting`, and `Exec`. `Exec` dispatches
  a console command on the first piece of `strings.Split(cmd, " ")`.
- **PlayerActor**: the player's command state machine (four animation
  states, two facings) and the integer frame selection of `update` and
  `Draw`.
- **ExitActor**: the door. It opens when the player is strictly within 200
  units on both axes and closes otherwise. A tick eases its 0..3 animation
  frame one step, and a control value overrides its state.
- **ButtonActor**: the menu button's inclusive hit test and its
  press/release/cancel loop. The loop counts how many times the action
  runs.
- **Sprites**: sprite bounds, visibility, lazy template loading (the image
  is loaded at most once per template) and the frame-to-source-rectangle
  arithmetic of `draw`.
- **Geometry**: the renderer's rectangle, and Go's truncating integer
  division and remainder.

Each actor is a class holding the fields of the Go struct that the model
reads or writes. Its life-loop
step is a method whose postcondition ties the new state to a pure function
of the old state. Sequences of steps and their properties are proved as
lemmas about those functions.

Go's `/` and `%` truncate toward zero. Every division in the model goes
through `Geometry.Quo` and `Geometry.Rem`, which reproduce Go's behaviour
for negative operands.

From the starting view (0, 0, 1024, 768) in the world (0, 0, 4096, 768),
`focus` as written in `game.go:218-248` gives view X = 2832 for x = 3600:
the dead-zone snap moves the view to 3600 − 768, and no clamp fires. For
x = 4000 the upper clamp fires and gives 4096 − 1024 = 3072.
`Camera.StartViewExamples` states both.

## Model

| member | source | states |
|---|---|---|
| Notify.BasicMsg.String | src/game/notify.go:30-34 | the string form of a basic message gives back the string it was made from |
| Notify.Register | src/game/notify.go:17-19 | `kmp` appends the mailbox at the end of the key's list (a missing key reads as empty); every other key's list is unchanged |
| Notify.Enqueue | src/game/notify.go:24 | pushing onto one mailbox appends the message to that mailbox and leaves every other mailbox as it was |
| Notify.Deliver | src/game/notify.go:22-26 | a broadcast keeps the number of mailboxes, only appends (each old mailbox is a prefix of the new one), and adds at most one message per registration |
| Notify.DeliverAt | src/game/notify.go:22-26 | after a broadcast each mailbox holds its old contents plus one copy of the message per registration of that mailbox, and nothing else |
| Notify.DeliverSkipsUnregistered | src/game/notify.go:22-26 | a mailbox not registered for the key is unchanged by a broadcast |
| Notify.DeliverToNobody | src/game/notify.go:22-26 | a broadcast to a key with no registrations changes no mailbox |
| Notify.RegisterTwiceDeliversTwice | src/game/notify.go:17-26 | registering the same mailbox twice is not deduplicated, so one broadcast enqueues the message on it twice |
| Notify.LateSubscriberMissesEarlierMessage | src/game/notify.go:17-26 | a mailbox registered after a broadcast does not receive that broadcast's message, and does receive the next one |
| Notify.Bus.constructor | src/game/notify.go:13 | the registry starts empty |
| Notify.Bus.NewMailbox | src/game/game.go:63 | a new mailbox is empty and gets the next id; the registry is unchanged |
| Notify.Bus.Kmp | src/game/notify.go:17-19 | the registry becomes `Register(old registry, key, id)`; the mailboxes are unchanged |
| Notify.Bus.Notify | src/game/notify.go:22-26 | the loop over the key's registrations leaves the mailboxes equal to `Deliver` of the old mailboxes, in registration order; the registry is unchanged |
| Notify.Bus.Receive | src/game/game.go:104 | takes the oldest message of a mailbox, or reports that it is empty; other mailboxes are unchanged |
| Geometry.Quo | src/game/game.go:220 | Go's truncating quotient: equal to Euclidean division for non-negative operands, with the dividend's sign for a positive divisor |
| Geometry.Rem | src/game/player.go:86 | Go's remainder: dividend = quotient × divisor + remainder, with the dividend's sign and a magnitude below the divisor's |
| Geometry.QuoRemShift | src/game/sprite.go:68-69 | adding k whole divisors to a non-negative dividend adds k to the quotient and keeps the remainder |
| Camera.Clamp | src/game/game.go:228-233 | the clamped origin never passes the world's upper edge; it stays at or above the lower edge when the view fits; an in-world origin is kept; a view wider than the world is aligned to the world's upper edge |
| Camera.Focused | src/game/game.go:218-248 | after focus only the view's origin changes; the view never passes the world's right or bottom edge; the view's left and top edges stay inside the world when the view fits |
| Camera.QuartersOrdered | src/game/game.go:220 | for a view of non-negative size, 0 ≤ W/4 ≤ 3W/4 ≤ W |
| Camera.SnapOrderIrrelevant | src/game/game.go:221-241 | with ordered bounds, testing the right edge first (X) or the top edge first (Y) snaps alike |
| Camera.SnapLandsInDeadZone | src/game/game.go:220-226 | after a snap the point lies in the dead zone, and a point already in it does not move the view |
| Camera.AxisIdempotent | src/game/game.go:220-247 | snap-then-clamp on one axis is idempotent, whatever the view and world sizes |
| Camera.FocusIdempotent | src/game/game.go:218-248 | focusing twice on the same point equals focusing once |
| Camera.FocusKeepsPointInDeadZone | src/game/game.go:218-248 | on each axis where no clamp moved the snapped view, the offset of the point lies in [W/4, 3W/4] (or [H/4, 3H/4]) |
| Camera.FocusInsideDeadZoneIsStill | src/game/game.go:218-248 | a point inside the dead zone of an in-world view leaves the view unchanged |
| Camera.StartViewExamples | src/game/game.go:59-62 | from the starting view and world: focus(0) keeps X = 0, focus(4000) gives 3072, focus(3600) gives 2832, and Y is always 0 |
| Camera.WorldView.constructor | src/game/game.go:59-62 | a world view holds the given view and world |
| Camera.WorldView.Focus | src/game/game.go:218-248 | the in-place conditional updates leave the view equal to `Focused` of the old view; the world is unchanged |
| GameController.Game.constructor | src/game/game.go:49-98 | the game starts in the menu state with the starting view and world, and its new inbox is registered for "quit", "player.location", "input.event" and "menuAction" |
| GameController.Game.Handle | src/game/game.go:100-135 | "quit" ends the loop and Quitting() becomes true; a non-string menu action panics, and the deferred assignment still sets quitting; menu action "start" hides the menu and sets running; "levelEdit" only hides the menu; a location on "player.location" focuses the camera; a quit event or the 'q' key calls quit() |
| GameController.Game.Quitting | src/game/game.go:197-199 | the game is quitting exactly when it is neither running nor in the menu |
| GameController.Exec | src/game/game.go:178-195 | a bad command is non-empty and does not start with a space; quit and both help replies need a command of at least four characters with no leading space |
| GameController.Split | src/game/game.go:180 | `strings.Split` on a space always gives at least one piece |
| GameController.SplitJoin | src/game/game.go:180 | joining the pieces with spaces gives back the command, and no piece contains a space |
| GameController.JoinSplit | src/game/game.go:180 | splitting the join of space-free pieces gives back the pieces (Split and Join are inverse) |
| GameController.SplitHead | src/game/game.go:180-181 | the first piece is the longest space-free prefix of the command, and there is one piece exactly when the command has no space |
| GameController.FirstWord | src/game/game.go:181 | the first piece equals a space-free word exactly when the command is that word or starts with it followed by a space |
| GameController.ExecDispatch | src/game/game.go:178-195 | Exec calls quit() iff the first word is "quit"; prints the help usage iff the command is exactly "help"; prints "not yet implemented" iff it is "help" followed by a space; does nothing iff the command is empty or starts with a space |
| PlayerActor.Command | src/game/player.go:137-183 | no command touches wy, dx or ddx; only StopJump and Land touch dy and ddy; the facing changes only into Walking; a command that keeps a non-walking animation changes nothing |
| PlayerActor.CommandFollowsTable | src/game/player.go:136-183 | an accepted command moves the animation to its target state; a command the current state does not accept leaves the whole state unchanged |
| PlayerActor.StartWalkEffect | src/game/player.go:140-158 | starting to walk from Standing or Walking sets Walking, the facing and wx = ∓256; in Jumping or Falling it changes nothing |
| PlayerActor.StopWalkEffect | src/game/player.go:147-163 | either stop command in Walking sets Standing and wx = 0, whatever the facing; otherwise it is ignored |
| PlayerActor.JumpPhases | src/game/player.go:164-180 | StartJump changes only the animation; StopJump from Jumping sets Falling, dy = −512 and ddy = 2048; Land from Falling sets Standing and dy = ddy = 0 |
| PlayerActor.UnhandledCommandsAreIgnored | src/game/player.go:181-182 | StartFire, StopFire and Teleport change nothing |
| PlayerActor.JumpCycle | src/game/player.go:164-180 | StartJump, StopJump, Land from Standing or Walking ends Standing with dy = ddy = 0, and facing and wx unchanged |
| PlayerActor.RunKeepsConsistent | src/game/player.go:133-187 | every command sequence keeps ddy equal to gravity exactly while Falling, and a Walking player's wx matching its facing |
| PlayerActor.WalkFrame | src/game/player.go:110 | the walking frame is in 0..3 for non-negative clock times |
| PlayerActor.WalkFramePeriodic | src/game/player.go:110 | the walking frame repeats every half second |
| PlayerActor.SourceX | src/game/player.go:86 | a non-negative frame's source x is one of 0, 32, 64, 96 |
| PlayerActor.Player.constructor | src/game/player.go:69-83 | a new player stands facing left with zero velocities, at frame 0, before its first tick |
| PlayerActor.Player.Apply | src/game/player.go:133-183 | Quit stops the loop and changes nothing; any other command leaves the state equal to `Command` of the old state; position and frame are untouched |
| PlayerActor.Player.Update | src/game/player.go:101-131 | the first tick (lastUpdate = 0) only records t and changes nothing else; later ticks set the walking frame while Walking, frame 0 otherwise, and record t; no tick changes the animation, facing, desired velocity or acceleration, so a consistent state stays consistent; velocity and position after a later tick are left free |
| PlayerActor.Player.Draw | src/game/player.go:85-99 | the player's frame is copied to its integer position, mirrored exactly when facing right, and the source lies within the four-frame strip |
| ExitActor.Near | src/game/exit.go:75-77 | being near (strictly less than 200 away on each axis) is being strictly inside both open intervals (x ± 200, y ± 200) |
| ExitActor.OnLocation | src/game/exit.go:72-85 | from Closed or Open, the door is Open after a location update iff the player is near; position and frame are unchanged |
| ExitActor.OnMessage | src/game/exit.go:69-86 | a message never moves the door or changes its frame; a location on "player.location" leaves an unquit door Open iff the player is near; any other message changes nothing |
| ExitActor.BoundaryIsOutside | src/game/exit.go:75-84 | a player exactly 200 away on either axis leaves the door closed |
| ExitActor.OnTick | src/game/exit.go:92-98 | a tick never changes the state or position, and keeps a frame in 0..3 within 0..3 |
| ExitActor.FrameStaysInRange | src/game/exit.go:66-101 | whatever messages, control values and ticks arrive, a frame starting in 0..3 stays in 0..3 |
| ExitActor.TicksEase | src/game/exit.go:92-98 | n ticks move an open door's frame up by n and a closed door's down by n, stopping at 3 or 0 |
| ExitActor.ThreeTicksSettle | src/game/exit.go:92-98 | three ticks fully open an open door or fully close a closed one |
| ExitActor.SourceRect | src/game/exit.go:59 | the source x of a frame in 0..3 lies in [0, 192] and the region stays within the sheet |
| ExitActor.Exit.constructor | src/game/exit.go:33-47 | a new door is closed, at frame 0, at the origin, and its inbox is registered for "player.location" |
| ExitActor.Exit.HandleMessage | src/game/exit.go:69-86 | a message leaves the door equal to `OnMessage` of the old door: only a location on "player.location" acts |
| ExitActor.Exit.HandleControl | src/game/exit.go:87-91 | Quit ends the loop and changes nothing; any other value becomes the door's state |
| ExitActor.Exit.Tick | src/game/exit.go:92-98 | a tick leaves the door equal to `OnTick` of the old door |
| ExitActor.Exit.Draw | src/game/exit.go:58-60 | the current frame's region is copied to the door's position |
| ButtonActor.Hit | src/game/button.go:71-73 | a hit needs a visible button of non-negative size |
| ButtonActor.Button.HitTest | src/game/button.go:71-73 | a point hits exactly when the button is visible and the point lies within its frame, all four edges included |
| ButtonActor.Step | src/game/button.go:80-103 | the action runs only on a mouse-up while pressed, and then the button is released with the label lifted by 8; otherwise the state is unchanged, pressed with the label lowered by 8 (only by a mouse-down that hits), or released from a press with the label lifted by 8; other payloads change nothing |
| ButtonActor.HitEdges | src/game/button.go:71-73 | a visible button's four corners are hits, one pixel beyond any edge is not, and an invisible button is never hit |
| ButtonActor.ClickInvokesOnce | src/game/button.go:81-95 | press inside then release inside runs the action once and restores the frame and the label |
| ButtonActor.DragAwayCancels | src/game/button.go:81-102 | press inside, move outside, then release anywhere runs the action zero times and leaves the button unpressed with its label restored |
| ButtonActor.StrayEventsIgnored | src/game/button.go:81-102 | mouse-down outside, mouse-up outside or unpressed, and motion inside change nothing |
| ButtonActor.DoublePressShiftsLabel | src/game/button.go:81-95 | two presses before a release leave the label 8 pixels lower than it started |
| ButtonActor.InvocationsNeedReleases | src/game/button.go:75-105 | the action never runs more often than there are mouse-up events |
| ButtonActor.QuitEndsLoop | src/game/button.go:76-79 | a "quit" message ends the loop before its payload is looked at |
| ButtonActor.Centre | src/game/button.go:34-35 | a label no larger than the frame is placed inside it, with the two margins differing by at most one |
| ButtonActor.Button.constructor | src/game/button.go:25-46 | a new button has the frame size of the template it is made from and a label centred in that frame, and its inbox is registered for "quit" then "input.event" |
| ButtonActor.Button.Handle | src/game/button.go:75-105 | "quit" stops the loop and changes nothing; any other message updates frame and label and reports the invocation as `Step` does; the hit-test fields, the label's x and the label's size are unchanged |
| ButtonActor.Draw | src/game/button.go:48-62 | a nil or invisible button draws nothing; otherwise the current frame and the label offset by the button's position |
| ButtonActor.CentredCaptionInFrame | src/game/button.go:34-35 | a label that fits and was centred by the constructor is drawn inside the button's frame while unpressed, and 8 pixels lower while pressed |
| Sprites.SpriteTemplate.constructor | src/game/sprite.go:13-21 | a new template holds its sheet layout and has not loaded its image |
| Sprites.SpriteTemplate.Load | src/game/sprite.go:23-28 | the first call loads the image and returns the loader's error; later calls return no error and change nothing; the loader runs exactly once |
| Sprites.SourceRect | src/game/sprite.go:68-69 | the source region has the frame size, and the frames of the first row are laid out left to right from the origin |
| Sprites.SourceInSheet | src/game/sprite.go:68-69 | for a non-negative frame and positive frame counts, the source region lies inside the sheet |
| Sprites.SourcePeriodic | src/game/sprite.go:68-69 | frames that differ by framesX × framesY select the same source region |
| Sprites.Sprite.constructor | src/game/sprite.go:30-37 | a new sprite has no template yet, so its bounds are the zero rectangle |
| Sprites.Sprite.Load | src/game/sprite.go:50-57 | a sprite that has a template changes nothing; otherwise it takes the template for its key and that template's frame size, and loads the template's image at most once; a missing key is a nil template; only the load state of the chosen template may change, and every other template is unchanged |
| Sprites.Bounds | src/game/sprite.go:39-44 | the zero rectangle for a nil sprite or a nil template; otherwise the sprite's size at (X, Y + Z) |
| Sprites.IsInvisible | src/game/sprite.go:46-48 | a nil sprite is invisible, and a sprite that is not invisible exists and has its Invisible flag clear |
| Sprites.LoadThenBounds | src/game/sprite.go:39-57 | after loading, the bounds have the template's frame size, a second load returns no error, and the image was loaded once |
| Sprites.Draw | src/game/sprite.go:59-73 | a nil or invisible sprite draws nothing and loads nothing; a copy uses the frame's source region and the destination (X − baseX, Y + Z − baseY, w, h); on a first draw a missing key panics and leaves the template nil, otherwise the sprite takes the template for its key and its frame size; the result is the loader's error exactly when that template had not loaded yet and the loader fails; after a successful load the sprite is copied when both frame counts are non-zero and panics otherwise; the sprite's position, frame, flag and key are kept, and every template other than the sprite's is unchanged |

## Left out

- Concurrency: goroutines, `select`, channel capacity and blocking, `close`, and the tickers. Each `life` loop is a sequential step over one input. A mailbox is an unbounded FIFO sequence, so a full channel that would block the sender is not modelled. `sync.Once` is a boolean flag.
- `Game.pulse`, `Exit.Destroy` and `Exit.Updater`: these are ticker and channel plumbing.
- `Game.Destroy`: besides stopping the clock it tears down the world and HUD scene trees (`g.world.destroy()`, `g.hud.destroy()`); the scene graph is not part of this model, so this teardown is not modelled.
- `Game.HandleEvent`: it is one `notify("input.event", ev)`, which `Notify.Bus.Notify` covers.
- `Game.Draw`, `Clear`/`Present`, `PushOffset`/`PopOffset`, `Copy`/`CopyEx`: only the rectangles computed before these renderer calls are modelled. A renderer copy error is not modelled.
- PlayerActor.Player.Update: the float velocity smoothing with `math.Exp` and the float position integration and truncation to `x`, `y` are not modelled. After a later tick, `dx`, `dy`, `x` and `y` are unconstrained, and the float `fx`, `fy` are not fields of the model. Only the first-tick baseline, the frame selection, `lastUpdate` and the fields a tick keeps are stated.
- `NewGame`: the singleton check, the random hex grid, the orb, the cursor sprite and `newMenu` are scene setup and are not modelled.
- Loading errors: `GetTexture` errors in `NewPlayer`/`NewExit` and template/text errors in `newButton` are not modelled. The player's random starting position is not modelled either.
- `quit()`, `locationMsg`, `templateLibrary` and `newText` are not part of this model. `quit()` is reported as a flag, a location is an integer pair, the template library is a map parameter, and the label's size is a constructor parameter. A button's template enters its constructor as its frame size.
- Printing: `Exec`'s printed replies are the values of `GameController.ExecResult`.
- `positionMsg.String` formats with `fmt.Sprintf`; string formatting is not modelled.
- Integer width: Go's `int` is 64 bits, and the model's integers are unbounded, so overflow on extreme coordinates is not modelled.
- `sprite.z()`: the model reads the `Z` field directly.
- Button label: the button embeds a sprite and a text. The fields the button reads are fields of `ButtonActor.Button`, and the label is its offset and size.
- `src/game/orb.go`, `src/game/text.go` and `src/main/main.go` are not part of this model. They hold floating-point drawing, font handling and the SDL event loop.
