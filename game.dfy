/** The game controller of `game.go`: its life loop reacts to the topics it
    registers for (menu actions, quit, the player's location, input events),
    `Quitting` reports the terminal state, and `Exec` dispatches a console
    command on its first space-separated word. */
module GameController {
  import opened Geometry
  import opened Notify
  import opened Camera

  datatype GameState = Running | Menu | Quitting

  /** What one turn of the life loop did. `quit()` is not part of this model;
      the step reports that it was called. A menu action whose payload is not
      a string fails the loop's type assertion, which is a panic. */
  datatype LoopStep = Continue(callsQuit: bool) | Returned | Panicked

  class Game {
    var state: GameState
    var menuInvisible: bool
    var wv: WorldView
    var inbox: MailboxId

    /** The game starts in the menu, with the starting view and world, and
        with its inbox registered for the four topics it listens to. */
    constructor (bus: Bus)
      requires bus.Valid()
      modifies bus
      ensures bus.Valid() && state == Menu && !menuInvisible && !Quitting()
      ensures wv.view == StartView && wv.world == StartWorld && fresh(wv)
      ensures inbox == |old(bus.boxes)| && bus.boxes == old(bus.boxes) + [[]]
      ensures forall k :: Registrations(bus.notes, k) ==
                Registrations(old(bus.notes), k) +
                (if k in ["quit", "player.location", "input.event", "menuAction"] then [inbox] else [])
    {
      var id := bus.NewMailbox();
      bus.Kmp("quit", id);
      bus.Kmp("player.location", id);
      bus.Kmp("input.event", id);
      bus.Kmp("menuAction", id);
      state := Menu;
      menuInvisible := false;
      wv := new WorldView(StartView, StartWorld);
      inbox := id;
    }

    /** `Quitting()`: the life loop has ended. */
    predicate Quitting()
      reads this
      ensures Quitting() <==> state != Running && state != Menu
    {
      state == GameState.Quitting
    }

    /** One turn of the life loop, for one message taken from the inbox. */
    method Handle(msg: Message) returns (step: LoopStep)
      modifies this, wv
      ensures wv == old(wv) && inbox == old(inbox) && wv.world == old(wv.world)
      ensures msg.k == "quit" ==>
                step == Returned && Quitting() &&
                menuInvisible == old(menuInvisible) && wv.view == old(wv.view)
      ensures msg.k == "menuAction" && !msg.v.Text? ==>
                step == Panicked && Quitting() &&
                menuInvisible == old(menuInvisible) && wv.view == old(wv.view)
      ensures msg.k == "menuAction" && msg.v.Text? ==>
                step == Continue(false) && wv.view == old(wv.view) &&
                (msg.v.s == "start" ==> menuInvisible && state == Running) &&
                (msg.v.s == "levelEdit" ==> menuInvisible && state == old(state)) &&
                (msg.v.s != "start" && msg.v.s != "levelEdit" ==>
                   menuInvisible == old(menuInvisible) && state == old(state))
      ensures msg.k != "quit" && msg.k != "menuAction" ==>
                state == old(state) && menuInvisible == old(menuInvisible) &&
                step == Continue(msg.v == QuitEvent || msg.v == KeyUp('q')) &&
                wv.view == (if msg.k == "player.location" && msg.v.Location?
                            then Focused(old(wv.view), old(wv.world), msg.v.x, msg.v.y)
                            else old(wv.view))
      ensures step.Continue? ==> state == old(state) || state == Running
    {
      if msg.k == "quit" {
        state := GameState.Quitting;
        return Returned;
      }
      if msg.k == "menuAction" {
        if !msg.v.Text? {
          state := GameState.Quitting;
          return Panicked;
        }
        if msg.v.s == "start" {
          menuInvisible := true;
          state := Running;
        } else if msg.v.s == "levelEdit" {
          menuInvisible := true;
        }
      }
      step := Continue(false);
      match msg.v {
        case Location(x, y) =>
          if msg.k == "player.location" {
            wv.Focus(x, y);
          }
        case QuitEvent =>
          step := Continue(true);
        case KeyUp(code) =>
          if code == 'q' {
            step := Continue(true);
          }
        case _ =>
      }
    }
  }

  // ---------------------------------------------------------------------
  // Console commands
  // ---------------------------------------------------------------------

  /** `strings.Split(s, " ")`: the pieces between single spaces; an empty
      string gives one empty piece, and each extra space an empty piece. */
  function Split(s: string): (parts: seq<string>)
    ensures |parts| >= 1
    decreases |s|
  {
    if s == [] then [[]]
    else
      var rest := Split(s[1..]);
      if s[0] == ' ' then [[]] + rest
      else [[s[0]] + rest[0]] + rest[1..]
  }

  /** `strings.Join(parts, " ")`. */
  function Join(parts: seq<string>): string
    requires |parts| >= 1
    decreases |parts|
  {
    if |parts| == 1 then parts[0] else parts[0] + " " + Join(parts[1..])
  }

  ghost predicate SpaceFree(parts: seq<string>)
  {
    forall i | 0 <= i < |parts| :: ' ' !in parts[i]
  }

  /** Splitting and joining again gives back the command, and no piece
      contains a space. */
  lemma {:induction false} SplitJoin(s: string)
    ensures Join(Split(s)) == s && SpaceFree(Split(s))
    decreases |s|
  {
    if s != [] {
      var rest := Split(s[1..]);
      SplitJoin(s[1..]);
      if s[0] == ' ' {
        assert Split(s) == [[]] + rest;
        assert Join(Split(s)) == [] + " " + Join(rest);
      } else {
        JoinFirst(s[0], rest);
        assert Split(s) == [[s[0]] + rest[0]] + rest[1..];
      }
    }
  }

  /** Prepending a character to the first piece prepends it to the join. */
  lemma {:induction false} JoinFirst(c: char, parts: seq<string>)
    requires |parts| >= 1
    ensures Join([[c] + parts[0]] + parts[1..]) == [c] + Join(parts)
  {
    if |parts| > 1 {
      var head, rest := parts[0], parts[1..];
      assert parts == [head] + rest;
      JoinCons([c] + head, rest);
      JoinCons(head, rest);
      assert ([c] + head) + " " + Join(rest) == [c] + (head + " " + Join(rest));
    }
  }

  /** Join of a piece in front of at least one more. */
  lemma {:induction false} JoinCons(head: string, rest: seq<string>)
    requires |rest| >= 1
    ensures Join([head] + rest) == head + " " + Join(rest)
  {
    assert ([head] + rest)[1..] == rest;
  }

  /** Joining space-free pieces and splitting again gives back the pieces:
      together with SplitJoin, Split and Join are inverse. */
  lemma {:induction false} JoinSplit(parts: seq<string>)
    requires |parts| >= 1 && SpaceFree(parts)
    ensures Split(Join(parts)) == parts
    decreases |Join(parts)|, |parts[0]|
  {
    if parts[0] == [] {
      if |parts| > 1 {
        var tail := parts[1..];
        assert SpaceFree(tail);
        assert Join(parts) == [' '] + Join(tail);
        JoinSplit(tail);
        assert Split(Join(parts)) == [[]] + Split(Join(tail));
      }
    } else {
      var c, q := parts[0][0], parts[0][1..];
      var shorter := [q] + parts[1..];
      assert parts[0] == [c] + q;
      assert shorter[1..] == parts[1..];
      assert [[c] + shorter[0]] + shorter[1..] == parts;
      JoinFirst(c, shorter);
      assert SpaceFree(shorter) by {
        forall i | 0 <= i < |shorter| ensures ' ' !in shorter[i] {
          if i == 0 {
            assert ' ' !in parts[0];
          } else {
            assert shorter[i] == parts[i];
          }
        }
      }
      assert c != ' ' by { assert parts[0][0] == c; }
      JoinSplit(shorter);
    }
  }

  /** The first piece is the longest prefix of `s` without a space, and
      there is only one piece exactly when `s` has no space. */
  lemma {:induction false} SplitHead(s: string)
    ensures var w := Split(s)[0];
            |w| <= |s| && s[..|w|] == w && ' ' !in w &&
            (|w| < |s| ==> s[|w|] == ' ') &&
            (|Split(s)| == 1 <==> ' ' !in s)
    decreases |s|
  {
    SplitJoin(s);
    if s != [] {
      SplitHead(s[1..]);
    }
  }

  /** What `Exec` does: its printed replies and its call to `quit()`. */
  datatype ExecResult = CallsQuit | HelpUsage | HelpNotImplemented | Nothing | BadCommand

  /** `Exec(cmd)`: dispatch on the first space-separated word. */
  function Exec(cmd: string): (r: ExecResult)
    ensures r == BadCommand ==> cmd != [] && cmd[0] != ' '
    ensures r in {CallsQuit, HelpUsage, HelpNotImplemented} ==> |cmd| >= 4 && cmd[0] != ' '
  {
    SplitHead(cmd);
    var argv := Split(cmd);
    match argv[0]
    case "quit" => CallsQuit
    case "help" => if |argv| == 1 then HelpUsage else HelpNotImplemented
    case "" => Nothing
    case _ => BadCommand
  }

  /** A command word followed by anything after a space. */
  ghost predicate StartsWithWord(cmd: string, word: string)
  {
    cmd == word || (|cmd| > |word| && cmd[..|word|] == word && cmd[|word|] == ' ')
  }

  /** The first piece is `word` exactly when the command starts with that word. */
  lemma FirstWord(cmd: string, word: string)
    requires ' ' !in word
    ensures Split(cmd)[0] == word <==> StartsWithWord(cmd, word)
  {
    SplitHead(cmd);
    var w := Split(cmd)[0];
    if StartsWithWord(cmd, word) {
      if |w| < |word| {
        assert false;
      } else if |w| > |word| {
        assert false;
      } else {
        assert w == cmd[..|w|];
      }
    }
  }

  /** Exec reads only the first word: "quit" (with or without arguments)
      calls quit(); "help" alone prints the usage and "help" with arguments
      the not-implemented notice; an empty first word (an empty command or a
      leading space) does nothing; any other word is a bad command. */
  lemma ExecDispatch(cmd: string)
    ensures Exec(cmd) == CallsQuit <==> StartsWithWord(cmd, "quit")
    ensures Exec(cmd) == HelpUsage <==> cmd == "help"
    ensures Exec(cmd) == HelpNotImplemented <==> cmd != "help" && StartsWithWord(cmd, "help")
    ensures Exec(cmd) == Nothing <==> cmd == [] || cmd[0] == ' '
  {
    SplitHead(cmd);
    FirstWord(cmd, "quit");
    FirstWord(cmd, "help");
    FirstWord(cmd, "");
  }
}
