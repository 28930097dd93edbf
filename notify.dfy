/** The process-wide topic registry of `notify.go`: `kmp` ("keep me posted")
    appends a mailbox to a topic's list and `notify` pushes a message onto
    every mailbox registered for a topic, in registration order.

    Channels become mailboxes: FIFO queues held by the bus and named by
    their index. The life loops of the actors read a message's topic and
    payload (`msg.k`, `msg.v`), so a published message is the pair of the
    topic it was published on and its payload. */
module Notify {
  import opened Wrappers

  type MailboxId = nat

  /** The payload kinds that travel on the bus. */
  datatype Payload =
    | Text(s: string)                 // a plain string, such as a menu action
    | Location(x: int, y: int)        // the player's world position
    | MouseDown(x: int, y: int)
    | MouseUp(x: int, y: int)
    | MouseMotion(x: int, y: int)
    | KeyUp(key: char)
    | QuitEvent
    | Tick(elapsed: int)              // clock time, in nanoseconds

  datatype Message = Message(k: string, v: Payload)

  /** `basicMsg`: a message that is just a string. */
  datatype BasicMsg = BasicMsg(text: string) {
    /** The string form gives back exactly the string the message was made from. */
    function String(): (s: string)
      ensures BasicMsg(s) == this
    {
      text
    }
  }

  // ---------------------------------------------------------------------
  // Specification of the registry and of a broadcast
  // ---------------------------------------------------------------------

  /** The mailboxes registered for `key`; a key never registered reads as
      the empty list, as a missing key of a Go map gives a nil slice. */
  function Registrations(notes: map<string, seq<MailboxId>>, key: string): seq<MailboxId>
  {
    if key in notes then notes[key] else []
  }

  /** Every registered mailbox exists. */
  ghost predicate RegistryValid(notes: map<string, seq<MailboxId>>, count: nat)
  {
    forall k | k in notes :: forall i | 0 <= i < |notes[k]| :: notes[k][i] < count
  }

  /** The registry after `kmp(key, id)`. */
  function Register(notes: map<string, seq<MailboxId>>, key: string, id: MailboxId): (r: map<string, seq<MailboxId>>)
    ensures Registrations(r, key) == Registrations(notes, key) + [id]
    ensures forall k | k != key :: Registrations(r, k) == Registrations(notes, k)
  {
    notes[key := Registrations(notes, key) + [id]]
  }

  /** The mailboxes after pushing `m` onto mailbox `id`. */
  function Enqueue(boxes: seq<seq<Message>>, id: MailboxId, m: Message): (r: seq<seq<Message>>)
    requires id < |boxes|
    ensures |r| == |boxes| && r[id] == boxes[id] + [m]
    ensures forall j | 0 <= j < |boxes| && j != id :: r[j] == boxes[j]
  {
    boxes[id := boxes[id] + [m]]
  }

  ghost predicate AllBelow(regs: seq<MailboxId>, count: nat)
  {
    forall i | 0 <= i < |regs| :: regs[i] < count
  }

  /** The mailboxes after pushing `m` onto each of `regs`, first to last. */
  function Deliver(boxes: seq<seq<Message>>, regs: seq<MailboxId>, m: Message): (r: seq<seq<Message>>)
    requires AllBelow(regs, |boxes|)
    ensures |r| == |boxes|
    ensures forall j | 0 <= j < |boxes| :: boxes[j] <= r[j]
    ensures forall j | 0 <= j < |boxes| :: |r[j]| <= |boxes[j]| + |regs|
    decreases |regs|
  {
    if regs == [] then boxes
    else Enqueue(Deliver(boxes, regs[..|regs| - 1], m), regs[|regs| - 1], m)
  }

  /** `n` copies of `m`. */
  function Copies(m: Message, n: nat): (r: seq<Message>)
    ensures |r| == n && forall i | 0 <= i < n :: r[i] == m
  {
    if n == 0 then [] else Copies(m, n - 1) + [m]
  }

  // ---------------------------------------------------------------------
  // What a broadcast does to each mailbox
  // ---------------------------------------------------------------------

  /** A broadcast appends to each mailbox one copy of the message per
      registration of that mailbox, and nothing else. */
  lemma {:induction false} DeliverAt(boxes: seq<seq<Message>>, regs: seq<MailboxId>, m: Message, j: MailboxId)
    requires AllBelow(regs, |boxes|) && j < |boxes|
    ensures Deliver(boxes, regs, m)[j] == boxes[j] + Copies(m, multiset(regs)[j])
  {
    if regs != [] {
      var front, last := regs[..|regs| - 1], regs[|regs| - 1];
      assert regs == front + [last];
      DeliverAt(boxes, front, m, j);
    }
  }

  /** A mailbox not registered for the topic is left as it was. */
  lemma DeliverSkipsUnregistered(boxes: seq<seq<Message>>, regs: seq<MailboxId>, m: Message, j: MailboxId)
    requires AllBelow(regs, |boxes|) && j < |boxes| && j !in regs
    ensures Deliver(boxes, regs, m)[j] == boxes[j]
  {
    DeliverAt(boxes, regs, m, j);
  }

  /** A topic with no registrations changes no mailbox. */
  lemma DeliverToNobody(boxes: seq<seq<Message>>, m: Message)
    ensures Deliver(boxes, [], m) == boxes
  {
  }

  /** Registering the same mailbox twice is not deduplicated: one broadcast
      then leaves two more copies in it than it had registrations before. */
  lemma RegisterTwiceDeliversTwice(notes: map<string, seq<MailboxId>>, boxes: seq<seq<Message>>,
                                   key: string, id: MailboxId, m: Message)
    requires RegistryValid(notes, |boxes|) && id < |boxes|
    ensures var regs := Registrations(Register(Register(notes, key, id), key, id), key);
            AllBelow(regs, |boxes|) &&
            Deliver(boxes, regs, m)[id] ==
              boxes[id] + Copies(m, multiset(Registrations(notes, key))[id] + 2)
  {
    var before: seq<MailboxId> := Registrations(notes, key);
    var regs: seq<MailboxId> := Registrations(Register(Register(notes, key, id), key, id), key);
    assert regs == before + [id] + [id];
    assert multiset(regs)[id] == multiset(before)[id] + 2;
    DeliverAt(boxes, regs, m, id);
  }

  /** A mailbox registered after a broadcast does not see that broadcast's
      message; it sees only the ones published after its registration. */
  lemma LateSubscriberMissesEarlierMessage(notes: map<string, seq<MailboxId>>, boxes: seq<seq<Message>>,
                                           key: string, id: MailboxId, early: Message, late: Message)
    requires RegistryValid(notes, |boxes|) && id < |boxes| && id !in Registrations(notes, key)
    ensures var regs := Registrations(notes, key);
            var regs' := Registrations(Register(notes, key, id), key);
            AllBelow(regs, |boxes|) && AllBelow(regs', |boxes|) &&
            Deliver(Deliver(boxes, regs, early), regs', late)[id] == boxes[id] + [late]
  {
    var regs: seq<MailboxId> := Registrations(notes, key);
    var regs': seq<MailboxId> := regs + [id];
    DeliverSkipsUnregistered(boxes, regs, early, id);
    var mid := Deliver(boxes, regs, early);
    DeliverAt(mid, regs', late, id);
    assert multiset(regs')[id] == 1;
  }

  // ---------------------------------------------------------------------
  // The bus
  // ---------------------------------------------------------------------

  /** The registry (`notes`) and the mailboxes it refers to. */
  class Bus {
    var notes: map<string, seq<MailboxId>>
    var boxes: seq<seq<Message>>

    ghost predicate Valid()
      reads this
    {
      RegistryValid(notes, |boxes|)
    }

    /** The registry starts out empty. */
    constructor ()
      ensures Valid() && notes == map[] && boxes == []
    {
      notes := map[];
      boxes := [];
    }

    /** A new empty mailbox (`make(chan message, 10)`). */
    method NewMailbox() returns (id: MailboxId)
      requires Valid()
      modifies this
      ensures Valid() && notes == old(notes)
      ensures id == |old(boxes)| && boxes == old(boxes) + [[]]
    {
      id := |boxes|;
      boxes := boxes + [[]];
    }

    /** `kmp(key, ch)`: register mailbox `id` for `key`, at the end. */
    method Kmp(key: string, id: MailboxId)
      requires Valid() && id < |boxes|
      modifies this
      ensures Valid() && boxes == old(boxes)
      ensures notes == Register(old(notes), key, id)
    {
      notes := notes[key := Registrations(notes, key) + [id]];
    }

    /** `notify(key, m)`: push the message onto every mailbox registered for
        `key`, in registration order. The registry is not changed. */
    method Notify(key: string, v: Payload)
      requires Valid()
      modifies this
      ensures Valid() && notes == old(notes)
      ensures AllBelow(Registrations(notes, key), |old(boxes)|)
      ensures boxes == Deliver(old(boxes), Registrations(notes, key), Message(key, v))
    {
      var regs := Registrations(notes, key);
      var m := Message(key, v);
      var i := 0;
      while i < |regs|
        invariant 0 <= i <= |regs|
        invariant notes == old(notes) && AllBelow(regs, |old(boxes)|)
        invariant boxes == Deliver(old(boxes), regs[..i], m)
      {
        assert regs[..i + 1][..i] == regs[..i];
        boxes := Enqueue(boxes, regs[i], m);
        i := i + 1;
      }
      assert regs[..i] == regs;
    }

    /** Take the oldest message of mailbox `id`, if there is one. */
    method Receive(id: MailboxId) returns (m: Option<Message>)
      requires Valid() && id < |boxes|
      modifies this
      ensures Valid() && notes == old(notes) && |boxes| == |old(boxes)|
      ensures old(boxes)[id] == [] ==> m == None && boxes == old(boxes)
      ensures old(boxes)[id] != [] ==>
                m == Some(old(boxes)[id][0]) && boxes == old(boxes)[id := old(boxes)[id][1..]]
    {
      if boxes[id] == [] {
        m := None;
      } else {
        m := Some(boxes[id][0]);
        boxes := boxes[id := boxes[id][1..]];
      }
    }
  }
}
