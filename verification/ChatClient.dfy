/** The WebSocket chat client: a reader goroutine and a caller that share two bounded channels and a
    buffer of set-aside messages. One event is one atomic step of either side; a run is any sequence of
    events, so every interleaving and every choice of a `select` is a run. */
module ChatClient {
  import opened Wrappers
  import opened LodgingMessages

  const CAPACITY := 32

  /** What the reader goroutine holds between reading a frame and passing it on. */
  datatype Hand = Empty | AckInHand(ack: ChatMessage) | Unacknowledged(msg: ChatMessage) | Ready(msg: ChatMessage) | Stopped

  /** Whether the caller is inside `sendAndWaitAck`, and for which message id. */
  datatype Caller = Idle | Awaiting(id: string)

  /** The client's fields, and below them the traces of a run. */
  datatype View = View(
    hand: Hand,
    ackCh: seq<ChatMessage>,
    inboundCh: seq<ChatMessage>,
    failed: bool,                // errCh holds an error
    pending: seq<ChatMessage>,
    caller: Caller,
    read: seq<ChatMessage>,      // non-ack messages read from the connection
    acksRead: seq<ChatMessage>,  // acks read from the connection
    handedOut: seq<ChatMessage>, // messages given to the caller
    attempted: seq<string>,      // ids the reader tried to acknowledge
    sent: seq<string>,           // ids the caller wrote
    acksTaken: seq<ChatMessage>, // acks taken from ackCh
    confirmed: seq<string>,      // ids of sends that returned nil
    confirmedBy: seq<nat>,       // for each of those, the position in acksTaken of the ack that ended it
    gaveUp: bool,                // some send returned an error
    reported: nat)               // times the reader's error was returned to the caller

  const NEW_CLIENT := View(Empty, [], [], false, [], Idle, [], [], [], [], [], [], [], [], false, 0)

  datatype Event =
    // reader goroutine
    | ReadFrame(frame: ChatMessage)  // a decoded frame arrives
    | ReadFails                      // read or decoding error: errCh gets it if empty, the reader ends
    | PassAck                        // ackCh <- ack, blocks while full
    | WriteAck(ok: bool)             // acknowledge the message in hand; a failed write is only logged
    | PassInbound                    // inboundCh <- msg, blocks while full
    // caller
    | Write(id: string, ok: bool)    // first step of SendAction or Reply
    | SelectAck
    | SelectInbound
    | SelectError(cancelled: bool)   // ctx.Done or errCh
    | Next                           // nextMessage hands out a message
    | NextFails(cancelled: bool)     // nextMessage returns an error

  function Acknowledges(m: ChatMessage): string {
    if m.payload.Ack? then m.payload.acknowledges else ""
  }

  predicate Enabled(c: View, e: Event) {
    match e
    case ReadFrame(_) => c.hand.Empty?
    case ReadFails => c.hand.Empty?
    case PassAck => c.hand.AckInHand? && |c.ackCh| < CAPACITY
    case WriteAck(_) => c.hand.Unacknowledged?
    case PassInbound => c.hand.Ready? && |c.inboundCh| < CAPACITY
    case Write(_, _) => c.caller.Idle?
    case SelectAck => c.caller.Awaiting? && c.ackCh != []
    case SelectInbound => c.caller.Awaiting? && c.inboundCh != []
    case SelectError(cancelled) => c.caller.Awaiting? && (cancelled || c.failed)
    case Next => c.caller.Idle? && (c.pending != [] || c.inboundCh != [])
    case NextFails(cancelled) => c.caller.Idle? && c.pending == [] && (cancelled || c.failed)
  }

  function Step(c: View, e: Event): View
    requires Enabled(c, e)
  {
    match e
    case ReadFrame(frame) =>
      if frame.payload.Ack? then c.(hand := AckInHand(frame), acksRead := c.acksRead + [frame])
      else c.(hand := Unacknowledged(frame), read := c.read + [frame])
    case ReadFails => c.(hand := Stopped, failed := true)
    case PassAck => c.(hand := Empty, ackCh := c.ackCh + [c.hand.ack])
    case WriteAck(_) =>
      c.(hand := Ready(c.hand.msg),
         attempted := c.attempted + (if c.hand.msg.messageId == "" then [] else [c.hand.msg.messageId]))
    case PassInbound => c.(hand := Empty, inboundCh := c.inboundCh + [c.hand.msg])
    case Write(id, ok) => if ok then c.(caller := Awaiting(id), sent := c.sent + [id]) else c.(gaveUp := true)
    case SelectAck =>
      var id := Acknowledges(c.ackCh[0]);
      var taken := c.(ackCh := c.ackCh[1..], acksTaken := c.acksTaken + [c.ackCh[0]]);
      if id == c.caller.id then
        taken.(caller := Idle, confirmed := c.confirmed + [id], confirmedBy := c.confirmedBy + [|c.acksTaken|])
      else taken
    case SelectInbound => c.(inboundCh := c.inboundCh[1..], pending := c.pending + [c.inboundCh[0]])
    case SelectError(cancelled) => Reporting(c, cancelled).(caller := Idle, gaveUp := true)
    case Next =>
      if c.pending != [] then c.(pending := c.pending[1..], handedOut := c.handedOut + [c.pending[0]])
      else c.(inboundCh := c.inboundCh[1..], handedOut := c.handedOut + [c.inboundCh[0]])
    case NextFails(cancelled) => Reporting(c, cancelled)
  }

  /** Cancellation leaves the reader's error where it is; else it is taken and returned. */
  function Reporting(c: View, cancelled: bool): View {
    if cancelled then c else c.(failed := false, reported := c.reported + 1)
  }

  /** An event that is not enabled does not happen. */
  function Moved(c: View, e: Event): View {
    if Enabled(c, e) then Step(c, e) else c
  }

  function Run(c: View, events: seq<Event>): View {
    if events == [] then c else Moved(Run(c, events[..|events| - 1]), events[|events| - 1])
  }

  // ---------- first in, first out ----------

  function InHand(c: View): seq<ChatMessage> {
    if c.hand.Unacknowledged? || c.hand.Ready? then [c.hand.msg] else []
  }

  /** What the caller has yet to see, oldest first. */
  function Queue(c: View): seq<ChatMessage> {
    c.pending + c.inboundCh + InHand(c)
  }

  lemma NextDequeues(c: View)
    requires Enabled(c, Next)
    ensures var after := Step(c, Next);
            Queue(c) == [Queue(c)[0]] + Queue(after) && after.handedOut == c.handedOut + [Queue(c)[0]]
  {
    if c.pending != [] {
      assert c.pending == [c.pending[0]] + c.pending[1..];
    } else {
      assert c.inboundCh == [c.inboundCh[0]] + c.inboundCh[1..];
    }
  }

  lemma SettingAsideKeepsQueue(c: View)
    requires Enabled(c, SelectInbound)
    ensures Queue(Step(c, SelectInbound)) == Queue(c)
  {
    assert c.inboundCh == [c.inboundCh[0]] + c.inboundCh[1..];
  }

  /** The abstract queue: reading enqueues, `Next` dequeues the oldest, and nothing else touches it,
      in particular not a caller that sets messages aside while it waits for an acknowledgement. */
  lemma StepRefinesQueue(c: View, e: Event)
    requires Enabled(c, e)
    ensures var after := Step(c, e);
            match e
            case ReadFrame(frame) => Queue(after) == Queue(c) + (if frame.payload.Ack? then [] else [frame])
            case Next => Queue(c) == [Queue(c)[0]] + Queue(after) && after.handedOut == c.handedOut + [Queue(c)[0]]
            case _ => Queue(after) == Queue(c) && after.handedOut == c.handedOut
  {
    if e.Next? {
      NextDequeues(c);
    } else if e.SelectInbound? {
      SettingAsideKeepsQueue(c);
    }
  }

  ghost predicate Fifo(c: View) {
    c.handedOut + Queue(c) == c.read
  }

  lemma StepKeepsFifo(c: View, e: Event)
    requires Enabled(c, e) && Fifo(c)
    ensures Fifo(Step(c, e))
  {
    StepRefinesQueue(c, e);
    if e.ReadFrame? {
      Regroup(c.handedOut, Queue(c), [e.frame]);
    } else if e.Next? {
      Regroup(c.handedOut, [Queue(c)[0]], Queue(Step(c, e)));
    }
  }

  lemma Regroup(a: seq<ChatMessage>, b: seq<ChatMessage>, c: seq<ChatMessage>)
    ensures a + (b + c) == (a + b) + c
  {
  }

  lemma {:induction false} RunKeepsFifo(c: View, events: seq<Event>)
    ensures Fifo(c) ==> Fifo(Run(c, events))
  {
    if events != [] {
      var front, e := events[..|events| - 1], events[|events| - 1];
      RunKeepsFifo(c, front);
      if Fifo(c) && Enabled(Run(c, front), e) {
        StepKeepsFifo(Run(c, front), e);
      }
    }
  }

  predicate Bounded(c: View) {
    |c.inboundCh| <= CAPACITY && |c.ackCh| <= CAPACITY
  }

  /** For every interleaving, what was handed out followed by what is still queued is exactly what was
      read, in order: nothing is lost, repeated or overtaken. Channels stay within their capacity. */
  lemma {:induction false} RunIsFifo(events: seq<Event>)
    ensures Fifo(Run(NEW_CLIENT, events)) && Bounded(Run(NEW_CLIENT, events))
  {
    RunKeepsFifo(NEW_CLIENT, events);
    if events != [] {
      RunIsFifo(events[..|events| - 1]);
    }
  }

  // ---------- nothing gets stuck on the way ----------

  /** The reader passes on the message in its hand. */
  lemma ReadyIsPassed(c: View)
    requires c.hand.Ready? && c.inboundCh == []
    ensures Enabled(c, PassInbound) && Step(c, PassInbound).inboundCh == [c.hand.msg]
    ensures Step(c, PassInbound).caller == c.caller && Queue(Step(c, PassInbound)) == Queue(c)
    ensures Step(c, PassInbound).handedOut == c.handedOut
  {
    StepRefinesQueue(c, PassInbound);
  }

  lemma AckIsTried(c: View)
    requires c.hand.Unacknowledged?
    ensures Enabled(c, WriteAck(true)) && Step(c, WriteAck(true)).hand == Ready(c.hand.msg)
    ensures Step(c, WriteAck(true)).inboundCh == c.inboundCh && Step(c, WriteAck(true)).caller == c.caller
    ensures Queue(Step(c, WriteAck(true))) == Queue(c) && Step(c, WriteAck(true)).handedOut == c.handedOut
  {
    StepRefinesQueue(c, WriteAck(true));
  }

  /** The oldest message the caller has not seen can always be handed out to it next, whatever the reader holds. */
  lemma OldestCanBeHandedOut(c: View) returns (events: seq<Event>)
    requires c.caller.Idle? && Queue(c) != []
    ensures Run(c, events).handedOut == c.handedOut + [Queue(c)[0]]
    ensures forall e :: e in events ==> e.Next? || ReaderEvent(e)
  {
    if c.pending != [] || c.inboundCh != [] {
      events := [] + [Next];
      RunSnoc(c, [], Next);
      NextDequeues(c);
    } else if c.hand.Ready? {
      events := [PassInbound] + [Next];
      PassAndNext(c, [], c);
    } else {
      events := [WriteAck(true)] + [PassInbound] + [Next];
      RunSnoc(c, [], WriteAck(true));
      AckIsTried(c);
      PassAndNext(c, [WriteAck(true)], Step(c, WriteAck(true)));
    }
  }

  lemma PassAndNext(c: View, events: seq<Event>, now: View)
    requires now == Run(c, events) && now.caller.Idle? && now.hand.Ready? && now.inboundCh == []
    ensures Run(c, events + [PassInbound] + [Next]).handedOut == now.handedOut + [Queue(now)[0]]
  {
    RunSnoc(c, events, PassInbound);
    ReadyIsPassed(now);
    RunSnoc(c, events + [PassInbound], Next);
    NextDequeues(Step(now, PassInbound));
  }

  /** A caller that waits for an ack always frees a reader that has a message to pass, by setting messages aside. */
  lemma WaitingCallerFreesReader(c: View) returns (events: seq<Event>)
    requires c.caller.Awaiting? && c.hand.Ready? && Bounded(c)
    ensures var after := Run(c, events); after.hand.Empty? && after.caller == c.caller && Queue(after) == Queue(c)
  {
    if |c.inboundCh| < CAPACITY {
      events := [] + [PassInbound];
      RunSnoc(c, [], PassInbound);
      StepRefinesQueue(c, PassInbound);
    } else {
      events := [SelectInbound] + [PassInbound];
      RunSnoc(c, [], SelectInbound);
      RunSnoc(c, [SelectInbound], PassInbound);
      StepRefinesQueue(c, SelectInbound);
      StepRefinesQueue(Step(c, SelectInbound), PassInbound);
    }
  }

  /** A caller that waits gets its ack as soon as the peer sends it, if no other ack is in the way. */
  lemma AckConfirms(c: View, ack: ChatMessage) returns (events: seq<Event>)
    requires c.caller.Awaiting? && c.hand.Empty? && c.ackCh == [] && ack.payload.Ack? && Acknowledges(ack) == c.caller.id
    ensures var after := Run(c, [ReadFrame(ack)] + events); after.caller.Idle? && after.confirmed == c.confirmed + [c.caller.id]
  {
    events := [PassAck] + [SelectAck];
    RunSnoc(c, [], ReadFrame(ack));
    RunSnoc(c, [ReadFrame(ack)], PassAck);
    RunSnoc(c, [ReadFrame(ack)] + [PassAck], SelectAck);
    assert [ReadFrame(ack)] + events == [ReadFrame(ack)] + [PassAck] + [SelectAck];
  }

  /** The reader's error: it is waiting for the caller, or the caller got it once; and it comes only from a reader
      that has ended. */
  ghost predicate ErrorKept(c: View) {
    (if c.failed then 1 else 0) + c.reported == if c.hand.Stopped? then 1 else 0
  }

  /** An error returned to the caller, unless it is the caller's own cancellation, is the reader's, and it is gone. */
  lemma ErrorIsTaken(c: View, e: Event)
    requires Enabled(c, e) && (e.SelectError? || e.NextFails?)
    ensures !e.cancelled ==> c.failed && !Step(c, e).failed && Step(c, e).reported == c.reported + 1
    ensures e.cancelled ==> Step(c, e).failed == c.failed && Step(c, e).reported == c.reported
    ensures Step(c, e).caller.Idle?
  {
  }

  lemma {:induction false} RunReportsOnce(events: seq<Event>)
    ensures ErrorKept(Run(NEW_CLIENT, events))
  {
    if events != [] {
      RunReportsOnce(events[..|events| - 1]);
    }
  }

  // ---------- automatic acknowledgements ----------

  function Ids(ms: seq<ChatMessage>): seq<string> {
    FlatMap(ms, MessageIdOf)
  }

  function MessageIdOf(m: ChatMessage): seq<string> {
    if m.messageId == "" then [] else [m.messageId]
  }

  /** Messages past their acknowledgement. */
  function Acknowledged(c: View): seq<ChatMessage> {
    if c.hand.Unacknowledged? && c.read != [] then c.read[..|c.read| - 1] else c.read
  }

  ghost predicate AckedOnce(c: View) {
    && c.attempted == Ids(Acknowledged(c))
    && (c.hand.Unacknowledged? ==> c.read != [] && c.read[|c.read| - 1] == c.hand.msg)
  }

  lemma {:induction false} RunAcksOnce(events: seq<Event>)
    ensures AckedOnce(Run(NEW_CLIENT, events))
  {
    if events != [] {
      var front, e := events[..|events| - 1], events[|events| - 1];
      RunAcksOnce(front);
      var c := Run(NEW_CLIENT, front);
      if Enabled(c, e) && e.WriteAck? {
        assert c.read == c.read[..|c.read| - 1] + [c.hand.msg];
        FlatMapConcat(c.read[..|c.read| - 1], [c.hand.msg], MessageIdOf);
        FlatMapOne(c.hand.msg, MessageIdOf);
      }
      if Enabled(c, e) && e.ReadFrame? && !e.frame.payload.Ack? {
        assert (c.read + [e.frame])[..|c.read|] == c.read;
      }
    }
  }

  /** Every message with an id that the caller can see, or that waits where the caller can take it, has
      had its acknowledgement attempted, once and in reading order. */
  lemma AckedBeforeVisible(events: seq<Event>)
    ensures var c := Run(NEW_CLIENT, events); Ids(c.handedOut + c.pending + c.inboundCh) <= c.attempted
  {
    var c := Run(NEW_CLIENT, events);
    RunIsFifo(events);
    RunAcksOnce(events);
    var visible := c.handedOut + c.pending + c.inboundCh;
    assert c.read == visible + InHand(c);
    if c.hand.Unacknowledged? {
      assert Acknowledged(c) == visible;
    } else {
      FlatMapConcat(visible, InHand(c), MessageIdOf);
    }
  }

  // ---------- stop and wait ----------

  function HeldAck(c: View): seq<ChatMessage> {
    if c.hand.AckInHand? then [c.hand.ack] else []
  }

  /** Acks read and not taken yet. */
  function Waiting(c: View): seq<ChatMessage> {
    c.ackCh + HeldAck(c)
  }

  function AckIds(ms: seq<ChatMessage>): seq<string> {
    seq(|ms|, i requires 0 <= i < |ms| => Acknowledges(ms[i]))
  }

  /** While every send so far succeeded, all but the current one are confirmed, in order. */
  ghost predicate OneAtATime(c: View) {
    && (!c.gaveUp ==> c.sent == c.confirmed + (if c.caller.Awaiting? then [c.caller.id] else []))
    && (c.caller.Awaiting? ==> c.sent != [] && c.sent[|c.sent| - 1] == c.caller.id)
  }

  /** Each confirmed send was ended by an ack of its own. */
  ghost predicate OwnAck(c: View) {
    && |c.confirmedBy| == |c.confirmed|
    && (forall i :: 0 <= i < |c.confirmedBy| ==>
          c.confirmedBy[i] < |c.acksTaken| && Acknowledges(c.acksTaken[c.confirmedBy[i]]) == c.confirmed[i])
    && (forall i, j :: 0 <= i < j < |c.confirmedBy| ==> c.confirmedBy[i] < c.confirmedBy[j])
  }

  /** Acks are neither lost on their way nor invented. */
  ghost predicate AcksConserved(c: View) {
    c.acksRead == c.acksTaken + Waiting(c)
  }

  lemma SelectKeepsAcks(c: View)
    requires Enabled(c, SelectAck) && AcksConserved(c)
    ensures AcksConserved(Step(c, SelectAck))
  {
    assert Waiting(c) == [c.ackCh[0]] + Waiting(Step(c, SelectAck));
  }

  lemma StepKeepsAcks(c: View, e: Event)
    requires Enabled(c, e) && AcksConserved(c)
    ensures AcksConserved(Step(c, e))
  {
    match e
    case SelectAck => SelectKeepsAcks(c);
    case ReadFrame(_) =>
    case _ => assert Waiting(Step(c, e)) == Waiting(c);
  }

  lemma StepKeepsOrder(c: View, e: Event)
    requires Enabled(c, e) && OneAtATime(c)
    ensures OneAtATime(Step(c, e))
  {
  }

  lemma StepKeepsOwnAck(c: View, e: Event)
    requires Enabled(c, e) && OwnAck(c)
    ensures OwnAck(Step(c, e))
  {
    var after := Step(c, e);
    if !e.SelectAck? {
      assert (after.confirmedBy, after.confirmed, after.acksTaken) == (c.confirmedBy, c.confirmed, c.acksTaken);
    }
  }

  lemma {:induction false} RunStopsAndWaits(events: seq<Event>)
    ensures var c := Run(NEW_CLIENT, events); OneAtATime(c) && OwnAck(c) && AcksConserved(c)
  {
    if events != [] {
      var front, e := events[..|events| - 1], events[|events| - 1];
      RunStopsAndWaits(front);
      if Enabled(Run(NEW_CLIENT, front), e) {
        StepKeepsAcks(Run(NEW_CLIENT, front), e);
        StepKeepsOrder(Run(NEW_CLIENT, front), e);
        StepKeepsOwnAck(Run(NEW_CLIENT, front), e);
      }
    }
  }

  // ---------- an honest peer ----------

  ghost predicate Distinct(s: seq<string>) {
    forall i, j :: 0 <= i < j < |s| ==> s[i] != s[j]
  }

  /** The caller writes fresh ids, and the peer acknowledges only ids already written. */
  ghost predicate HonestStep(c: View, e: Event) {
    match e
    case Write(id, _) => id !in c.sent
    case ReadFrame(frame) => frame.payload.Ack? ==> Acknowledges(frame) in c.sent
    case _ => true
  }

  ghost predicate Honest(events: seq<Event>) {
    events == [] ||
    var front := events[..|events| - 1];
    Honest(front) && HonestStep(Run(NEW_CLIENT, front), events[|events| - 1])
  }

  lemma {:induction false} HonestIds(events: seq<Event>)
    requires Honest(events)
    ensures var c := Run(NEW_CLIENT, events);
            && Distinct(c.sent)
            && (forall m :: m in c.acksRead ==> Acknowledges(m) in c.sent)
  {
    if events != [] {
      HonestIds(events[..|events| - 1]);
    }
  }

  /** A write starts with no acknowledgement of its id read, queued or taken, so the ack that ends it was
      read after the write: with honest peers success means this very message was acknowledged. */
  lemma FreshWriteHasNoAck(events: seq<Event>, id: string)
    requires Honest(events) && id !in Run(NEW_CLIENT, events).sent
    ensures forall m :: m in Run(NEW_CLIENT, events).acksRead ==> Acknowledges(m) != id
  {
    HonestIds(events);
  }

  /** At most one guest message is unacknowledged at any moment before the first failed send. */
  lemma AtMostOneUnacknowledged(events: seq<Event>, i: nat)
    requires !Run(NEW_CLIENT, events).gaveUp
    requires i < |Run(NEW_CLIENT, events).sent|
    ensures var c := Run(NEW_CLIENT, events);
            c.sent[i] !in AckIds(c.acksTaken) ==> i == |c.sent| - 1 && c.caller == Awaiting(c.sent[i])
  {
    RunStopsAndWaits(events);
    var c := Run(NEW_CLIENT, events);
    if i < |c.confirmed| {
      assert c.sent[i] == c.confirmed[i] == AckIds(c.acksTaken)[c.confirmedBy[i]];
    }
  }

  // ---------- when the reader blocks on an ack ----------

  predicate BlockedOnAck(c: View) {
    c.hand.AckInHand? && !Enabled(c, PassAck)
  }

  /** Exactly when the read loop is stuck on an ack, over every run: if and only if more acks than the channel
      holds have been read beyond those the caller took. */
  lemma BlockedOnAckIff(events: seq<Event>)
    ensures var c := Run(NEW_CLIENT, events); BlockedOnAck(c) <==> |c.acksRead| > |c.acksTaken| + CAPACITY
  {
    RunStopsAndWaits(events);
    RunIsFifo(events);
  }

  /** Only a caller that sends and then takes acks frees it; one that asks for messages does not. */
  lemma StaysBlocked(c: View, e: Event)
    requires BlockedOnAck(c) && c.caller.Idle? && Enabled(c, e) && !e.Write?
    ensures BlockedOnAck(Step(c, e)) && Step(c, e).caller.Idle? && Step(c, e).read == c.read
  {
  }

  function Repeated(m: ChatMessage, n: nat): seq<ChatMessage> {
    seq(n, _ => m)
  }

  /** `n` acks that nobody asked for, each passed on. */
  function Flood(ack: ChatMessage, n: nat): seq<Event> {
    if n == 0 then [] else Flood(ack, n - 1) + [ReadFrame(ack)] + [PassAck]
  }

  lemma {:induction false} FloodFills(ack: ChatMessage, n: nat)
    requires ack.payload.Ack? && n <= CAPACITY
    ensures Run(NEW_CLIENT, Flood(ack, n)) == NEW_CLIENT.(ackCh := Repeated(ack, n), acksRead := Repeated(ack, n))
  {
    if n > 0 {
      FloodFills(ack, n - 1);
      RunSnoc(NEW_CLIENT, Flood(ack, n - 1), ReadFrame(ack));
      RunSnoc(NEW_CLIENT, Flood(ack, n - 1) + [ReadFrame(ack)], PassAck);
      assert Repeated(ack, n) == Repeated(ack, n - 1) + [ack];
    }
  }

  /** A case in point: one more unsolicited ack than the channel holds. */
  lemma UnsolicitedAcksBlock(ack: ChatMessage)
    requires ack.payload.Ack?
    ensures BlockedOnAck(Run(NEW_CLIENT, Flood(ack, CAPACITY) + [ReadFrame(ack)]))
  {
    FloodFills(ack, CAPACITY);
    RunSnoc(NEW_CLIENT, Flood(ack, CAPACITY), ReadFrame(ack));
  }

  lemma WaitingAckIsAwaited(c: View, m: ChatMessage)
    requires OneAtATime(c) && OwnAck(c) && AcksConserved(c) && !c.gaveUp
    requires Distinct(AckIds(c.acksRead)) && (forall a :: a in c.acksRead ==> Acknowledges(a) in c.sent)
    requires m in Waiting(c)
    ensures c.caller == Awaiting(Acknowledges(m))
  {
    var k :| 0 <= k < |Waiting(c)| && Waiting(c)[k] == m;
    var n := |c.acksTaken| + k;
    assert c.acksRead[n] == m && m in c.acksRead;
    assert AckIds(c.acksRead)[n] == Acknowledges(m);
    forall i | 0 <= i < |c.confirmed| ensures c.confirmed[i] != Acknowledges(m) {
      assert AckIds(c.acksRead)[c.confirmedBy[i]] == c.confirmed[i];
    }
  }

  /** With fresh ids and a peer that acknowledges each id at most once and only after it was written, until a
      send fails at most one ack is on its way to the caller, so the read loop never blocks on one. */
  lemma HonestPeerNeverBlocks(events: seq<Event>)
    requires Honest(events) && !Run(NEW_CLIENT, events).gaveUp
    requires Distinct(AckIds(Run(NEW_CLIENT, events).acksRead))
    ensures |Waiting(Run(NEW_CLIENT, events))| <= 1 && !BlockedOnAck(Run(NEW_CLIENT, events))
  {
    var c := Run(NEW_CLIENT, events);
    RunStopsAndWaits(events);
    HonestIds(events);
    if |Waiting(c)| > 1 {
      var n := |c.acksTaken|;
      assert Acknowledges(Waiting(c)[0]) == AckIds(c.acksRead)[n] != AckIds(c.acksRead)[n + 1] == Acknowledges(Waiting(c)[1]);
      WaitingAckIsAwaited(c, Waiting(c)[0]);
      WaitingAckIsAwaited(c, Waiting(c)[1]);
    }
  }

  // ---------- the status of an ack ----------

  /** The message with its ack status, if any, replaced. */
  function Restated(m: ChatMessage, status: AckStatus): ChatMessage {
    if m.payload.Ack? then m.(payload := m.payload.(status := status)) else m
  }

  function RestatedAll(ms: seq<ChatMessage>, status: AckStatus): seq<ChatMessage> {
    seq(|ms|, i requires 0 <= i < |ms| => Restated(ms[i], status))
  }

  function RestatedView(c: View, status: AckStatus): View {
    c.(hand := if c.hand.AckInHand? then AckInHand(Restated(c.hand.ack, status)) else c.hand,
       ackCh := RestatedAll(c.ackCh, status),
       acksRead := RestatedAll(c.acksRead, status),
       acksTaken := RestatedAll(c.acksTaken, status))
  }

  function RestatedEvent(e: Event, status: AckStatus): Event {
    if e.ReadFrame? then ReadFrame(Restated(e.frame, status)) else e
  }

  function RestatedEvents(events: seq<Event>, status: AckStatus): seq<Event> {
    seq(|events|, i requires 0 <= i < |events| => RestatedEvent(events[i], status))
  }

  lemma RestatedSnoc(ms: seq<ChatMessage>, m: ChatMessage, status: AckStatus)
    ensures RestatedAll(ms + [m], status) == RestatedAll(ms, status) + [Restated(m, status)]
  {
  }

  lemma PassIgnoresStatus(c: View, status: AckStatus)
    requires Enabled(c, PassAck)
    ensures Enabled(RestatedView(c, status), PassAck)
    ensures Step(RestatedView(c, status), PassAck) == RestatedView(Step(c, PassAck), status)
  {
    RestatedSnoc(c.ackCh, c.hand.ack, status);
  }

  lemma ReadIgnoresStatus(c: View, frame: ChatMessage, status: AckStatus)
    requires c.hand.Empty?
    ensures Step(RestatedView(c, status), ReadFrame(Restated(frame, status))) == RestatedView(Step(c, ReadFrame(frame)), status)
  {
    RestatedSnoc(c.acksRead, frame, status);
  }

  lemma SelectIgnoresStatus(c: View, status: AckStatus)
    requires Enabled(c, SelectAck)
    ensures Enabled(RestatedView(c, status), SelectAck)
    ensures Step(RestatedView(c, status), SelectAck) == RestatedView(Step(c, SelectAck), status)
  {
    assert RestatedAll(c.ackCh[1..], status) == RestatedAll(c.ackCh, status)[1..];
    assert Acknowledges(RestatedAll(c.ackCh, status)[0]) == Acknowledges(c.ackCh[0]);
    RestatedSnoc(c.acksTaken, c.ackCh[0], status);
  }

  lemma ReaderIgnoresStatus(c: View, e: Event, status: AckStatus)
    requires Enabled(c, e) && (e.ReadFails? || e.WriteAck? || e.PassInbound?)
    ensures Enabled(RestatedView(c, status), e)
    ensures Step(RestatedView(c, status), e) == RestatedView(Step(c, e), status)
  {
  }

  lemma CallerIgnoresStatus(c: View, e: Event, status: AckStatus)
    requires Enabled(c, e) && !ReaderEvent(e) && !e.SelectAck?
    ensures Enabled(RestatedView(c, status), e)
    ensures Step(RestatedView(c, status), e) == RestatedView(Step(c, e), status)
  {
  }

  lemma StepIgnoresStatus(c: View, e: Event, status: AckStatus)
    ensures Enabled(RestatedView(c, status), RestatedEvent(e, status)) == Enabled(c, e)
    ensures Enabled(c, e) ==>
              Step(RestatedView(c, status), RestatedEvent(e, status)) == RestatedView(Step(c, e), status)
  {
    if Enabled(c, e) {
      match e
      case PassAck => PassIgnoresStatus(c, status);
      case SelectAck => SelectIgnoresStatus(c, status);
      case ReadFrame(frame) => ReadIgnoresStatus(c, frame, status);
      case _ =>
        if ReaderEvent(e) {
          ReaderIgnoresStatus(c, e, status);
        } else {
          CallerIgnoresStatus(c, e, status);
        }
    }
  }

  /** The client never reads the status: whatever status the peer puts into its acks, the same run happens.
      So a confirmed send was acknowledged, and that is all it says; a rejection confirms as well. */
  lemma {:induction false} StatusIsNeverRead(events: seq<Event>, status: AckStatus)
    ensures Run(NEW_CLIENT, RestatedEvents(events, status)) == RestatedView(Run(NEW_CLIENT, events), status)
  {
    if events != [] {
      var front, e := events[..|events| - 1], events[|events| - 1];
      StatusIsNeverRead(front, status);
      StepIgnoresStatus(Run(NEW_CLIENT, front), e, status);
      var restated := RestatedEvents(events, status);
      assert restated[..|restated| - 1] == RestatedEvents(front, status);
    }
  }

  // ---------- when a confirmed send was accepted ----------

  /** The ack that ended a confirmed send is the first one read for its id, and while a send waits none of its
      acks has been taken. */
  ghost predicate EndedByFirst(c: View) {
    && |c.confirmedBy| == |c.confirmed|
    && (forall i :: 0 <= i < |c.confirmedBy| ==> c.confirmedBy[i] < |c.acksTaken|)
    && (forall i, k :: 0 <= i < |c.confirmedBy| && 0 <= k < c.confirmedBy[i] ==> Acknowledges(c.acksTaken[k]) != c.confirmed[i])
    && (c.caller.Awaiting? ==> forall k :: 0 <= k < |c.acksTaken| ==> Acknowledges(c.acksTaken[k]) != c.caller.id)
  }

  lemma StepEndsByFirst(c: View, e: Event)
    requires Enabled(c, e) && EndedByFirst(c)
    requires e.Write? ==> forall m :: m in c.acksTaken ==> Acknowledges(m) != e.id
    ensures EndedByFirst(Step(c, e))
  {
    if !e.SelectAck? {
      var after := Step(c, e);
      assert (after.confirmedBy, after.confirmed, after.acksTaken) == (c.confirmedBy, c.confirmed, c.acksTaken);
    }
  }

  lemma {:induction false} RunEndsByFirst(events: seq<Event>)
    requires Honest(events)
    ensures EndedByFirst(Run(NEW_CLIENT, events))
  {
    if events != [] {
      var front, e := events[..|events| - 1], events[|events| - 1];
      RunEndsByFirst(front);
      var c := Run(NEW_CLIENT, front);
      if Enabled(c, e) {
        if e.Write? {
          FreshWriteHasNoAck(front, e.id);
          RunStopsAndWaits(front);
          assert forall m :: m in c.acksTaken ==> m in c.acksRead;
        }
        StepEndsByFirst(c, e);
      }
    }
  }

  /** The first ack the peer sent for `id`. */
  ghost predicate FirstAck(acks: seq<ChatMessage>, id: string, k: nat) {
    && k < |acks| && acks[k].payload.Ack? && Acknowledges(acks[k]) == id
    && forall j :: 0 <= j < k ==> Acknowledges(acks[j]) != id
  }

  /** The peer accepted confirmed send `i`: the ack that ended it says so. */
  ghost predicate WasAccepted(c: View, i: nat)
    requires i < |c.confirmedBy| == |c.confirmed| && c.confirmedBy[i] < |c.acksTaken|
  {
    c.acksTaken[c.confirmedBy[i]].payload == Ack(c.confirmed[i], Accepted)
  }

  lemma {:induction false} AcksReadAreAcks(events: seq<Event>)
    ensures forall m :: m in Run(NEW_CLIENT, events).acksRead ==> m.payload.Ack?
  {
    if events != [] {
      AcksReadAreAcks(events[..|events| - 1]);
    }
  }

  /** Exactly when a confirmed send was accepted: with fresh ids and a peer that acknowledges only ids already
      written, if and only if the first ack the peer sent for it says accepted. */
  lemma AcceptedIff(events: seq<Event>, i: nat)
    requires Honest(events) && i < |Run(NEW_CLIENT, events).confirmed|
    ensures var c := Run(NEW_CLIENT, events);
            && |c.confirmedBy| == |c.confirmed| && c.confirmedBy[i] < |c.acksTaken|
            && FirstAck(c.acksRead, c.confirmed[i], c.confirmedBy[i])
            && (WasAccepted(c, i) <==> exists k: nat :: FirstAck(c.acksRead, c.confirmed[i], k) && c.acksRead[k].payload.status == Accepted)
  {
    var c := Run(NEW_CLIENT, events);
    RunStopsAndWaits(events);
    RunEndsByFirst(events);
    AcksReadAreAcks(events);
    var k := c.confirmedBy[i];
    assert c.acksRead[k] == c.acksTaken[k] && c.acksRead[k] in c.acksRead;
    assert FirstAck(c.acksRead, c.confirmed[i], k);
    if WasAccepted(c, i) {
      assert c.acksRead[k].payload.status == Accepted;
    }
    forall n: nat | FirstAck(c.acksRead, c.confirmed[i], n) ensures n == k {
    }
  }

  /** An ack of any status confirms a send, a rejection too. */
  lemma AnyStatusConfirms(id: string, status: AckStatus)
    ensures Run(NEW_CLIENT, [Write(id, true), ReadFrame(ChatMessage("", id, Ack(id, status))), PassAck, SelectAck]).confirmed == [id]
  {
    var frame := ReadFrame(ChatMessage("", id, Ack(id, status)));
    RunSnoc(NEW_CLIENT, [], Write(id, true));
    RunSnoc(NEW_CLIENT, [Write(id, true)], frame);
    RunSnoc(NEW_CLIENT, [Write(id, true)] + [frame], PassAck);
    RunSnoc(NEW_CLIENT, [Write(id, true)] + [frame] + [PassAck], SelectAck);
    assert [Write(id, true), frame, PassAck, SelectAck] == [] + [Write(id, true)] + [frame] + [PassAck] + [SelectAck];
  }

  // ---------- the client's own loops ----------

  datatype NextResult = Handed(msg: ChatMessage) | NextError | NothingYet

  datatype SendResult = Acked | SendError | StillWaiting

  predicate ReaderEvent(e: Event) {
    e.ReadFrame? || e.ReadFails? || e.PassAck? || e.WriteAck? || e.PassInbound?
  }

  lemma RunSnoc(c: View, events: seq<Event>, e: Event)
    ensures Run(c, events + [e]) == Moved(Run(c, events), e)
  {
    assert (events + [e])[..|events|] == events;
  }

  class Client {
    var view: View

    constructor ()
      ensures view == NEW_CLIENT
    {
      view := NEW_CLIENT;
    }

    /** One step of the read loop: only a frame that is not an ack joins the caller's queue, at its end, and
        nothing that concerns the caller changes. */
    method Read(e: Event)
      requires ReaderEvent(e) && Enabled(view, e)
      modifies this
      ensures view == Step(old(view), e)
      ensures Queue(view) == Queue(old(view)) + (if e.ReadFrame? && !e.frame.payload.Ack? then [e.frame] else [])
      ensures view.caller == old(view).caller && view.handedOut == old(view).handedOut && view.pending == old(view).pending
    {
      StepRefinesQueue(view, e);
      match e
      case ReadFrame(frame) =>
        if frame.payload.Ack? {
          view := view.(hand := AckInHand(frame), acksRead := view.acksRead + [frame]);
        } else {
          view := view.(hand := Unacknowledged(frame), read := view.read + [frame]);
        }
      case ReadFails =>
        view := view.(hand := Stopped, failed := true);
      case PassAck =>
        view := view.(hand := Empty, ackCh := view.ackCh + [view.hand.ack]);
      case WriteAck(_) =>
        if view.hand.msg.messageId != "" {
          view := view.(attempted := view.attempted + [view.hand.msg.messageId]);
        }
        view := view.(hand := Ready(view.hand.msg));
      case PassInbound =>
        view := view.(hand := Empty, inboundCh := view.inboundCh + [view.hand.msg]);
    }

    /** One turn of the select loop of a send, or of the reader beside it. */
    method SelectOnce(id: string, e: Event) returns (r: SendResult)
      requires view.caller == Awaiting(id)
      modifies this
      ensures view == Moved(old(view), e)
      ensures r == SendVerdict(old(view), id, e)
      ensures view.handedOut == old(view).handedOut
      ensures view.confirmed == old(view).confirmed + (if r.Acked? then [id] else [])
      ensures r.SendError? ==> view.gaveUp
      ensures if r.StillWaiting? then view.caller == Awaiting(id) else view.caller.Idle?
    {
      r := StillWaiting;
      if ReaderEvent(e) && Enabled(view, e) {
        Read(e);
      } else if e.SelectError? && (e.cancelled || view.failed) {
        view := (if e.cancelled then view else view.(failed := false, reported := view.reported + 1)).(caller := Idle, gaveUp := true);
        r := SendError;
      } else if e.SelectAck? && view.ackCh != [] {
        var ack := view.ackCh[0];
        view := view.(ackCh := view.ackCh[1..], acksTaken := view.acksTaken + [ack]);
        if Acknowledges(ack) == id {
          view := view.(caller := Idle, confirmed := view.confirmed + [id], confirmedBy := view.confirmedBy + [|view.acksTaken| - 1]);
          r := Acked;
        }
      } else if e.SelectInbound? && view.inboundCh != [] {
        view := view.(pending := view.pending + [view.inboundCh[0]], inboundCh := view.inboundCh[1..]);
      }
    }

    /** Writes, then selects until its own ack arrives, setting inbound messages aside. The schedule says which side
        moves next and what the select picks; the call follows it, `n` events far. */
    method SendAndWaitAck(id: string, ok: bool, schedule: seq<Event>) returns (r: SendResult, ghost n: nat)
      requires view.caller.Idle?
      modifies this
      ensures n <= |schedule| && view == Run(old(view), [Write(id, ok)] + schedule[..n])
      ensures if ok then SendEnds(old(view), id, schedule, r) else r.SendError?
      ensures r.StillWaiting? ==> n == |schedule|
      ensures view.handedOut == old(view).handedOut
      ensures view.confirmed == old(view).confirmed + (if r.Acked? then [id] else [])
      ensures r.SendError? ==> view.gaveUp
      ensures if r.StillWaiting? then view.caller == Awaiting(id) else view.caller.Idle?
    {
      n := 0;
      assert [Write(id, ok)] + schedule[..0] == [] + [Write(id, ok)];
      RunSnoc(view, [], Write(id, ok));
      if !ok {
        view := view.(gaveUp := true);
        return SendError, 0;
      }
      view := view.(caller := Awaiting(id), sent := view.sent + [id]);
      for i := 0 to |schedule|
        invariant n == i && view == SentAfter(old(view), id, schedule, i) && Sending(old(view), id, schedule, i)
        invariant view.handedOut == old(view).handedOut && view.confirmed == old(view).confirmed
      {
        SentSnoc(old(view), id, schedule, i);
        r := SelectOnce(id, schedule[i]);
        n := i + 1;
        if !r.StillWaiting? {
          SendEndsAt(old(view), id, schedule, i);
          return;
        }
      }
      NoEnd(old(view), id, schedule);
      r := StillWaiting;
    }

    /** One turn of a caller asking for the next message, with nothing set aside, or of the reader beside it. */
    method AskOnce(e: Event) returns (r: NextResult)
      requires view.caller.Idle? && view.pending == [] && NextEvent(e)
      modifies this
      ensures view == Moved(old(view), e) && view.caller.Idle? && view.pending == []
      ensures r == NextVerdict(old(view), e)
      ensures view.handedOut == old(view).handedOut + (if r.Handed? then [r.msg] else [])
    {
      r := NothingYet;
      if e.NextFails? && (e.cancelled || view.failed) {
        view := if e.cancelled then view else view.(failed := false, reported := view.reported + 1);
        r := NextError;
      } else if e.Next? && view.inboundCh != [] {
        r := Handed(view.inboundCh[0]);
        view := view.(inboundCh := view.inboundCh[1..], handedOut := view.handedOut + [view.inboundCh[0]]);
      } else if ReaderEvent(e) && Enabled(view, e) {
        Read(e);
      }
    }

    /** Selects between an error and the channel until it gets either, `n` events far. */
    method Ask(events: seq<Event>) returns (r: NextResult, ghost n: nat)
      requires view.caller.Idle? && view.pending == []
      requires forall i :: 0 <= i < |events| ==> NextEvent(events[i])
      modifies this
      ensures n <= |events| && view == Run(old(view), events[..n]) && view.caller.Idle?
      ensures AskEnds(old(view), events, r) && (r.NothingYet? ==> n == |events|)
      ensures view.handedOut == old(view).handedOut + (if r.Handed? then [r.msg] else [])
    {
      n := 0;
      for i := 0 to |events|
        invariant n == i && view == Run(old(view), events[..i]) && view.caller.Idle? && view.pending == []
        invariant view.handedOut == old(view).handedOut && Asking(old(view), events, i)
      {
        AskSnoc(old(view), events, i);
        r := AskOnce(events[i]);
        n := i + 1;
        if !r.NothingYet? {
          AskEndsAt(old(view), events, i);
          return;
        }
      }
      assert events[..|events|] == events;
      r := NothingYet;
    }

    /** Set-aside messages first; else the select, while the reader goes on as scheduled. `n` tells how far the call
        followed the events that concern it. */
    method NextMessage(schedule: seq<Event>) returns (r: NextResult, ghost n: nat)
      requires view.caller.Idle?
      modifies this
      ensures old(view).pending != [] ==> r == Handed(old(view).pending[0]) && view == Step(old(view), Next)
      ensures old(view).pending == [] ==>
                && n <= |NextEvents(schedule)| && view == Run(old(view), NextEvents(schedule)[..n])
                && AskEnds(old(view), NextEvents(schedule), r)
                && (r.NothingYet? ==> n == |NextEvents(schedule)|)
      ensures view.caller.Idle?
      ensures view.handedOut == old(view).handedOut + (if r.Handed? then [r.msg] else [])
      ensures Fifo(old(view)) ==> Fifo(view) && (r.Handed? ==> view.read[|old(view).handedOut|] == r.msg)
    {
      if |view.pending| > 0 {
        r, n := Handed(view.pending[0]), 0;
        if Fifo(view) {
          StepKeepsFifo(view, Next);
        }
        view := view.(pending := view.pending[1..], handedOut := view.handedOut + [view.pending[0]]);
      } else {
        var events := NextEvents(schedule);
        OnlyNextEvents(schedule);
        r, n := Ask(events);
        RunKeepsFifo(old(view), events[..n]);
      }
    }
  }

  // ---------- how a call ends ----------

  /** What one event means to a send that waits. */
  function SendVerdict(c: View, id: string, e: Event): SendResult {
    if e.SelectAck? && c.ackCh != [] && Acknowledges(c.ackCh[0]) == id then Acked
    else if e.SelectError? && (e.cancelled || c.failed) then SendError
    else StillWaiting
  }

  /** What one event means to a caller that asks for the next message. */
  function NextVerdict(c: View, e: Event): NextResult {
    if e.Next? && c.inboundCh != [] then Handed(c.inboundCh[0])
    else if e.NextFails? && (e.cancelled || c.failed) then NextError
    else NothingYet
  }

  /** The client after a write of `id` and the first k events of the schedule. */
  ghost function SentAfter(c: View, id: string, schedule: seq<Event>, k: nat): View
    requires k <= |schedule|
  {
    Run(c, [Write(id, true)] + schedule[..k])
  }

  /** The send is still waiting after the first k events. */
  ghost predicate Sending(c: View, id: string, schedule: seq<Event>, k: nat) {
    k <= |schedule| && forall j: nat :: j <= k ==> SentAfter(c, id, schedule, j).caller == Awaiting(id)
  }

  /** Event k makes the select take an ack for `id`. */
  ghost predicate AckComes(c: View, id: string, schedule: seq<Event>, k: nat) {
    k < |schedule| && schedule[k].SelectAck? &&
    var acks := SentAfter(c, id, schedule, k).ackCh; acks != [] && Acknowledges(acks[0]) == id
  }

  /** Event k makes the select pick the end of the context or the reader's error. */
  ghost predicate ErrorComes(c: View, id: string, schedule: seq<Event>, k: nat) {
    k < |schedule| && schedule[k].SelectError? && (schedule[k].cancelled || SentAfter(c, id, schedule, k).failed)
  }

  lemma SentSnoc(c: View, id: string, schedule: seq<Event>, k: nat)
    requires k < |schedule|
    ensures var before := SentAfter(c, id, schedule, k);
            SentAfter(c, id, schedule, k + 1) == Moved(before, schedule[k])
  {
    assert [Write(id, true)] + schedule[..k + 1] == ([Write(id, true)] + schedule[..k]) + [schedule[k]];
    RunSnoc(c, [Write(id, true)] + schedule[..k], schedule[k]);
  }

  /** How a send ends: acknowledged exactly if, while it waits, the select takes an ack for its id; with an error
      exactly if, while it waits, the select picks one; else it still waits when the schedule is over. */
  ghost predicate SendEnds(c: View, id: string, schedule: seq<Event>, r: SendResult) {
    && (r.Acked? <==> exists k: nat :: Sending(c, id, schedule, k) && AckComes(c, id, schedule, k))
    && (r.SendError? <==> exists k: nat :: Sending(c, id, schedule, k) && ErrorComes(c, id, schedule, k))
    && (r.StillWaiting? <==> Sending(c, id, schedule, |schedule|))
  }

  lemma SendStops(c: View, id: string, schedule: seq<Event>, k: nat)
    requires Sending(c, id, schedule, k) && (AckComes(c, id, schedule, k) || ErrorComes(c, id, schedule, k))
    ensures forall i: nat :: Sending(c, id, schedule, i) ==> i <= k
  {
    SentSnoc(c, id, schedule, k);
    assert SentAfter(c, id, schedule, k + 1).caller.Idle?;
  }

  lemma SendEndsAt(c: View, id: string, schedule: seq<Event>, i: nat)
    requires i < |schedule| && Sending(c, id, schedule, i)
    requires !SendVerdict(SentAfter(c, id, schedule, i), id, schedule[i]).StillWaiting?
    ensures SendEnds(c, id, schedule, SendVerdict(SentAfter(c, id, schedule, i), id, schedule[i]))
  {
    SendStops(c, id, schedule, i);
    forall k: nat | Sending(c, id, schedule, k) && (AckComes(c, id, schedule, k) || ErrorComes(c, id, schedule, k)) ensures k == i {
      SendStops(c, id, schedule, k);
    }
  }

  lemma NoEnd(c: View, id: string, schedule: seq<Event>)
    requires Sending(c, id, schedule, |schedule|)
    ensures SendEnds(c, id, schedule, StillWaiting)
  {
    forall k: nat | Sending(c, id, schedule, k) && (AckComes(c, id, schedule, k) || ErrorComes(c, id, schedule, k)) ensures false {
      SendStops(c, id, schedule, k);
    }
  }

  predicate NextEvent(e: Event) {
    ReaderEvent(e) || e.Next? || e.NextFails?
  }

  function IfNext(e: Event): seq<Event> {
    if NextEvent(e) then [e] else []
  }

  /** The events that concern a caller asking for the next message. */
  function NextEvents(schedule: seq<Event>): seq<Event> {
    FlatMap(schedule, IfNext)
  }

  lemma {:induction false} OnlyNextEvents(schedule: seq<Event>)
    ensures forall i :: 0 <= i < |NextEvents(schedule)| ==> NextEvent(NextEvents(schedule)[i])
  {
    if schedule != [] {
      OnlyNextEvents(schedule[1..]);
      assert NextEvents(schedule) == IfNext(schedule[0]) + NextEvents(schedule[1..]);
    }
  }

  /** Event k makes the select hand out a message, or pick an error. */
  ghost predicate HandsOut(c: View, kept: seq<Event>, k: nat) {
    k < |kept| && kept[k].Next? && Run(c, kept[..k]).inboundCh != []
  }

  ghost predicate Refuses(c: View, kept: seq<Event>, k: nat) {
    k < |kept| && kept[k].NextFails? && (kept[k].cancelled || Run(c, kept[..k]).failed)
  }

  /** The call is still waiting after the first k events. */
  ghost predicate Asking(c: View, kept: seq<Event>, k: nat) {
    k <= |kept| && forall j: nat :: j < k ==> !HandsOut(c, kept, j) && !Refuses(c, kept, j)
  }

  /** How a call for the next message ends: with a message exactly if the select picks the channel first, with an
      error exactly if it picks one first; else it still waits when the schedule is over. */
  ghost predicate AskEnds(c: View, kept: seq<Event>, r: NextResult) {
    && (r.Handed? <==> exists k: nat :: Asking(c, kept, k) && HandsOut(c, kept, k))
    && (r.NextError? <==> exists k: nat :: Asking(c, kept, k) && Refuses(c, kept, k))
    && (r.NothingYet? <==> Asking(c, kept, |kept|))
  }

  lemma AskSnoc(c: View, kept: seq<Event>, i: nat)
    requires i < |kept| && Asking(c, kept, i)
    ensures Run(c, kept[..i + 1]) == Moved(Run(c, kept[..i]), kept[i])
    ensures NextVerdict(Run(c, kept[..i]), kept[i]).NothingYet? ==> Asking(c, kept, i + 1)
  {
    assert kept[..i + 1] == kept[..i] + [kept[i]];
    RunSnoc(c, kept[..i], kept[i]);
  }

  lemma AskEndsAt(c: View, kept: seq<Event>, i: nat)
    requires i < |kept| && Asking(c, kept, i) && !NextVerdict(Run(c, kept[..i]), kept[i]).NothingYet?
    ensures AskEnds(c, kept, NextVerdict(Run(c, kept[..i]), kept[i]))
  {
    assert HandsOut(c, kept, i) || Refuses(c, kept, i);
    forall k: nat | Asking(c, kept, k) && (HandsOut(c, kept, k) || Refuses(c, kept, k)) ensures k == i {
    }
  }
}
