/** A stay over the chat client: the messages the stay lives on are the ones the client hands out. */
module LodgingChat {
  import opened Wrappers
  import opened LodgingMessages
  import opened LodgingPlan
  import opened LodgingScript
  import opened LodgingTheorems
  import opened LodgingDefault
  import ChatClient

  /** The environment in which the client has made the run `events`. */
  function Over(env: Env, events: seq<ChatClient.Event>): Env {
    env.(inbound := ChatClient.Run(ChatClient.NEW_CLIENT, events).handedOut)
  }

  lemma HandedOutWasRead(events: seq<ChatClient.Event>, n: nat)
    requires n <= |ChatClient.Run(ChatClient.NEW_CLIENT, events).handedOut|
    ensures var c := ChatClient.Run(ChatClient.NEW_CLIENT, events);
            && c.handedOut <= c.read && c.handedOut[..n] <= c.read
            && ChatClient.Ids(c.handedOut[..n]) <= c.attempted
  {
    var c := ChatClient.Run(ChatClient.NEW_CLIENT, events);
    ChatClient.RunIsFifo(events);
    ChatClient.AckedBeforeVisible(events);
    IdsOfBeginning(c.handedOut[..n], c.handedOut + c.pending + c.inboundCh);
  }

  lemma IdsOfBeginning(a: seq<ChatMessage>, b: seq<ChatMessage>)
    requires a <= b
    ensures ChatClient.Ids(a) <= ChatClient.Ids(b)
  {
    assert b == a + b[|a|..];
    FlatMapConcat(a, b[|a|..], ChatClient.MessageIdOf);
  }

  /** Reply `r` answers a request of its kind among `read`, under its correlation id. */
  predicate Answers(r: Reply, read: seq<ChatMessage>) {
    && r.at < |read|
    && read[r.at].payload == SystemRequests(RequestFor(r.response))
    && read[r.at].correlationId == r.correlationId
  }

  lemma DisciplinedReplies(env: Env, s: State, read: seq<ChatMessage>)
    requires Disciplined(env, s) && env.inbound <= read
    ensures forall i :: 0 <= i < |s.replies| ==> Answers(s.replies[i], read)
  {
  }

  /** For every interleaving of reader and caller and every stay, failing or not: the messages the stay consumed
      are the first non-ack messages read from the connection, in order; each of them that has an id had its
      acknowledgement attempted; and each reply answers a request that was read, under its correlation id. */
  lemma StayConsumesWhatWasRead(env: Env, events: seq<ChatClient.Event>, v: Visit)
    ensures var c, chat := ChatClient.Run(ChatClient.NEW_CLIENT, events), Over(env, events);
            var s := Run(chat, START, StayScript(DEFAULT_FLOW, v)).state;
            && chat.inbound[..s.pos] <= c.read
            && ChatClient.Ids(chat.inbound[..s.pos]) <= c.attempted
            && forall i :: 0 <= i < |s.replies| ==> Answers(s.replies[i], c.read)
  {
    var c, chat := ChatClient.Run(ChatClient.NEW_CLIENT, events), Over(env, events);
    var s := Run(chat, START, StayScript(DEFAULT_FLOW, v)).state;
    HandedOutWasRead(events, s.pos);
    ReplyDiscipline(chat, v);
    DisciplinedReplies(chat, s, c.read);
  }

  /** With open time gates and writes that do not fail, the stay succeeds only if its dialogue was read from the
      connection, in order; it is then the earliest such dialogue in all that was read. */
  lemma StayHearsTheEarliestDialogue(env: Env, events: seq<ChatClient.Event>, v: Visit)
    requires Quiet(Over(env, events)) && Run(Over(env, events), START, StayScript(DEFAULT_FLOW, v)).ok
    ensures var c := ChatClient.Run(ChatClient.NEW_CLIENT, events);
            Earliest(HeardAt(Run(Over(env, events), START, StayScript(DEFAULT_FLOW, v)).state.log), Dialogue(v.period), c.read)
  {
    var c, chat := ChatClient.Run(ChatClient.NEW_CLIENT, events), Over(env, events);
    var wants := Dialogue(v.period);
    HandedOutWasRead(events, 0);
    LodgingSucceedsIff(chat, v);
    var at := HeardAt(Run(chat, START, StayScript(DEFAULT_FLOW, v)).state.log);
    forall other | Embeds(other, wants, c.read, 0) ensures forall i :: 0 <= i < |at| ==> at[i] <= other[i] {
      EarliestInPrefix(c.handedOut, c.read, wants, at, other);
    }
  }

  /** What is earliest in a beginning is earliest in the whole. */
  lemma EarliestInPrefix(short: seq<ChatMessage>, long: seq<ChatMessage>, wants: seq<Want>, at: seq<nat>, other: seq<nat>)
    requires short <= long && Embeds(at, wants, short, 0) && Embeds(other, wants, long, 0)
    requires forall e :: Embeds(e, wants, short, 0) ==> forall i :: 0 <= i < |at| ==> at[i] <= e[i]
    ensures forall i :: 0 <= i < |at| ==> at[i] <= other[i]
  {
    GreedyIsEarliest(short, wants, 0, at);
    GreedyEmbeds(short, wants, 0);
    GreedyIsEarliest(long, wants, 0, other);
    GreedyOnPrefix(short, long, wants, 0);
  }

  lemma {:induction false} FirstMatchOnPrefix(short: seq<ChatMessage>, long: seq<ChatMessage>, want: Want, from: nat)
    requires short <= long && from <= |short| && FirstMatch(short, want, from) < |short|
    ensures FirstMatch(long, want, from) == FirstMatch(short, want, from)
    decreases |short| - from
  {
    if !want.Matches(short[from]) {
      FirstMatchOnPrefix(short, long, want, from + 1);
    }
  }

  lemma {:induction false} GreedyOnPrefix(short: seq<ChatMessage>, long: seq<ChatMessage>, wants: seq<Want>, from: nat)
    requires short <= long && from <= |short| && Greedy(short, wants, from).Some?
    ensures Greedy(long, wants, from) == Greedy(short, wants, from)
    decreases |wants|
  {
    if wants != [] {
      var k := FirstMatch(short, wants[0], from);
      FirstMatchOnPrefix(short, long, wants[0], from);
      GreedyOnPrefix(short, long, wants[1..], k + 1);
    }
  }
}
