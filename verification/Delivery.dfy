/**
 * Nothing is lost, reordered or repeated on the shared connection: a ledger of everything ever sent
 * in either direction, written without looking at the queues, accounts for all that is in them.
 */
module Delivery {
  import opened Wrappers
  import opened Protocol
  import opened Multiplex
  import Router

  /**
   * `sent` and `log` hold all messages ever sent towards the agent and towards the gateway, `frames`
   * what of the former reached the router; `since` says how much of the log had been dispatched when
   * a session last connected.
   */
  datatype Ledger = Ledger(
    sent: seq<Message>,
    handled: nat,
    frames: seq<Router.Frame>,
    streams: map<ChannelId, seq<Stream>>,
    log: seq<Message>,
    dispatched: nat,
    since: map<string, nat>)

  const BLANK := Ledger([], 0, [], map[], [], 0, map[])

  /** A session's message as the agent receives it. */
  function OnWire(p: string, m: Message): Message {
    if m.Open? || m.Data? || m.Control? || m.Close? then OnChannel(m, p + "-" + m.channel) else m
  }

  /** The frame reaches the router, whose replies are logged; a stream may start. */
  function Taken(reg: Router.Registry, l: Ledger, f: Router.Frame): Ledger {
    var replies := Router.Step(reg, Router.Run(reg, l.frames).state, f.msg, f.world).replies;
    var starts := f.msg.Open? && f.msg.options.payload in reg && reg[f.msg.options.payload].streaming;
    l.(handled := l.handled + 1, frames := l.frames + [f], log := l.log + replies,
       streams := if starts then
                    l.streams[f.msg.channel := StreamsOn(l.streams, f.msg.channel) + [Stream(f.msg.options, [])]]
                  else l.streams)
  }

  /** A stream's first message says it is ready, the others are what its handler emits. */
  function Emitted(reg: Router.Registry, l: Ledger, c: ChannelId, k: nat, w: Router.World): Ledger
    requires k < |StreamsOn(l.streams, c)|
    requires StreamsOn(l.streams, c)[k].options.payload in reg
  {
    var ss := StreamsOn(l.streams, c);
    var worlds := ss[k].worlds + [w];
    var m := if |worlds| == 1 then Ready(c) else reg[ss[k].options.payload].emit(c, ss[k].options, worlds);
    l.(log := l.log + [m], streams := l.streams[c := ss[k := Stream(ss[k].options, worlds)]])
  }

  predicate StreamsRegistered(reg: Router.Registry, streams: map<ChannelId, seq<Stream>>) {
    forall c, k :: c in streams && 0 <= k < |streams[c]| ==> streams[c][k].options.payload in reg
  }

  function Next(reg: Router.Registry, l: Ledger, e: Event): (l': Ledger)
    requires StreamsRegistered(reg, l.streams)
    ensures StreamsRegistered(reg, l'.streams)
  {
    match e
    case Connect(p) => l.(since := l.since[p := l.dispatched])
    case Send(p, msg) => l.(sent := l.sent + [OnWire(p, msg)])
    case AgentHandle(w) =>
      if l.handled >= |l.sent| then l
      else if WireOk(l.sent[l.handled]) then Taken(reg, l, Router.Frame(l.sent[l.handled], w))
      else l.(handled := l.handled + 1)
    case StreamEmit(c, k, w) => if k < |StreamsOn(l.streams, c)| then Emitted(reg, l, c, k, w) else l
    case Dispatch => if l.dispatched < |l.log| then l.(dispatched := l.dispatched + 1) else l
  }

  function Kept(reg: Router.Registry, l: Ledger, es: seq<Event>): (l': Ledger)
    requires StreamsRegistered(reg, l.streams)
    ensures StreamsRegistered(reg, l'.streams)
    decreases es
  {
    if es == [] then l else Kept(reg, Next(reg, l, es[0]), es[1..])
  }

  /** What the session with prefix `p` should get of one message, with the id it wrote. */
  ghost function Part(frame: Message, p: string): seq<Message> {
    if m :| Carries(frame, p, m) then [m] else []
  }

  /** And of many. */
  ghost function Received(ms: seq<Message>, p: string): seq<Message> {
    if ms == [] then []
    else Received(ms[..|ms| - 1], p) + Part(ms[|ms| - 1], p)
  }

  /** The messages of these that deserialise. */
  function Readable(ms: seq<Message>): seq<Message> {
    if ms == [] then []
    else Readable(ms[..|ms| - 1]) + if WireOk(ms[|ms| - 1]) then [ms[|ms| - 1]] else []
  }

  function Messages(frames: seq<Router.Frame>): seq<Message> {
    seq(|frames|, i requires 0 <= i < |frames| => frames[i].msg)
  }

  /** The frames that reached the router are what was readable of the messages taken. */
  ghost predicate FramesMatch(l: Ledger)
    requires l.handled <= |l.sent|
  {
    Messages(l.frames) == Readable(l.sent[..l.handled])
  }

  ghost predicate AgentSide(reg: Router.Registry, s: System, l: Ledger) {
    && l.handled <= |l.sent| && s.toAgent == l.sent[l.handled..]
    && FramesMatch(l)
    && s.router == Router.Run(reg, l.frames).state
    && s.streams == l.streams && StreamsRegistered(reg, l.streams)
  }

  ghost predicate InboxesHold(inboxes: map<string, seq<Message>>, l: Ledger)
    requires l.dispatched <= |l.log|
  {
    && inboxes.Keys == l.since.Keys
    && forall p | p in inboxes :: l.since[p] <= l.dispatched && inboxes[p] == Received(l.log[l.since[p]..l.dispatched], p)
  }

  ghost predicate GatewaySide(s: System, l: Ledger) {
    && l.dispatched <= |l.log| && s.toGateway == l.log[l.dispatched..]
    && InboxesHold(s.inboxes, l)
  }

  /**
   * The ledger accounts for the whole system: the agent has handled a front of all that was sent, in
   * order; the router is where these frames bring it; what is still queued is the rest; and every
   * session's inbox holds exactly its part of what was dispatched since it connected, in order.
   */
  ghost predicate Accounts(reg: Router.Registry, s: System, l: Ledger) {
    AgentSide(reg, s, l) && GatewaySide(s, l)
  }

  // ----- Every step keeps the account -----

  lemma OnWireIsPrefixed(p: string, m: Message)
    ensures OnWire(p, m) == PrefixMessage(m, p)
  {
  }

  lemma TakeOne(ms: seq<Message>, n: nat)
    requires n < |ms|
    ensures ms[..n + 1] == ms[..n] + [ms[n]] && ms[n..] == [ms[n]] + ms[n + 1..]
  {
  }

  lemma ReadableTake(ms: seq<Message>, n: nat)
    requires n < |ms|
    ensures Readable(ms[..n + 1]) == Readable(ms[..n]) + if WireOk(ms[n]) then [ms[n]] else []
  {
    TakeOne(ms, n);
    assert (ms[..n] + [ms[n]])[..n] == ms[..n];
  }

  lemma ReceivedTake(ms: seq<Message>, i: nat, n: nat, p: string)
    requires i <= n < |ms|
    ensures Received(ms[i..n + 1], p) == Received(ms[i..n], p) + Part(ms[n], p)
  {
    var taken := ms[i..n + 1];
    assert taken[..|taken| - 1] == ms[i..n] && taken[|taken| - 1] == ms[n];
  }

  lemma CarriedIsOne(frame: Message, p: string, m: Message, q: string, n: Message)
    requires Carries(frame, p, m) && Carries(frame, q, n)
    ensures p == q && m == n
  {
    var c := frame.channel;
    assert c[..SESSION_PREFIX_LEN] == p && c[..SESSION_PREFIX_LEN] == q;
    assert c[SESSION_PREFIX_LEN + 1..] == m.channel && c[SESSION_PREFIX_LEN + 1..] == n.channel;
  }

  lemma MessagesPush(frames: seq<Router.Frame>, f: Router.Frame)
    ensures Messages(frames + [f]) == Messages(frames) + [f.msg]
  {
  }

  lemma SendAccounts(reg: Router.Registry, s: System, l: Ledger, p: string, msg: Message)
    requires Router.Registered(reg, s.router) && AgentSide(reg, s, l)
    ensures AgentSide(reg, Step(reg, s, Send(p, msg)), Next(reg, l, Send(p, msg)))
  {
    OnWireIsPrefixed(p, msg);
    var l' := Next(reg, l, Send(p, msg));
    assert l'.sent[..l.handled] == l.sent[..l.handled];
    assert l'.sent[l.handled..] == l.sent[l.handled..] + [OnWire(p, msg)];
    hide OnWire, PrefixMessage, Messages, Readable;
  }

  lemma RunTakes(reg: Router.Registry, frames: seq<Router.Frame>, f: Router.Frame)
    ensures Router.Run(reg, frames + [f]).state == Router.Step(reg, Router.Run(reg, frames).state, f.msg, f.world).state
  {
    assert (frames + [f])[..|frames|] == frames;
  }

  lemma TakeMatches(reg: Router.Registry, l: Ledger, w: Router.World)
    requires StreamsRegistered(reg, l.streams) && l.handled < |l.sent| && FramesMatch(l)
    ensures var l' := Next(reg, l, AgentHandle(w));
            l'.sent == l.sent && l'.handled == l.handled + 1 && FramesMatch(l')
  {
    ReadableTake(l.sent, l.handled);
    hide Readable, Router.Run, Router.Step;
    if WireOk(l.sent[l.handled]) {
      MessagesPush(l.frames, Router.Frame(l.sent[l.handled], w));
    }
    hide Messages, WireOk;
  }

  lemma HandleAccounts(reg: Router.Registry, s: System, l: Ledger, w: Router.World)
    requires Router.Registered(reg, s.router) && AgentSide(reg, s, l)
    ensures var e := AgentHandle(w); AgentSide(reg, Step(reg, s, e), Next(reg, l, e))
  {
    hide FramesMatch, StreamsRegistered, WireOk, Router.Run, Router.Step, Router.Registered;
    if l.handled < |l.sent| {
      var m := l.sent[l.handled];
      TakeOne(l.sent, l.handled);
      TakeMatches(reg, l, w);
      assert s.toAgent[0] == m && s.toAgent[1..] == l.sent[l.handled + 1..];
      RunTakes(reg, l.frames, Router.Frame(m, w));
      StartsStream(reg, s.router, Router.Frame(m, w));
    }
  }

  lemma StartsStream(reg: Router.Registry, r: Router.State, f: Router.Frame)
    requires Router.Registered(reg, r)
    ensures var starts := f.msg.Open? && f.msg.options.payload in reg && reg[f.msg.options.payload].streaming;
            Router.Step(reg, r, f.msg, f.world).spawned
            == if starts then Some(Router.Spawn(f.msg.channel, f.msg.options)) else None
  {
  }

  lemma EmitAccounts(reg: Router.Registry, s: System, l: Ledger, c: ChannelId, k: nat, w: Router.World)
    requires Router.Registered(reg, s.router) && AgentSide(reg, s, l)
    ensures var e := StreamEmit(c, k, w); AgentSide(reg, Step(reg, s, e), Next(reg, l, e))
  {
    hide Messages, Readable, Router.Run;
  }

  /** What the step adds to the gateway's queue is what the ledger logs. */
  lemma LogsReplies(reg: Router.Registry, s: System, l: Ledger, e: Event)
    requires Router.Registered(reg, s.router) && Accounts(reg, s, l) && (e.AgentHandle? || e.StreamEmit?)
    ensures GatewaySide(Step(reg, s, e), Next(reg, l, e))
  {
    LogGrows(reg, s, l, e);
    LeavesInboxes(reg, s, l, e);
    hide Step, Next, AgentSide, InboxesHold;
    InboxesStillHold(s.inboxes, l, Next(reg, l, e));
  }

  lemma LeavesInboxes(reg: Router.Registry, s: System, l: Ledger, e: Event)
    requires Router.Registered(reg, s.router) && StreamsRegistered(reg, l.streams) && (e.AgentHandle? || e.StreamEmit?)
    ensures var l' := Next(reg, l, e);
            l'.dispatched == l.dispatched && l'.since == l.since && Step(reg, s, e).inboxes == s.inboxes
  {
    hide Router.Step, Router.Run, Spawned;
  }

  lemma InboxesStillHold(inboxes: map<string, seq<Message>>, l: Ledger, l': Ledger)
    requires l.dispatched <= |l.log| <= |l'.log| && l'.log[..|l.log|] == l.log && InboxesHold(inboxes, l)
    requires l'.dispatched == l.dispatched && l'.since == l.since
    ensures InboxesHold(inboxes, l')
  {
    hide Received;
    forall p | p in inboxes
      ensures l'.since[p] <= l'.dispatched && inboxes[p] == Received(l'.log[l'.since[p]..l'.dispatched], p)
    {
      var i, n := l.since[p], l.dispatched;
      assert i <= n && inboxes[p] == Received(l.log[i..n], p);
      SlicePrefix(l'.log, |l.log|, i, n);
    }
  }

  lemma SlicePrefix(log: seq<Message>, m: nat, i: nat, n: nat)
    requires i <= n <= m <= |log|
    ensures log[..m][i..n] == log[i..n]
  {
  }

  lemma LogGrows(reg: Router.Registry, s: System, l: Ledger, e: Event)
    requires Router.Registered(reg, s.router) && AgentSide(reg, s, l) && (e.AgentHandle? || e.StreamEmit?)
    requires l.dispatched <= |l.log| && s.toGateway == l.log[l.dispatched..]
    ensures var l' := Next(reg, l, e);
            && l'.dispatched <= |l'.log| && |l.log| <= |l'.log| && l'.log[..|l.log|] == l.log
            && Step(reg, s, e).toGateway == l'.log[l.dispatched..]
  {
    hide Messages, Readable, Router.Run, Router.Step, Router.Registered, WireOk;
    var l', s' := Next(reg, l, e), Step(reg, s, e);
    if e.AgentHandle? && l.handled < |l.sent| {
      var m := l.sent[l.handled];
      assert s.toAgent[0] == m;
      if WireOk(m) {
        Appended(l.log, l.dispatched, Router.Step(reg, s.router, m, e.world).replies);
      }
    } else if e.StreamEmit? && e.index < |StreamsOn(l.streams, e.channel)| {
      Appended(l.log, l.dispatched, [Emission(reg, e.channel, StreamsOn(s.streams, e.channel)[e.index], e.world)]);
    }
  }

  lemma Appended(log: seq<Message>, n: nat, more: seq<Message>)
    requires n <= |log|
    ensures (log + more)[n..] == log[n..] + more && (log + more)[..|log|] == log
  {
  }

  /** One message is dispatched: each inbox gets it exactly if it carries something for that session. */
  lemma DispatchInbox(inboxes: map<string, seq<Message>>, frame: Message, p: string)
    requires p in inboxes
    ensures p in Deliver(inboxes, frame)
    ensures Deliver(inboxes, frame)[p] == inboxes[p] + Part(frame, p)
  {
    hide Deliver, Carries;
    if m :| Carries(frame, p, m) {
      CarriedArrives(inboxes, frame, p, m);
      CarriedOnly(frame, p, m);
    } else {
      assert inboxes[p] + [] == inboxes[p];
      if q, n :| Carries(frame, q, n) {
        CarriedArrives(inboxes, frame, q, n);
      } else {
        UncarriedIsDropped(inboxes, frame);
      }
    }
  }

  lemma CarriedOnly(frame: Message, p: string, m: Message)
    requires Carries(frame, p, m)
    ensures forall n | Carries(frame, p, n) :: n == m
  {
    forall n | Carries(frame, p, n) ensures n == m {
      CarriedIsOne(frame, p, m, p, n);
    }
  }

  lemma DeliverKeys(inboxes: map<string, seq<Message>>, frame: Message)
    ensures Deliver(inboxes, frame).Keys == inboxes.Keys
  {
  }

  lemma DispatchAccounts(reg: Router.Registry, s: System, l: Ledger)
    requires Router.Registered(reg, s.router) && GatewaySide(s, l) && StreamsRegistered(reg, l.streams)
    ensures GatewaySide(Step(reg, s, Dispatch), Next(reg, l, Dispatch))
  {
    if l.dispatched < |l.log| {
      var frame := l.log[l.dispatched];
      TakeOne(l.log, l.dispatched);
      assert s.toGateway[0] == frame && s.toGateway[1..] == l.log[l.dispatched + 1..];
      DeliverKeys(s.inboxes, frame);
      hide Deliver, Carries, Received;
      var l' := Next(reg, l, Dispatch);
      forall p | p in s.inboxes
        ensures l.since[p] <= l'.dispatched
        ensures Deliver(s.inboxes, frame)[p] == Received(l.log[l.since[p]..l'.dispatched], p)
      {
        DispatchInbox(s.inboxes, frame, p);
        ReceivedTake(l.log, l.since[p], l.dispatched, p);
      }
    }
  }

  lemma ConnectAccounts(reg: Router.Registry, s: System, l: Ledger, p: string)
    requires Router.Registered(reg, s.router) && GatewaySide(s, l) && StreamsRegistered(reg, l.streams)
    ensures GatewaySide(Step(reg, s, Connect(p)), Next(reg, l, Connect(p)))
  {
    assert l.log[l.dispatched..l.dispatched] == [];
    assert Received([], p) == [];
    hide Received;
  }

  lemma StepAccounts(reg: Router.Registry, s: System, l: Ledger, e: Event)
    requires Router.Registered(reg, s.router) && Accounts(reg, s, l)
    ensures Accounts(reg, Step(reg, s, e), Next(reg, l, e))
  {
    match e {
      case Connect(p) => ConnectAccounts(reg, s, l, p);
      case Send(p, msg) => SendAccounts(reg, s, l, p, msg);
      case AgentHandle(w) =>
        HandleAccounts(reg, s, l, w);
        LogsReplies(reg, s, l, e);
      case StreamEmit(c, k, w) =>
        EmitAccounts(reg, s, l, c, k, w);
        LogsReplies(reg, s, l, e);
      case Dispatch => DispatchAccounts(reg, s, l);
    }
    hide Received, Readable, Messages, OnWire, PrefixMessage, Taken, Emitted, Router.Step, Router.Run, Deliver, Emission;
  }

  lemma {:induction false} RunAccounts(reg: Router.Registry, s: System, l: Ledger, es: seq<Event>)
    requires Router.Registered(reg, s.router) && Accounts(reg, s, l)
    ensures Accounts(reg, Multiplex.Run(reg, s, es), Kept(reg, l, es))
    decreases es
  {
    hide GatewaySide;
    if es != [] {
      StepAccounts(reg, s, l, es[0]);
      RunAccounts(reg, Step(reg, s, es[0]), Next(reg, l, es[0]), es[1..]);
    }
  }

  /** In every run of the shared system the ledger accounts for everything. */
  lemma EverythingAccounted(reg: Router.Registry, es: seq<Event>)
    ensures Accounts(reg, Multiplex.Run(reg, INITIAL, es), Kept(reg, BLANK, es))
  {
    RunAccounts(reg, INITIAL, BLANK, es);
  }

  /** In particular: once everything is dispatched, a session that stayed connected has all that was meant for it. */
  lemma NothingIsLost(reg: Router.Registry, es: seq<Event>, p: string)
    requires var s := Multiplex.Run(reg, INITIAL, es); p in s.inboxes && s.toGateway == []
    ensures var s, l := Multiplex.Run(reg, INITIAL, es), Kept(reg, BLANK, es);
            && p in l.since && l.since[p] <= |l.log| && s.inboxes[p] == Received(l.log[l.since[p]..], p)
  {
    EverythingAccounted(reg, es);
    var l := Kept(reg, BLANK, es);
    assert l.dispatched == |l.log|;
    assert l.log[l.since[p]..l.dispatched] == l.log[l.since[p]..];
    hide Received, AgentSide;
  }
}
