/**
 * Many browser sessions over one agent connection: the gateway prefixes channel ids on the way to
 * the agent, and strips the prefix off the replies to find the session they belong to.
 */
module Multiplex {
  import opened Wrappers
  import opened Protocol
  import Router
  import Strings = Text

  const SESSION_PREFIX_LEN := 8

  // ----- Prefixing -----

  function WithoutDashes(s: string): string {
    if s == "" then "" else (if s[0] != '-' then [s[0]] else []) + WithoutDashes(s[1..])
  }

  function SessionPrefix(sessionId: string): string {
    var digits := WithoutDashes(sessionId);
    if |digits| <= SESSION_PREFIX_LEN then digits else digits[..SESSION_PREFIX_LEN]
  }

  function Prefixed(p: string, c: ChannelId): ChannelId {
    p + "-" + c
  }

  function PrefixMessage(m: Message, p: string): Message {
    match m
    case Open(c, options) => Open(Prefixed(p, c), options)
    case Data(c, data) => Data(Prefixed(p, c), data)
    case Control(c, command, extra) => Control(Prefixed(p, c), command, extra)
    case Close(c, problem) => Close(Prefixed(p, c), problem)
    case other => other
  }

  datatype Stripped = Stripped(msg: Message, prefix: string)

  function StripPrefix(m: Message): Option<Stripped> {
    if !(m.Data? || m.Control? || m.Close? || m.Ready?) then None
    else if |m.channel| <= SESSION_PREFIX_LEN + 1 then None
    else if m.channel[SESSION_PREFIX_LEN] != '-' then None
    else
      var original := m.channel[SESSION_PREFIX_LEN + 1..];
      Some(Stripped(m.(channel := original), m.channel[..SESSION_PREFIX_LEN]))
  }

  /** The channel id lies in the id space of session prefix `p`. */
  predicate InSpace(c: ChannelId, p: string) {
    && |c| > SESSION_PREFIX_LEN + 1
    && c[..SESSION_PREFIX_LEN] == p
    && c[SESSION_PREFIX_LEN] == '-'
  }

  lemma PrefixedInSpace(p: string, q: string, c: ChannelId)
    requires |p| == SESSION_PREFIX_LEN && c != ""
    ensures InSpace(Prefixed(p, c), q) <==> p == q
    ensures Prefixed(p, c)[SESSION_PREFIX_LEN + 1..] == c
  {
    assert Prefixed(p, c)[..SESSION_PREFIX_LEN] == p;
  }

  /** Stripping undoes prefixing exactly for prefixes of the fixed length. */
  lemma StripUndoesPrefix(m: Message, p: string)
    requires m.Data? || m.Control? || m.Close?
    requires m.channel != ""
    ensures StripPrefix(PrefixMessage(m, p)) == Some(Stripped(m, p)) <==> |p| == SESSION_PREFIX_LEN
  {
    if |p| == SESSION_PREFIX_LEN {
      PrefixedInSpace(p, p, m.channel);
    }
  }

  /** The same message on another channel. */
  function OnChannel(m: Message, c: ChannelId): Message {
    match m
    case Open(_, options) => Open(c, options)
    case Ready(_) => Ready(c)
    case Data(_, data) => Data(c, data)
    case Control(_, command, extra) => Control(c, command, extra)
    case Close(_, problem) => Close(c, problem)
    case _ => m
  }

  /** `frame` is the message `m` of the session with prefix `p`, as the agent sends it. */
  predicate Carries(frame: Message, p: string, m: Message) {
    && |p| == SESSION_PREFIX_LEN
    && (m.Data? || m.Control? || m.Close? || m.Ready?) && m.channel != ""
    && frame == OnChannel(m, p + "-" + m.channel)
    && ValidChannelId(frame.channel)
  }

  /** Dispatching a session's message appends it, as the session wrote its id, to that inbox alone. */
  lemma CarriedArrives(inboxes: map<string, seq<Message>>, frame: Message, p: string, m: Message)
    requires Carries(frame, p, m)
    ensures Deliver(inboxes, frame) == if p in inboxes then inboxes[p := inboxes[p] + [m]] else inboxes
  {
    PrefixedInSpace(p, p, m.channel);
    assert frame.channel == Prefixed(p, m.channel);
  }

  /** Dispatching anything else changes nothing. */
  lemma UncarriedIsDropped(inboxes: map<string, seq<Message>>, frame: Message)
    requires forall p, m :: Carries(frame, p, m) ==> p !in inboxes
    ensures Deliver(inboxes, frame) == inboxes
  {
    if WireOk(frame) && StripPrefix(frame).Some? {
      var p, m := StripPrefix(frame).value.prefix, StripPrefix(frame).value.msg;
      assert frame.channel == p + "-" + m.channel;
      assert frame == OnChannel(m, p + "-" + m.channel);
      assert Carries(frame, p, m);
    }
  }

  lemma NoDashes()
    ensures WithoutDashes("") == ""
  {
  }

  lemma WithoutDashesFrom(s: string, i: nat, front: string)
    requires i < |s|
    ensures front + WithoutDashes(s[i..]) == (if s[i] != '-' then front + [s[i]] else front) + WithoutDashes(s[i + 1..])
  {
    assert s[i..][1..] == s[i + 1..] && s[i..][0] == s[i];
  }

  lemma {:induction false} WithoutDashesAppend(a: string, b: string)
    ensures WithoutDashes(a + b) == WithoutDashes(a) + WithoutDashes(b)
  {
    if a == "" {
      assert a + b == b;
    } else {
      WithoutDashesAppend(a[1..], b);
      assert (a + b)[1..] == a[1..] + b && (a + b)[0] == a[0];
      Strings.Regroup(if a[0] != '-' then [a[0]] else [], WithoutDashes(a[1..]), WithoutDashes(b));
    }
  }

  lemma {:induction false} WithoutDashesKeeps(s: string)
    requires '-' !in s
    ensures WithoutDashes(s) == s
  {
    if s != "" {
      WithoutDashesKeeps(s[1..]);
    }
  }

  /** A session id that starts with eight digits or letters, as every UUID does, has them as its prefix. */
  lemma UuidPrefix(head: string, rest: string)
    requires |head| == SESSION_PREFIX_LEN && '-' !in head
    ensures SessionPrefix(head + rest) == head
  {
    WithoutDashesAppend(head, rest);
    WithoutDashesKeeps(head);
    hide WithoutDashes;
    assert (head + WithoutDashes(rest))[..SESSION_PREFIX_LEN] == head;
    assert WithoutDashes(rest) == "" ==> head + WithoutDashes(rest) == head;
  }

  /** The prefix has the full length exactly if the id has eight characters other than dashes. */
  lemma PrefixLength(sessionId: string)
    ensures |SessionPrefix(sessionId)| == SESSION_PREFIX_LEN <==> NonDashes(sessionId) >= 8
    ensures '-' !in SessionPrefix(sessionId)
  {
    CountsNonDashes(sessionId);
    WithoutDashesHasNone(sessionId);
    var w := WithoutDashes(sessionId);
    assert |w| >= 8 ==> forall c | c in w[..8] :: c in w;
    hide WithoutDashes;
  }

  function NonDashes(s: string): nat {
    |multiset(s)| - multiset(s)['-']
  }

  lemma {:induction false} CountsNonDashes(s: string)
    ensures |WithoutDashes(s)| == NonDashes(s)
  {
    if s != "" {
      CountsNonDashes(s[1..]);
      assert s == [s[0]] + s[1..];
      assert multiset(s) == multiset{s[0]} + multiset(s[1..]);
    }
  }

  lemma {:induction false} WithoutDashesHasNone(s: string)
    ensures '-' !in WithoutDashes(s)
  {
    if s != "" {
      WithoutDashesHasNone(s[1..]);
    }
  }

  /** Prefixing a valid id with a session's prefix is valid exactly when the id left room for it. */
  lemma PrefixedIsValid(p: string, c: ChannelId)
    requires |p| == SESSION_PREFIX_LEN && ValidChannelId(p) && ValidChannelId(c)
    ensures ValidChannelId(Prefixed(p, c)) <==> |c| <= MAX_CHANNEL_ID_LEN - (SESSION_PREFIX_LEN + 1)
  {
    var s := Prefixed(p, c);
    forall i | 0 <= i < |s| ensures IsIdChar(s[i]) {
      if i > SESSION_PREFIX_LEN {
        assert s[i] == c[i - SESSION_PREFIX_LEN - 1];
      }
    }
  }

  // ----- The shared connection as a step system -----

  /** A spawned stream: the options it was opened with and the world at each message so far. */
  datatype Stream = Stream(options: Options, worlds: seq<Router.World>)

  datatype System = System(
    router: Router.State,
    streams: map<ChannelId, seq<Stream>>,
    toAgent: seq<Message>,
    toGateway: seq<Message>,
    inboxes: map<string, seq<Message>>)

  const INITIAL := System(Router.INITIAL, map[], [], [], map[])

  datatype Event =
    | Connect(prefix: string)
    | Send(prefix: string, msg: Message)
    | AgentHandle(world: Router.World)
    | StreamEmit(channel: ChannelId, index: nat, world: Router.World)
    | Dispatch

  function StreamsOn(streams: map<ChannelId, seq<Stream>>, c: ChannelId): seq<Stream> {
    if c in streams then streams[c] else []
  }

  function Spawned(streams: map<ChannelId, seq<Stream>>, s: Option<Router.Spawn>): map<ChannelId, seq<Stream>> {
    match s
    case None => streams
    case Some(Spawn(c, opts)) => streams[c := StreamsOn(streams, c) + [Stream(opts, [])]]
  }

  /** A stream's task sends Ready first and whatever its handler produces after that. */
  function Emission(reg: Router.Registry, c: ChannelId, s: Stream, w: Router.World): Message {
    if s.worlds == [] || s.options.payload !in reg then Ready(c)
    else reg[s.options.payload].emit(c, s.options, s.worlds + [w])
  }

  function Deliver(inboxes: map<string, seq<Message>>, m: Message): map<string, seq<Message>> {
    if !WireOk(m) then inboxes
    else match StripPrefix(m)
      case None => inboxes
      case Some(Stripped(msg, p)) => if p in inboxes then inboxes[p := inboxes[p] + [msg]] else inboxes
  }

  function Step(reg: Router.Registry, s: System, e: Event): (s': System)
    requires Router.Registered(reg, s.router)
    ensures Router.Registered(reg, s'.router)
  {
    match e
    case Connect(p) => s.(inboxes := s.inboxes[p := []])
    case Send(p, msg) => s.(toAgent := s.toAgent + [PrefixMessage(msg, p)])
    case AgentHandle(w) =>
      if s.toAgent == [] then s
      else if !WireOk(s.toAgent[0]) then s.(toAgent := s.toAgent[1..])
      else
        var out := Router.Step(reg, s.router, s.toAgent[0], w);
        s.(router := out.state, toAgent := s.toAgent[1..], toGateway := s.toGateway + out.replies,
           streams := Spawned(s.streams, out.spawned))
    case StreamEmit(c, k, w) =>
      var ss := StreamsOn(s.streams, c);
      if k >= |ss| then s
      else
        s.(streams := s.streams[c := ss[k := ss[k].(worlds := ss[k].worlds + [w])]],
           toGateway := s.toGateway + [Emission(reg, c, ss[k], w)])
    case Dispatch =>
      if s.toGateway == [] then s
      else s.(toGateway := s.toGateway[1..], inboxes := Deliver(s.inboxes, s.toGateway[0]))
  }

  function Run(reg: Router.Registry, s: System, es: seq<Event>): (s': System)
    requires Router.Registered(reg, s.router)
    ensures Router.Registered(reg, s'.router)
    decreases es
  {
    if es == [] then s else Run(reg, Step(reg, s, es[0]), es[1..])
  }

  /** A handler answers only on the channel it was called on. */
  ghost predicate OnOwnChannel(msgs: seq<Message>, c: ChannelId) {
    forall i :: 0 <= i < |msgs| ==> HasChannel(msgs[i]) && msgs[i].channel == c
  }

  ghost predicate HandlersKeepToTheirChannel(reg: Router.Registry) {
    forall p | p in reg ::
      && (forall c, log :: OnOwnChannel(reg[p].react(c, log), c))
      && (forall c, opts, ws :: OnOwnChannel([reg[p].emit(c, opts, ws)], c))
  }

  /** Session prefixes have the fixed length, and no client message has an empty channel id. */
  predicate WellFormed(e: Event) {
    && (e.Connect? || e.Send? ==> |e.prefix| == SESSION_PREFIX_LEN)
    && (e.Send? && HasChannel(e.msg) ==> e.msg.channel != "")
  }

  // ----- Projection onto one session -----

  /** Messages a session can put on the wire under its own prefix. */
  predicate Routed(m: Message) {
    m.Open? || m.Data? || m.Control? || m.Close?
  }

  predicate OwnedIn(m: Message, p: string) {
    Routed(m) && InSpace(m.channel, p)
  }

  predicate OwnedOut(m: Message, p: string) {
    HasChannel(m) && InSpace(m.channel, p)
  }

  function FilterIn(ms: seq<Message>, p: string): seq<Message> {
    if ms == [] then []
    else if OwnedIn(ms[0], p) then [ms[0]] + FilterIn(ms[1..], p)
    else FilterIn(ms[1..], p)
  }

  function FilterOut(ms: seq<Message>, p: string): seq<Message> {
    if ms == [] then []
    else if OwnedOut(ms[0], p) then [ms[0]] + FilterOut(ms[1..], p)
    else FilterOut(ms[1..], p)
  }

  function Restrict<T>(m: map<ChannelId, T>, p: string): map<ChannelId, T> {
    map c | c in m && InSpace(c, p) :: m[c]
  }

  function ProjectRouter(r: Router.State, p: string): Router.State {
    Router.State(Restrict(r.active, p), Restrict(r.handlers, p), Restrict(r.options, p), Restrict(r.calls, p))
  }

  /** What of the shared system belongs to session prefix `p`. */
  function Project(s: System, p: string): System {
    System(ProjectRouter(s.router, p), Restrict(s.streams, p), FilterIn(s.toAgent, p), FilterOut(s.toGateway, p),
           OwnInbox(s.inboxes, p))
  }

  function OwnInbox(inboxes: map<string, seq<Message>>, p: string): map<string, seq<Message>> {
    if p in inboxes then map[p := inboxes[p]] else map[]
  }

  /** Whether a step touches session `p`. */
  predicate Concerns(s: System, e: Event, p: string) {
    match e
    case Connect(q) => q == p
    case Send(q, msg) => q == p && Routed(msg)
    case AgentHandle(_) => s.toAgent != [] && OwnedIn(s.toAgent[0], p)
    case StreamEmit(c, _, _) => InSpace(c, p)
    case Dispatch => s.toGateway != [] && OwnedOut(s.toGateway[0], p)
  }

  function ProjectEvents(reg: Router.Registry, s: System, es: seq<Event>, p: string): seq<Event>
    requires Router.Registered(reg, s.router)
    decreases es
  {
    if es == [] then []
    else
      var rest := ProjectEvents(reg, Step(reg, s, es[0]), es[1..], p);
      if Concerns(s, es[0], p) then [es[0]] + rest else rest
  }

  lemma {:induction false} FilterInAppend(a: seq<Message>, b: seq<Message>, p: string)
    ensures FilterIn(a + b, p) == FilterIn(a, p) + FilterIn(b, p)
  {
    if a == [] {
      assert a + b == b;
    } else {
      FilterInAppend(a[1..], b, p);
      Strings.Regroup([a[0]], FilterIn(a[1..], p), FilterIn(b, p));
      assert (a + b)[1..] == a[1..] + b && (a + b)[0] == a[0];
      assert FilterIn(a + b, p) == if OwnedIn(a[0], p) then [a[0]] + FilterIn(a[1..] + b, p) else FilterIn(a[1..] + b, p);
    }
  }

  lemma {:induction false} FilterOutAppend(a: seq<Message>, b: seq<Message>, p: string)
    ensures FilterOut(a + b, p) == FilterOut(a, p) + FilterOut(b, p)
  {
    if a == [] {
      assert a + b == b;
    } else {
      FilterOutAppend(a[1..], b, p);
      Strings.Regroup([a[0]], FilterOut(a[1..], p), FilterOut(b, p));
      assert (a + b)[1..] == a[1..] + b && (a + b)[0] == a[0];
      assert FilterOut(a + b, p) == if OwnedOut(a[0], p) then [a[0]] + FilterOut(a[1..] + b, p) else FilterOut(a[1..] + b, p);
    }
  }

  lemma {:induction false} FilterOutOwn(msgs: seq<Message>, c: ChannelId, p: string)
    requires OnOwnChannel(msgs, c)
    ensures FilterOut(msgs, p) == if InSpace(c, p) then msgs else []
  {
    if msgs != [] {
      FilterOutOwn(msgs[1..], c, p);
    }
  }

  lemma RestrictUpdate<T>(m: map<ChannelId, T>, c: ChannelId, v: T, p: string)
    ensures Restrict(m[c := v], p) == if InSpace(c, p) then Restrict(m, p)[c := v] else Restrict(m, p)
  {
  }

  lemma RestrictRemove<T>(m: map<ChannelId, T>, c: ChannelId, p: string)
    ensures Restrict(m - {c}, p) == Restrict(m, p) - {c}
    ensures !InSpace(c, p) ==> Restrict(m - {c}, p) == Restrict(m, p)
  {
  }

  lemma RestrictRouter(r: Router.State, c: ChannelId, payload: string, opts: Options, log: seq<Router.Call>, p: string)
    ensures Restrict(r.active[c := payload], p) == if InSpace(c, p) then Restrict(r.active, p)[c := payload] else Restrict(r.active, p)
    ensures Restrict(r.handlers[c := payload], p) == if InSpace(c, p) then Restrict(r.handlers, p)[c := payload] else Restrict(r.handlers, p)
    ensures Restrict(r.options[c := opts], p) == if InSpace(c, p) then Restrict(r.options, p)[c := opts] else Restrict(r.options, p)
    ensures Restrict(r.calls[c := log], p) == if InSpace(c, p) then Restrict(r.calls, p)[c := log] else Restrict(r.calls, p)
  {
    RestrictUpdate(r.active, c, payload, p);
    RestrictUpdate(r.handlers, c, payload, p);
    RestrictUpdate(r.options, c, opts, p);
    RestrictUpdate(r.calls, c, log, p);
  }

  lemma RestrictRouterClosed(r: Router.State, c: ChannelId, p: string)
    ensures var closed := r.(active := r.active - {c}, handlers := r.handlers - {c}, options := r.options - {c});
            var own := ProjectRouter(r, p);
            ProjectRouter(closed, p) ==
            if InSpace(c, p) then own.(active := own.active - {c}, handlers := own.handlers - {c}, options := own.options - {c})
            else own
  {
    RestrictRemove(r.active, c, p);
    RestrictRemove(r.handlers, c, p);
    RestrictRemove(r.options, c, p);
  }

  lemma RestrictRouterDone(r: Router.State, c: ChannelId, p: string)
    ensures var done := r.(handlers := r.handlers - {c}, options := r.options - {c});
            var own := ProjectRouter(r, p);
            ProjectRouter(done, p) ==
            if InSpace(c, p) then own.(handlers := own.handlers - {c}, options := own.options - {c}) else own
  {
    RestrictRemove(r.handlers, c, p);
    RestrictRemove(r.options, c, p);
  }

  /** What an Open of a one-shot payload stores before the reply is looked at. */
  function Stored(r: Router.State, c: ChannelId, opts: Options, log: seq<Router.Call>): Router.State {
    r.(handlers := r.handlers[c := opts.payload], options := r.options[c := opts], calls := r.calls[c := log])
  }

  ghost predicate SameForSession(out: Router.Outcome, own: Router.Outcome, p: string) {
    own.state == ProjectRouter(out.state, p) && own.replies == out.replies && own.spawned == out.spawned
  }

  lemma OpenStepOwned(reg: Router.Registry, r: Router.State, c: ChannelId, opts: Options, w: Router.World, p: string)
    requires Router.Registered(reg, r) && InSpace(c, p)
    requires Router.Registered(reg, ProjectRouter(r, p))
    ensures SameForSession(Router.Step(reg, r, Open(c, opts), w), Router.Step(reg, ProjectRouter(r, p), Open(c, opts), w), p)
  {
    var own := ProjectRouter(r, p);
    assert Router.CallsOn(own.calls, c) == Router.CallsOn(r.calls, c);
    var log := Router.CallsOn(r.calls, c) + [Router.Call(opts.payload, Router.Opened(opts), w)];
    hide InSpace;
    RestrictRouter(r, c, opts.payload, opts, log, p);
    assert ProjectRouter(Stored(r, c, opts, log), p) == Stored(own, c, opts, log);
    RestrictRouterDone(Stored(r, c, opts, log), c, p);
    hide Restrict;
  }

  lemma DataStepOwned(reg: Router.Registry, r: Router.State, c: ChannelId, data: Value, w: Router.World, p: string)
    requires Router.Registered(reg, r) && InSpace(c, p)
    requires Router.Registered(reg, ProjectRouter(r, p))
    ensures SameForSession(Router.Step(reg, r, Data(c, data), w), Router.Step(reg, ProjectRouter(r, p), Data(c, data), w), p)
  {
    var own := ProjectRouter(r, p);
    assert Router.CallsOn(own.calls, c) == Router.CallsOn(r.calls, c);
    assert Router.Tracked(own, c) == Router.Tracked(r, c);
    if Router.Tracked(r, c) {
      var payload := Router.Recipient(r, c);
      assert Router.Recipient(own, c) == payload;
      var data' := Router.Enrich(r.options, c, data);
      assert Router.Enrich(own.options, c, data) == data';
      RestrictUpdate(r.calls, c, Router.CallsOn(r.calls, c) + [Router.Call(payload, Router.Received(data'), w)], p);
      hide Restrict, InSpace;
    }
  }

  /** One message handled for session `p` has the same effect with the other sessions gone. */
  lemma RouterStepOwned(reg: Router.Registry, r: Router.State, m: Message, w: Router.World, p: string)
    requires Router.Registered(reg, r) && OwnedIn(m, p)
    ensures Router.Registered(reg, ProjectRouter(r, p))
    ensures SameForSession(Router.Step(reg, r, m, w), Router.Step(reg, ProjectRouter(r, p), m, w), p)
  {
    assert Router.Registered(reg, ProjectRouter(r, p));
    hide Restrict, InSpace, Router.Registered;
    match m {
      case Open(c, opts) => OpenStepOwned(reg, r, c, opts, w, p);
      case Data(c, data) => DataStepOwned(reg, r, c, data, w, p);
      case Close(c, _) => RestrictRouterClosed(r, c, p);
      case Control(_, _, _) =>
    }
  }

  /** Handling a message of any other session leaves `p`'s part of the router alone. */
  lemma RouterStepForeign(reg: Router.Registry, r: Router.State, m: Message, w: Router.World, p: string)
    requires Router.Registered(reg, r) && !OwnedIn(m, p)
    ensures ProjectRouter(Router.Step(reg, r, m, w).state, p) == ProjectRouter(r, p)
  {
    match m {
      case Open(c, opts) =>
        var log := Router.CallsOn(r.calls, c) + [Router.Call(opts.payload, Router.Opened(opts), w)];
        RestrictRouter(r, c, opts.payload, opts, log, p);
        assert ProjectRouter(Stored(r, c, opts, log), p) == ProjectRouter(r, p);
        RestrictRouterDone(Stored(r, c, opts, log), c, p);
      case Data(c, data) =>
        if Router.Tracked(r, c) {
          var call := Router.Call(Router.Recipient(r, c), Router.Received(Router.Enrich(r.options, c, data)), w);
          RestrictUpdate(r.calls, c, Router.CallsOn(r.calls, c) + [call], p);
        }
      case Close(c, _) =>
        RestrictRouterClosed(r, c, p);
      case _ =>
    }
  }

  /** The replies to a message, and the stream it spawns, are on the message's own channel. */
  lemma RouterAnswersOwnChannel(reg: Router.Registry, r: Router.State, m: Message, w: Router.World)
    requires Router.Registered(reg, r) && HandlersKeepToTheirChannel(reg)
    ensures var out := Router.Step(reg, r, m, w);
            && (Routed(m) ==> OnOwnChannel(out.replies, m.channel))
            && (!Routed(m) ==> forall i :: 0 <= i < |out.replies| ==> !HasChannel(out.replies[i]))
            && (out.spawned.Some? ==> m.Open? && out.spawned.value.channel == m.channel)
  {
  }

  lemma {:induction false} FilterOutNone(msgs: seq<Message>, p: string)
    requires forall i :: 0 <= i < |msgs| ==> !HasChannel(msgs[i])
    ensures FilterOut(msgs, p) == []
  {
    if msgs != [] {
      FilterOutNone(msgs[1..], p);
    }
  }

  lemma SpawnedProjects(streams: map<ChannelId, seq<Stream>>, s: Option<Router.Spawn>, p: string)
    ensures Restrict(Spawned(streams, s), p)
         == if s.Some? && InSpace(s.value.channel, p) then Spawned(Restrict(streams, p), s) else Restrict(streams, p)
  {
    if s.Some? {
      var c := s.value.channel;
      RestrictUpdate(streams, c, StreamsOn(streams, c) + [Stream(s.value.options, [])], p);
    }
  }

  /** A step of the shared system is, seen from session `p`, its own step or no step at all. */
  ghost predicate Simulates(reg: Router.Registry, s: System, e: Event, p: string)
    requires Router.Registered(reg, s.router)
  {
    && Router.Registered(reg, ProjectRouter(s.router, p))
    && Project(Step(reg, s, e), p) == if Concerns(s, e, p) then Step(reg, Project(s, p), e) else Project(s, p)
  }

  lemma SendProjects(reg: Router.Registry, s: System, q: string, msg: Message, p: string)
    requires Router.Registered(reg, s.router) && WellFormed(Send(q, msg))
    ensures Simulates(reg, s, Send(q, msg), p)
  {
    FilterInAppend(s.toAgent, [PrefixMessage(msg, q)], p);
    if Routed(msg) {
      PrefixedInSpace(q, p, msg.channel);
    }
  }

  lemma FilterInHead(ms: seq<Message>, p: string)
    requires ms != [] && OwnedIn(ms[0], p)
    ensures FilterIn(ms, p) != [] && FilterIn(ms, p)[0] == ms[0] && FilterIn(ms, p)[1..] == FilterIn(ms[1..], p)
  {
  }

  lemma FilterOutHead(ms: seq<Message>, p: string)
    requires ms != [] && OwnedOut(ms[0], p)
    ensures FilterOut(ms, p) != [] && FilterOut(ms, p)[0] == ms[0] && FilterOut(ms, p)[1..] == FilterOut(ms[1..], p)
  {
  }

  lemma HandleOwnedProjects(reg: Router.Registry, s: System, w: Router.World, p: string)
    requires Router.Registered(reg, s.router) && HandlersKeepToTheirChannel(reg)
    requires s.toAgent != [] && OwnedIn(s.toAgent[0], p)
    ensures Simulates(reg, s, AgentHandle(w), p)
  {
    var m := s.toAgent[0];
    FilterInHead(s.toAgent, p);
    RouterStepOwned(reg, s.router, m, w, p);
    if WireOk(m) {
      var out := Router.Step(reg, s.router, m, w);
      RouterAnswersOwnChannel(reg, s.router, m, w);
      FilterOutAppend(s.toGateway, out.replies, p);
      FilterOutOwn(out.replies, m.channel, p);
      SpawnedProjects(s.streams, out.spawned, p);
    }
  }

  lemma FilterInSkip(ms: seq<Message>, p: string)
    requires ms != [] && !OwnedIn(ms[0], p)
    ensures FilterIn(ms, p) == FilterIn(ms[1..], p)
  {
  }

  lemma HandleForeignProjects(reg: Router.Registry, s: System, w: Router.World, p: string)
    requires Router.Registered(reg, s.router) && HandlersKeepToTheirChannel(reg)
    requires s.toAgent != [] && !OwnedIn(s.toAgent[0], p)
    ensures Simulates(reg, s, AgentHandle(w), p)
  {
    var m := s.toAgent[0];
    FilterInSkip(s.toAgent, p);
    if WireOk(m) {
      var out := Router.Step(reg, s.router, m, w);
      RouterStepForeign(reg, s.router, m, w, p);
      RouterAnswersOwnChannel(reg, s.router, m, w);
      if Routed(m) {
        FilterOutOwn(out.replies, m.channel, p);
      } else {
        FilterOutNone(out.replies, p);
      }
      FilterOutAppend(s.toGateway, out.replies, p);
      assert FilterOut(s.toGateway, p) + [] == FilterOut(s.toGateway, p);
      SpawnedProjects(s.streams, out.spawned, p);
    }
    ProjectRegistered(reg, s.router, p);
    hide Router.Step, Router.Registered, FilterIn, FilterOut, Restrict, Spawned, HandlersKeepToTheirChannel, OnOwnChannel;
  }

  lemma ProjectRegistered(reg: Router.Registry, r: Router.State, p: string)
    requires Router.Registered(reg, r)
    ensures Router.Registered(reg, ProjectRouter(r, p))
  {
  }

  lemma HandleProjects(reg: Router.Registry, s: System, w: Router.World, p: string)
    requires Router.Registered(reg, s.router) && HandlersKeepToTheirChannel(reg)
    ensures Simulates(reg, s, AgentHandle(w), p)
  {
    if s.toAgent == [] {
    } else if OwnedIn(s.toAgent[0], p) {
      HandleOwnedProjects(reg, s, w, p);
    } else {
      HandleForeignProjects(reg, s, w, p);
    }
  }

  lemma EmitProjects(reg: Router.Registry, s: System, c: ChannelId, k: nat, w: Router.World, p: string)
    requires Router.Registered(reg, s.router) && HandlersKeepToTheirChannel(reg)
    ensures Simulates(reg, s, StreamEmit(c, k, w), p)
  {
    var ss := StreamsOn(s.streams, c);
    assert InSpace(c, p) ==> StreamsOn(Restrict(s.streams, p), c) == ss;
    if k < |ss| {
      var m := Emission(reg, c, ss[k], w);
      assert OnOwnChannel([m], c);
      FilterOutAppend(s.toGateway, [m], p);
      FilterOutOwn([m], c, p);
      RestrictUpdate(s.streams, c, ss[k := ss[k].(worlds := ss[k].worlds + [w])], p);
    }
  }

  lemma DeliverProjects(inboxes: map<string, seq<Message>>, m: Message, p: string)
    ensures OwnInbox(Deliver(inboxes, m), p)
         == if OwnedOut(m, p) then Deliver(OwnInbox(inboxes, p), m) else OwnInbox(inboxes, p)
  {
  }

  lemma DispatchProjects(reg: Router.Registry, s: System, p: string)
    requires Router.Registered(reg, s.router)
    ensures Simulates(reg, s, Dispatch, p)
  {
    if s.toGateway != [] {
      DeliverProjects(s.inboxes, s.toGateway[0], p);
      if OwnedOut(s.toGateway[0], p) {
        FilterOutHead(s.toGateway, p);
      }
    }
  }

  lemma StepProjects(reg: Router.Registry, s: System, e: Event, p: string)
    requires Router.Registered(reg, s.router) && HandlersKeepToTheirChannel(reg) && WellFormed(e)
    ensures Simulates(reg, s, e, p)
  {
    match e {
      case Connect(q) =>
        assert OwnInbox(s.inboxes[q := []], p) == if q == p then OwnInbox(s.inboxes, p)[p := []] else OwnInbox(s.inboxes, p);
      case Send(q, msg) => SendProjects(reg, s, q, msg, p);
      case AgentHandle(w) => HandleProjects(reg, s, w, p);
      case StreamEmit(c, k, w) => EmitProjects(reg, s, c, k, w, p);
      case Dispatch => DispatchProjects(reg, s, p);
    }
  }

  lemma {:induction false} RunProjects(reg: Router.Registry, s: System, es: seq<Event>, p: string)
    requires Router.Registered(reg, s.router) && HandlersKeepToTheirChannel(reg)
    requires forall i :: 0 <= i < |es| ==> WellFormed(es[i])
    ensures Router.Registered(reg, ProjectRouter(s.router, p))
    ensures Project(Run(reg, s, es), p) == Run(reg, Project(s, p), ProjectEvents(reg, s, es, p))
    decreases es
  {
    if es != [] {
      StepProjects(reg, s, es[0], p);
      RunProjects(reg, Step(reg, s, es[0]), es[1..], p);
      var rest := ProjectEvents(reg, Step(reg, s, es[0]), es[1..], p);
      if Concerns(s, es[0], p) {
        assert ([es[0]] + rest)[1..] == rest;
      }
    }
  }

  /** What session `p` itself did, in order. */
  function ActionsOf(es: seq<Event>, p: string): seq<Event> {
    if es == [] then []
    else if (es[0].Connect? && es[0].prefix == p) || (es[0].Send? && es[0].prefix == p && Routed(es[0].msg)) then
      [es[0]] + ActionsOf(es[1..], p)
    else ActionsOf(es[1..], p)
  }

  lemma {:induction false} ProjectKeepsActions(reg: Router.Registry, s: System, es: seq<Event>, p: string)
    requires Router.Registered(reg, s.router)
    ensures ActionsOf(ProjectEvents(reg, s, es, p), p) == ActionsOf(es, p)
    decreases es
  {
    if es != [] {
      ProjectKeepsActions(reg, Step(reg, s, es[0]), es[1..], p);
      var rest := ProjectEvents(reg, Step(reg, s, es[0]), es[1..], p);
      assert ([es[0]] + rest)[1..] == rest;
    }
  }

  /**
   * Session isolation. Whatever the other sessions do, session `p` receives exactly what it would
   * receive with the agent to itself, in the same order, from a run of its own steps alone.
   */
  lemma SessionIsolation(reg: Router.Registry, es: seq<Event>, p: string)
    requires HandlersKeepToTheirChannel(reg)
    requires forall i :: 0 <= i < |es| ==> WellFormed(es[i])
    ensures var alone := ProjectEvents(reg, INITIAL, es, p);
            var shared, single := Run(reg, INITIAL, es), Run(reg, INITIAL, alone);
            && single == Project(shared, p)
            && ActionsOf(alone, p) == ActionsOf(es, p)
            && (p in shared.inboxes <==> p in single.inboxes)
            && (p in shared.inboxes ==> shared.inboxes[p] == single.inboxes[p])
            && forall e | e in alone && (e.Connect? || e.Send?) :: e.prefix == p
  {
    assert Project(INITIAL, p) == INITIAL;
    RunProjects(reg, INITIAL, es, p);
    ProjectEventsAreOwn(reg, INITIAL, es, p);
    ProjectKeepsActions(reg, INITIAL, es, p);
  }

  lemma {:induction false} ProjectEventsAreOwn(reg: Router.Registry, s: System, es: seq<Event>, p: string)
    requires Router.Registered(reg, s.router)
    ensures var alone := ProjectEvents(reg, s, es, p);
            forall e | e in alone && (e.Connect? || e.Send?) :: e.prefix == p
    decreases es
  {
    if es != [] {
      ProjectEventsAreOwn(reg, Step(reg, s, es[0]), es[1..], p);
      var rest := ProjectEvents(reg, Step(reg, s, es[0]), es[1..], p);
      assert forall e | e in [es[0]] + rest :: e == es[0] || e in rest;
    }
  }

  // ----- Every delivered message answers an Open of the same session -----

  /** The full ids that the sessions opened during `es`. */
  function OpenedIds(es: seq<Event>): set<ChannelId> {
    if es == [] then {}
    else (if es[0].Send? && es[0].msg.Open? then {Prefixed(es[0].prefix, es[0].msg.channel)} else {}) + OpenedIds(es[1..])
  }

  ghost predicate OnlyOpened(s: System, ids: set<ChannelId>) {
    && s.router.active.Keys + s.router.handlers.Keys + s.streams.Keys <= ids
    && (forall i :: 0 <= i < |s.toAgent| && s.toAgent[i].Open? ==> s.toAgent[i].channel in ids)
    && (forall i :: 0 <= i < |s.toGateway| && HasChannel(s.toGateway[i]) ==> s.toGateway[i].channel in ids)
    && (forall p, i :: p in s.inboxes && 0 <= i < |s.inboxes[p]| ==>
          HasChannel(s.inboxes[p][i]) && Prefixed(p, s.inboxes[p][i].channel) in ids)
  }

  lemma OnlyOpenedHandle(reg: Router.Registry, s: System, w: Router.World, ids: set<ChannelId>)
    requires Router.Registered(reg, s.router) && HandlersKeepToTheirChannel(reg)
    requires OnlyOpened(s, ids) && s.toAgent != []
    ensures OnlyOpened(Step(reg, s, AgentHandle(w)), ids)
  {
    var m := s.toAgent[0];
    if WireOk(m) {
      RouterAnswersOwnChannel(reg, s.router, m, w);
      RouterTracksOnlyOpened(reg, s.router, m, w, ids);
    }
  }

  lemma RouterTracksOnlyOpened(reg: Router.Registry, r: Router.State, m: Message, w: Router.World, ids: set<ChannelId>)
    requires Router.Registered(reg, r)
    requires r.active.Keys + r.handlers.Keys <= ids && (m.Open? ==> m.channel in ids)
    ensures var out := Router.Step(reg, r, m, w);
            && out.state.active.Keys + out.state.handlers.Keys <= ids
            && (m.Data? && out.replies != [] ==> m.channel in ids)
            && (m.Control? || m.Close? ==> out.replies == [])
  {
  }

  lemma OnlyOpenedDispatch(reg: Router.Registry, s: System, ids: set<ChannelId>)
    requires Router.Registered(reg, s.router)
    requires OnlyOpened(s, ids) && s.toGateway != []
    ensures OnlyOpened(Step(reg, s, Dispatch), ids)
  {
    var m := s.toGateway[0];
    if StripPrefix(m).Some? {
      var st := StripPrefix(m).value;
      assert Prefixed(st.prefix, st.msg.channel) == m.channel;
    }
  }

  lemma OnlyOpenedEmit(reg: Router.Registry, s: System, c: ChannelId, k: nat, w: Router.World, ids: set<ChannelId>)
    requires Router.Registered(reg, s.router) && HandlersKeepToTheirChannel(reg)
    requires OnlyOpened(s, ids)
    ensures OnlyOpened(Step(reg, s, StreamEmit(c, k, w)), ids)
  {
    var ss := StreamsOn(s.streams, c);
    if k < |ss| {
      assert OnOwnChannel([Emission(reg, c, ss[k], w)], c);
      assert c in ids;
    }
  }

  lemma OnlyOpenedStep(reg: Router.Registry, s: System, e: Event, ids: set<ChannelId>)
    requires Router.Registered(reg, s.router) && HandlersKeepToTheirChannel(reg)
    requires OnlyOpened(s, ids)
    ensures OnlyOpened(Step(reg, s, e), ids + OpenedIds([e]))
  {
    match e {
      case Connect(_) =>
      case Send(q, msg) =>
        assert OpenedIds([e]) == if msg.Open? then {Prefixed(q, msg.channel)} else {};
      case AgentHandle(w) =>
        if s.toAgent != [] {
          OnlyOpenedHandle(reg, s, w, ids);
        }
      case StreamEmit(c, k, w) =>
        OnlyOpenedEmit(reg, s, c, k, w, ids);
      case Dispatch =>
        if s.toGateway != [] {
          OnlyOpenedDispatch(reg, s, ids);
        }
    }
  }

  lemma {:induction false} OnlyOpenedRun(reg: Router.Registry, s: System, es: seq<Event>, ids: set<ChannelId>)
    requires Router.Registered(reg, s.router) && HandlersKeepToTheirChannel(reg)
    requires OnlyOpened(s, ids)
    ensures OnlyOpened(Run(reg, s, es), ids + OpenedIds(es))
    decreases es
  {
    if es != [] {
      OnlyOpenedStep(reg, s, es[0], ids);
      OnlyOpenedRun(reg, Step(reg, s, es[0]), es[1..], ids + OpenedIds([es[0]]));
      assert ids + OpenedIds([es[0]]) + OpenedIds(es[1..]) == ids + OpenedIds(es);
    } else {
      assert ids + OpenedIds(es) == ids;
    }
  }

  lemma {:induction false} OpenedBySomeone(es: seq<Event>, id: ChannelId)
    requires id in OpenedIds(es)
    ensures exists j :: 0 <= j < |es| && es[j].Send? && es[j].msg.Open? && Prefixed(es[j].prefix, es[j].msg.channel) == id
  {
    if es[0].Send? && es[0].msg.Open? && Prefixed(es[0].prefix, es[0].msg.channel) == id {
    } else {
      OpenedBySomeone(es[1..], id);
      var j :| 0 <= j < |es[1..]| && es[1..][j].Send? && es[1..][j].msg.Open?
               && Prefixed(es[1..][j].prefix, es[1..][j].msg.channel) == id;
      assert es[1..][j] == es[j + 1];
    }
  }

  /** A session only ever receives messages on ids, as it wrote them, that it opened itself. */
  lemma DeliveredOnOpenedChannels(reg: Router.Registry, es: seq<Event>, p: string, i: nat)
    requires HandlersKeepToTheirChannel(reg)
    requires forall j :: 0 <= j < |es| ==> WellFormed(es[j])
    requires |p| == SESSION_PREFIX_LEN
    requires p in Run(reg, INITIAL, es).inboxes && i < |Run(reg, INITIAL, es).inboxes[p]|
    ensures var m := Run(reg, INITIAL, es).inboxes[p][i];
            && HasChannel(m)
            && exists j :: 0 <= j < |es| && es[j].Send? && es[j].prefix == p
                        && es[j].msg.Open? && es[j].msg.channel == m.channel
  {
    OnlyOpenedRun(reg, INITIAL, es, {});
    var m := Run(reg, INITIAL, es).inboxes[p][i];
    var id := Prefixed(p, m.channel);
    assert id in {} + OpenedIds(es);
    OpenedBySomeone(es, id);
    var j :| 0 <= j < |es| && es[j].Send? && es[j].msg.Open? && Prefixed(es[j].prefix, es[j].msg.channel) == id;
    assert es[j].prefix == id[..SESSION_PREFIX_LEN] == p;
    assert es[j].msg.channel == id[SESSION_PREFIX_LEN + 1..] == m.channel;
  }

  // ----- The gateway's side of one connection -----

  /** One connected agent: the queue towards it and the subscribed sessions. */
  class AgentConn {
    var toAgent: seq<Message>
    var subscribers: map<string, seq<Message>>

    constructor ()
      ensures toAgent == INITIAL.toAgent && subscribers == INITIAL.inboxes
    {
      toAgent, subscribers := [], map[];
    }

    method ConnectSession(sessionId: string) returns (prefix: string)
      modifies this`subscribers
      ensures prefix == SessionPrefix(sessionId)
      ensures subscribers == old(subscribers)[prefix := []]
    {
      hide WithoutDashes;
      prefix := "";
      var i := 0;
      assert sessionId[0..] == sessionId && "" + WithoutDashes(sessionId) == WithoutDashes(sessionId);
      while i < |sessionId| && |prefix| < SESSION_PREFIX_LEN
        invariant 0 <= i <= |sessionId| && |prefix| <= SESSION_PREFIX_LEN
        invariant WithoutDashes(sessionId) == prefix + WithoutDashes(sessionId[i..])
        invariant subscribers == old(subscribers)
      {
        var c := sessionId[i];
        WithoutDashesFrom(sessionId, i, prefix);
        if c != '-' {
          prefix := prefix + [c];
        }
        i := i + 1;
      }
      NoDashes();
      assert i == |sessionId| ==> sessionId[i..] == "" && prefix + "" == prefix;
      subscribers := subscribers[prefix := []];
    }

    method Forward(prefix: string, msg: Message)
      modifies this`toAgent
      ensures toAgent == old(toAgent) + [PrefixMessage(msg, prefix)]
    {
      toAgent := toAgent + [PrefixMessage(msg, prefix)];
    }

    method DispatchFrame(msg: Message)
      modifies this`subscribers
      ensures subscribers == Deliver(old(subscribers), msg)
      ensures forall p, m | Carries(msg, p, m) && p in old(subscribers) ::
                subscribers == old(subscribers)[p := old(subscribers)[p] + [m]]
      ensures (forall p, m | Carries(msg, p, m) :: p !in old(subscribers)) ==> subscribers == old(subscribers)
    {
      forall p, m | Carries(msg, p, m)
        ensures p in subscribers ==> Deliver(subscribers, msg) == subscribers[p := subscribers[p] + [m]]
      {
        CarriedArrives(subscribers, msg, p, m);
      }
      if forall p, m | Carries(msg, p, m) :: p !in subscribers {
        UncarriedIsDropped(subscribers, msg);
      }
      hide Carries;
      if WireOk(msg) {
        match StripPrefix(msg)
        case None =>
        case Some(Stripped(m, p)) =>
          if p in subscribers {
            subscribers := subscribers[p := subscribers[p] + [m]];
          }
      }
    }
  }
}
