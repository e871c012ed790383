/** The agent's message router: three maps keyed by channel id, and the handlers behind them. */
module Router {
  import opened Wrappers
  import opened Protocol

  /** Whatever a handler learns from the machine while it runs (command output, clock, files). */
  type World = int

  datatype Input = Opened(options: Options) | Received(data: Value)

  /** One call of a handler's `open` or `data`, as the handler behind `payload` saw it. */
  datatype Call = Call(payload: string, input: Input, world: World)

  /**
   * A handler is any function of the channel, the calls made on that channel so far and the world.
   * `emit` gives the next message of a stream from the worlds it has met since it was spawned.
   */
  datatype Handler = Handler(
    streaming: bool,
    react: (ChannelId, seq<Call>) -> seq<Message>,
    emit: (ChannelId, Options, seq<World>) -> Message)

  type Registry = map<string, Handler>

  datatype State = State(
    active: map<ChannelId, string>,
    handlers: map<ChannelId, string>,
    options: map<ChannelId, Options>,
    calls: map<ChannelId, seq<Call>>)

  /** The stream that a streaming `Open` spawns. */
  datatype Spawn = Spawn(channel: ChannelId, options: Options)

  datatype Outcome = Outcome(state: State, replies: seq<Message>, spawned: Option<Spawn>)

  const INITIAL := State(map[], map[], map[], map[])

  function CallsOn(calls: map<ChannelId, seq<Call>>, c: ChannelId): seq<Call> {
    if c in calls then calls[c] else []
  }

  /** Copies `_user` and `_role` of the Open into an object; any other data passes through. */
  function Enrich(options: map<ChannelId, Options>, c: ChannelId, data: Value): Value {
    if c in options && data.Object? then Object(Inject(options[c].extra, data.fields)) else data
  }

  function Inject(extra: map<string, Value>, fields: map<string, Value>): map<string, Value> {
    var withUser := if "_user" in extra then fields["_user" := extra["_user"]] else fields;
    if "_role" in extra then withUser["_role" := extra["_role"]] else withUser
  }

  predicate Tracked(s: State, c: ChannelId) {
    c in s.active || c in s.handlers
  }

  /** The payload whose handler receives Data on `c`: a stream first, then a one-shot handler. */
  function Recipient(s: State, c: ChannelId): string
    requires Tracked(s, c)
  {
    if c in s.active then s.active[c] else s.handlers[c]
  }

  predicate Registered(reg: Registry, s: State) {
    && (forall c :: c in s.active ==> s.active[c] in reg)
    && (forall c :: c in s.handlers ==> s.handlers[c] in reg)
  }

  function Step(reg: Registry, s: State, msg: Message, w: World): (r: Outcome)
    requires Registered(reg, s)
    ensures Registered(reg, r.state)
  {
    match msg
    case Open(c, opts) =>
      if opts.payload !in reg then
        Outcome(s, [Close(c, Some("unknown-payload: " + opts.payload))], None)
      else if reg[opts.payload].streaming then
        Outcome(
          s.(active := s.active[c := opts.payload], options := s.options[c := opts]),
          [],
          Some(Spawn(c, opts)))
      else
        var log := CallsOn(s.calls, c) + [Call(opts.payload, Opened(opts), w)];
        var replies := reg[opts.payload].react(c, log);
        var s' := s.(handlers := s.handlers[c := opts.payload],
                     options := s.options[c := opts],
                     calls := s.calls[c := log]);
        Outcome(if ClosesChannel(replies, c) then s'.(handlers := s'.handlers - {c}, options := s'.options - {c}) else s',
                replies, None)
    case Data(c, data) =>
      if Tracked(s, c) then
        var payload := Recipient(s, c);
        var log := CallsOn(s.calls, c) + [Call(payload, Received(Enrich(s.options, c, data)), w)];
        Outcome(s.(calls := s.calls[c := log]), reg[payload].react(c, log), None)
      else
        Outcome(s, [], None)
    case Close(c, _) =>
      Outcome(s.(active := s.active - {c}, handlers := s.handlers - {c}, options := s.options - {c}), [], None)
    case Ping => Outcome(s, [Pong], None)
    case _ => Outcome(s, [], None)
  }

  /** The router object: `Handle` updates the maps in place and returns the immediate replies. */
  class AgentRouter {
    var registry: Registry
    var activeChannels: map<ChannelId, string>
    var channelHandlers: map<ChannelId, string>
    var channelOptions: map<ChannelId, Options>
    var calls: map<ChannelId, seq<Call>>

    ghost function View(): State
      reads this
    {
      State(activeChannels, channelHandlers, channelOptions, calls)
    }

    ghost predicate Valid()
      reads this
    {
      Registered(registry, View())
    }

    constructor ()
      ensures Valid() && View() == INITIAL && registry == map[]
    {
      registry, activeChannels, channelHandlers, channelOptions, calls := map[], map[], map[], map[], map[];
    }

    method Register(payload: string, handler: Handler)
      requires Valid()
      modifies this
      ensures Valid() && View() == old(View())
      ensures registry == old(registry)[payload := handler]
    {
      registry := registry[payload := handler];
    }

    method Invoke(payload: string, c: ChannelId, input: Input, w: World) returns (replies: seq<Message>)
      requires payload in registry
      modifies this`calls
      ensures var log := CallsOn(old(calls), c) + [Call(payload, input, w)];
              calls == old(calls)[c := log] && replies == registry[payload].react(c, log)
    {
      var log := CallsOn(calls, c) + [Call(payload, input, w)];
      calls := calls[c := log];
      replies := registry[payload].react(c, log);
    }

    method Handle(msg: Message, w: World) returns (replies: seq<Message>, spawned: Option<Spawn>)
      requires Valid()
      modifies this
      ensures Valid() && registry == old(registry)
      ensures Outcome(View(), replies, spawned) == Step(registry, old(View()), msg, w)
    {
      replies, spawned := [], None;
      match msg {
        case Open(c, opts) =>
          if opts.payload in registry {
            if registry[opts.payload].streaming {
              activeChannels := activeChannels[c := opts.payload];
              channelOptions := channelOptions[c := opts];
              spawned := Some(Spawn(c, opts));
            } else {
              channelHandlers := channelHandlers[c := opts.payload];
              channelOptions := channelOptions[c := opts];
              replies := Invoke(opts.payload, c, Opened(opts), w);
              if ClosesChannel(replies, c) {
                channelHandlers := channelHandlers - {c};
                channelOptions := channelOptions - {c};
              }
            }
          } else {
            replies := [Close(c, Some("unknown-payload: " + opts.payload))];
          }
        case Data(c, data) =>
          if c in activeChannels {
            replies := Invoke(activeChannels[c], c, Received(Enrich(channelOptions, c, data)), w);
          } else if c in channelHandlers {
            replies := Invoke(channelHandlers[c], c, Received(Enrich(channelOptions, c, data)), w);
          }
        case Close(c, _) =>
          activeChannels := activeChannels - {c};
          channelHandlers := channelHandlers - {c};
          channelOptions := channelOptions - {c};
        case Ping =>
          replies := [Pong];
        case _ =>
      }
    }
  }

  // ----- The maps are a function of the history -----

  /** What the router was sent and what it answered. */
  datatype Entry = Entry(msg: Message, replies: seq<Message>)

  datatype Trace = Trace(state: State, history: seq<Entry>)

  datatype Frame = Frame(msg: Message, world: World)

  function Run(reg: Registry, frames: seq<Frame>): (t: Trace)
    ensures Registered(reg, t.state) && |t.history| == |frames|
    ensures forall i :: 0 <= i < |frames| ==> t.history[i].msg == frames[i].msg
  {
    if frames == [] then Trace(INITIAL, [])
    else
      Extend(reg, Run(reg, frames[..|frames| - 1]), frames[|frames| - 1])
  }

  /** The trace after one more frame. */
  function Extend(reg: Registry, t: Trace, f: Frame): Trace
    requires Registered(reg, t.state)
  {
    var out := Step(reg, t.state, f.msg, f.world);
    Trace(out.state, t.history + [Entry(f.msg, out.replies)])
  }

  predicate OpensStream(reg: Registry, e: Entry, c: ChannelId) {
    && e.msg.Open? && e.msg.channel == c
    && e.msg.options.payload in reg && reg[e.msg.options.payload].streaming
  }

  predicate OpensPlain(reg: Registry, e: Entry, c: ChannelId) {
    && e.msg.Open? && e.msg.channel == c
    && e.msg.options.payload in reg && !reg[e.msg.options.payload].streaming
  }

  predicate Closes(e: Entry, c: ChannelId) {
    e.msg.Close? && e.msg.channel == c
  }

  /** Which of the three maps an entry settles for a channel. */
  datatype Which = Active | Handlers | OptionsMap

  predicate Settles(reg: Registry, which: Which, e: Entry, c: ChannelId) {
    match which
    case Active => OpensStream(reg, e, c) || Closes(e, c)
    case Handlers => OpensPlain(reg, e, c) || Closes(e, c)
    case OptionsMap => OpensStream(reg, e, c) || OpensPlain(reg, e, c) || Closes(e, c)
  }

  /** Index of the last entry that settles the map for `c`, or -1. */
  function Last(reg: Registry, which: Which, h: seq<Entry>, c: ChannelId): (i: int)
    ensures -1 <= i < |h|
    ensures i >= 0 ==> Settles(reg, which, h[i], c)
    ensures forall j :: i < j < |h| ==> !Settles(reg, which, h[j], c)
  {
    if h == [] then -1
    else if Settles(reg, which, h[|h| - 1], c) then |h| - 1
    else Last(reg, which, h[..|h| - 1], c)
  }

  lemma LastAppend(reg: Registry, which: Which, h: seq<Entry>, e: Entry, c: ChannelId)
    ensures Last(reg, which, h + [e], c)
         == if Settles(reg, which, e, c) then |h| else Last(reg, which, h, c)
  {
    assert (h + [e])[..|h|] == h;
  }

  ghost predicate ActiveMatches(reg: Registry, active: map<ChannelId, string>, h: seq<Entry>, c: ChannelId) {
    var i := Last(reg, Active, h, c);
    && (c in active <==> i >= 0 && h[i].msg.Open?)
    && (c in active ==> active[c] == h[i].msg.options.payload)
  }

  ghost predicate HandlersMatch(reg: Registry, handlers: map<ChannelId, string>, h: seq<Entry>, c: ChannelId) {
    var i := Last(reg, Handlers, h, c);
    && (c in handlers <==> i >= 0 && h[i].msg.Open? && !ClosesChannel(h[i].replies, c))
    && (c in handlers ==> handlers[c] == h[i].msg.options.payload)
  }

  ghost predicate OptionsMatch(reg: Registry, options: map<ChannelId, Options>, h: seq<Entry>, c: ChannelId) {
    var i := Last(reg, OptionsMap, h, c);
    && (c in options <==> i >= 0 && h[i].msg.Open? && (OpensStream(reg, h[i], c) || !ClosesChannel(h[i].replies, c)))
    && (c in options ==> options[c] == h[i].msg.options)
  }

  ghost predicate MapsMatch(reg: Registry, t: Trace, c: ChannelId) {
    && ActiveMatches(reg, t.state.active, t.history, c)
    && HandlersMatch(reg, t.state.handlers, t.history, c)
    && OptionsMatch(reg, t.state.options, t.history, c)
  }

  /** The two maps give `c` the same entry, or both give it none. */
  ghost predicate SameAt<T>(m: map<ChannelId, T>, m': map<ChannelId, T>, c: ChannelId) {
    (c in m <==> c in m') && (c in m ==> m[c] == m'[c])
  }

  /** A map changes at `c` only where an entry settles it. */
  lemma Unsettled(reg: Registry, s: State, f: Frame, c: ChannelId)
    requires Registered(reg, s)
    ensures var out := Step(reg, s, f.msg, f.world);
            var e := Entry(f.msg, out.replies);
            && (!Settles(reg, Active, e, c) ==> SameAt(s.active, out.state.active, c))
            && (!Settles(reg, Handlers, e, c) ==> SameAt(s.handlers, out.state.handlers, c))
            && (!Settles(reg, OptionsMap, e, c) ==> SameAt(s.options, out.state.options, c))
  {
    hide ClosesChannel, CallsOn, Enrich;
  }

  lemma ActiveMatchesExtend(reg: Registry, s: State, h: seq<Entry>, f: Frame, c: ChannelId)
    requires Registered(reg, s) && ActiveMatches(reg, s.active, h, c)
    ensures var out := Step(reg, s, f.msg, f.world);
            ActiveMatches(reg, out.state.active, h + [Entry(f.msg, out.replies)], c)
  {
    var out := Step(reg, s, f.msg, f.world);
    var e := Entry(f.msg, out.replies);
    LastAppend(reg, Active, h, e, c);
    Unsettled(reg, s, f, c);
  }

  lemma HandlersMatchExtend(reg: Registry, s: State, h: seq<Entry>, f: Frame, c: ChannelId)
    requires Registered(reg, s) && HandlersMatch(reg, s.handlers, h, c)
    ensures var out := Step(reg, s, f.msg, f.world);
            HandlersMatch(reg, out.state.handlers, h + [Entry(f.msg, out.replies)], c)
  {
    var out := Step(reg, s, f.msg, f.world);
    var e := Entry(f.msg, out.replies);
    LastAppend(reg, Handlers, h, e, c);
    Unsettled(reg, s, f, c);
  }

  lemma OptionsMatchExtend(reg: Registry, s: State, h: seq<Entry>, f: Frame, c: ChannelId)
    requires Registered(reg, s) && OptionsMatch(reg, s.options, h, c)
    ensures var out := Step(reg, s, f.msg, f.world);
            OptionsMatch(reg, out.state.options, h + [Entry(f.msg, out.replies)], c)
  {
    var out := Step(reg, s, f.msg, f.world);
    var e := Entry(f.msg, out.replies);
    LastAppend(reg, OptionsMap, h, e, c);
    Unsettled(reg, s, f, c);
  }

  /** After any frames at all, each map holds exactly what the last settling entry says. */
  lemma {:induction false} MapsEqualHistory(reg: Registry, frames: seq<Frame>, c: ChannelId)
    ensures MapsMatch(reg, Run(reg, frames), c)
  {
    if frames != [] {
      MapsEqualHistory(reg, frames[..|frames| - 1], c);
      var t, f := Run(reg, frames[..|frames| - 1]), frames[|frames| - 1];
      ActiveMatchesExtend(reg, t.state, t.history, f, c);
      HandlersMatchExtend(reg, t.state, t.history, f, c);
      OptionsMatchExtend(reg, t.state, t.history, f, c);
    }
  }

  // ----- Handler and injected identity -----

  /** The Open whose handler receives Data on `c`. */
  function HandlerOpen(reg: Registry, t: Trace, c: ChannelId): int {
    if c in t.state.active then Last(reg, Active, t.history, c) else Last(reg, Handlers, t.history, c)
  }

  /** The handler that receives Data and the options injected into it come from one Open. */
  predicate Agree(reg: Registry, t: Trace, c: ChannelId) {
    c in t.state.options && HandlerOpen(reg, t, c) == Last(reg, OptionsMap, t.history, c)
  }

  /** A one-shot payload was opened on `c` while its stream was still registered. */
  predicate PlainOverStream(reg: Registry, t: Trace, c: ChannelId) {
    && c in t.state.active
    && exists j :: Last(reg, Active, t.history, c) < j < |t.history| && OpensPlain(reg, t.history[j], c)
  }

  lemma {:induction false} AgreeExactly(reg: Registry, frames: seq<Frame>, c: ChannelId)
    requires Tracked(Run(reg, frames).state, c)
    ensures Agree(reg, Run(reg, frames), c) <==> !PlainOverStream(reg, Run(reg, frames), c)
  {
    var t := Run(reg, frames);
    MapsEqualHistory(reg, frames, c);
    var a, p, o := Last(reg, Active, t.history, c), Last(reg, Handlers, t.history, c), Last(reg, OptionsMap, t.history, c);
    assert a <= o && p <= o;
    assert o >= 0 ==> o == a || o == p;
  }

  /** No frame opens a registered payload on a channel that is still tracked. */
  ghost predicate NeverReopens(reg: Registry, frames: seq<Frame>) {
    frames == [] ||
    var init, msg := frames[..|frames| - 1], frames[|frames| - 1].msg;
    && NeverReopens(reg, init)
    && (msg.Open? && msg.options.payload in reg ==> !Tracked(Run(reg, init).state, msg.channel))
  }

  lemma NoPlainOverStreamExtend(reg: Registry, t: Trace, f: Frame, c: ChannelId)
    requires Registered(reg, t.state) && MapsMatch(reg, t, c) && !PlainOverStream(reg, t, c)
    requires f.msg.Open? && f.msg.channel == c && f.msg.options.payload in reg ==> !Tracked(t.state, c)
    ensures !PlainOverStream(reg, Extend(reg, t, f), c)
  {
    var e := Entry(f.msg, Step(reg, t.state, f.msg, f.world).replies);
    LastAppend(reg, Active, t.history, e, c);
    var t' := Extend(reg, t, f);
    assert forall i :: 0 <= i < |t.history| ==> t'.history[i] == t.history[i];
    assert t'.history[|t.history|] == e;
  }

  lemma {:induction false} NoPlainOverStream(reg: Registry, frames: seq<Frame>, c: ChannelId)
    requires NeverReopens(reg, frames)
    ensures !PlainOverStream(reg, Run(reg, frames), c)
  {
    if frames != [] {
      var init := frames[..|frames| - 1];
      NoPlainOverStream(reg, init, c);
      MapsEqualHistory(reg, init, c);
      NoPlainOverStreamExtend(reg, Run(reg, init), frames[|init|], c);
    }
  }

  /**
   * In a run that never re-opens a tracked id, object Data reaches the handler of the very Open
   * whose `_user` and `_role` it carries, and every other field arrives as it was sent.
   */
  lemma DataCarriesItsOpen(reg: Registry, frames: seq<Frame>, c: ChannelId, fields: map<string, Value>, w: World)
    requires NeverReopens(reg, frames)
    requires Tracked(Run(reg, frames).state, c)
    ensures Last(reg, OptionsMap, Run(reg, frames).history, c) >= 0
    ensures var t := Run(reg, frames);
            var o := Last(reg, OptionsMap, t.history, c);
            var after := Step(reg, t.state, Data(c, Object(fields)), w).state;
            && t.history[o].msg.Open?
            && var opts := t.history[o].msg.options;
            && var got := Inject(opts.extra, fields);
            && CarriesIdentity(opts, fields, got)
            && after.calls == t.state.calls[c := CallsOn(t.state.calls, c)
                                                 + [Call(opts.payload, Received(Object(got)), w)]]
  {
    var t := Run(reg, frames);
    var o := Last(reg, OptionsMap, t.history, c);
    assert o >= 0 && t.history[o].msg.Open? && c in t.state.options && t.state.options[c] == t.history[o].msg.options
           && Recipient(t.state, c) == t.history[o].msg.options.payload
    by {
      NoPlainOverStream(reg, frames, c);
      AgreeExactly(reg, frames, c);
      MapsEqualHistory(reg, frames, c);
    }
    var opts := t.history[o].msg.options;
    InjectCarriesIdentity(opts, fields);
  }

  /** `got` has the Open's `_user` and `_role` where it set them, and is `fields` everywhere else. */
  ghost predicate CarriesIdentity(opts: Options, fields: map<string, Value>, got: map<string, Value>) {
    && (forall k | k in ["_user", "_role"] && k in opts.extra :: k in got && got[k] == opts.extra[k])
    && (forall k | k !in ["_user", "_role"] || k !in opts.extra ::
          (k in got <==> k in fields) && (k in fields ==> got[k] == fields[k]))
  }

  lemma InjectCarriesIdentity(opts: Options, fields: map<string, Value>)
    ensures CarriesIdentity(opts, fields, Inject(opts.extra, fields))
  {
    assert "_user"[1] != "_role"[1];
  }

  /**
   * Why re-opening has to be excluded: a one-shot Open on a live stream leaves the stream as the
   * recipient, and, if the one-shot closes itself, leaves it without any identity to inject.
   */
  lemma {:induction false} ReopenSplitsIdentity(reg: Registry, c: ChannelId, a: Options, b: Options, w: World, fields: map<string, Value>)
    requires a.payload in reg && reg[a.payload].streaming
    requires b.payload in reg && !reg[b.payload].streaming
    ensures var t := Run(reg, [Frame(Open(c, a), w), Frame(Open(c, b), w)]);
            && Tracked(t.state, c) && Recipient(t.state, c) == a.payload
            && !Agree(reg, t, c)
            && (ClosesChannel(t.history[1].replies, c) ==> Enrich(t.state.options, c, Object(fields)) == Object(fields))
            && (!ClosesChannel(t.history[1].replies, c) ==> c in t.state.options && t.state.options[c] == b)
  {
    var frames := [Frame(Open(c, a), w), Frame(Open(c, b), w)];
    assert frames[..1] == [Frame(Open(c, a), w)];
    assert frames[..1][..0] == [];
    var t := Run(reg, frames);
    MapsEqualHistory(reg, frames, c);
    assert OpensPlain(reg, t.history[1], c) && OpensStream(reg, t.history[0], c);
    assert PlainOverStream(reg, t, c);
    AgreeExactly(reg, frames, c);
  }

  // ----- The replies are a function of the history -----

  /** The payload that the history says answers Data on `c`: its stream, or else its one-shot handler. */
  function RecipientBy(reg: Registry, h: seq<Entry>, c: ChannelId): Option<string> {
    var a, p := Last(reg, Active, h, c), Last(reg, Handlers, h, c);
    if a >= 0 && h[a].msg.Open? then Some(h[a].msg.options.payload)
    else if p >= 0 && h[p].msg.Open? && !ClosesChannel(h[p].replies, c) then Some(h[p].msg.options.payload)
    else None
  }

  /** Object Data as the history says it is passed on. */
  function EnrichedBy(reg: Registry, h: seq<Entry>, c: ChannelId, data: Value): Value {
    var o := Last(reg, OptionsMap, h, c);
    if && data.Object? && o >= 0 && h[o].msg.Open?
       && (OpensStream(reg, h[o], c) || !ClosesChannel(h[o].replies, c))
    then Object(Inject(h[o].msg.options.extra, data.fields))
    else data
  }

  /** The call a frame makes on `c`, if it makes one. */
  function CallBy(reg: Registry, h: seq<Entry>, f: Frame, c: ChannelId): Option<Call> {
    match f.msg
    case Open(c', opts) =>
      if c' == c && opts.payload in reg && !reg[opts.payload].streaming then Some(Call(opts.payload, Opened(opts), f.world))
      else None
    case Data(c', data) =>
      var p := RecipientBy(reg, h, c);
      if c' == c && p.Some? then Some(Call(p.value, Received(EnrichedBy(reg, h, c, data)), f.world)) else None
    case _ => None
  }

  /** All calls that the frames make on `c`, in order. */
  function CallsBy(reg: Registry, frames: seq<Frame>, c: ChannelId): seq<Call> {
    if frames == [] then []
    else
      var init := frames[..|frames| - 1];
      var call := CallBy(reg, Run(reg, init).history, frames[|frames| - 1], c);
      CallsBy(reg, init, c) + if call.Some? then [call.value] else []
  }

  lemma HistoryDecides(reg: Registry, frames: seq<Frame>, c: ChannelId, data: Value)
    ensures var t := Run(reg, frames);
            && (Tracked(t.state, c) <==> RecipientBy(reg, t.history, c).Some?)
            && (Tracked(t.state, c) ==> RecipientBy(reg, t.history, c) == Some(Recipient(t.state, c)))
            && Enrich(t.state.options, c, data) == EnrichedBy(reg, t.history, c, data)
  {
    MapsEqualHistory(reg, frames, c);
    hide Inject, ClosesChannel;
  }

  lemma StepMakesCall(reg: Registry, s: State, h: seq<Entry>, f: Frame, c: ChannelId)
    requires Registered(reg, s)
    requires Tracked(s, c) <==> RecipientBy(reg, h, c).Some?
    requires Tracked(s, c) ==> RecipientBy(reg, h, c) == Some(Recipient(s, c))
    requires f.msg.Data? ==> Enrich(s.options, c, f.msg.data) == EnrichedBy(reg, h, c, f.msg.data)
    ensures var call := CallBy(reg, h, f, c);
            CallsOn(Step(reg, s, f.msg, f.world).state.calls, c) == CallsOn(s.calls, c) + if call.Some? then [call.value] else []
  {
    hide RecipientBy, EnrichedBy, Enrich, ClosesChannel, Recipient;
    assert CallsOn(s.calls, c) + [] == CallsOn(s.calls, c);
  }

  /** What a handler is shown of its channel is exactly the calls the frames made on it. */
  lemma {:induction false} CallsEqualHistory(reg: Registry, frames: seq<Frame>, c: ChannelId)
    ensures CallsOn(Run(reg, frames).state.calls, c) == CallsBy(reg, frames, c)
  {
    if frames != [] {
      var init, f := frames[..|frames| - 1], frames[|frames| - 1];
      var t := Run(reg, init);
      CallsEqualHistory(reg, init, c);
      HistoryDecides(reg, init, c, if f.msg.Data? then f.msg.data else Null);
      hide CallBy, Step, Tracked, RecipientBy, EnrichedBy, Enrich, Recipient;
      StepMakesCall(reg, t.state, t.history, f, c);
    }
  }

  /** What a frame that comes after the others is answered with, and which stream it starts. */
  ghost predicate AnsweredBy(reg: Registry, frames: seq<Frame>, f: Frame, replies: seq<Message>, spawned: Option<Spawn>) {
    var h := Run(reg, frames).history;
    match f.msg
    case Open(c, opts) =>
      if opts.payload !in reg then
        replies == [Close(c, Some("unknown-payload: " + opts.payload))] && spawned == None
      else if reg[opts.payload].streaming then
        replies == [] && spawned == Some(Spawn(c, opts))
      else
        && replies == reg[opts.payload].react(c, CallsBy(reg, frames, c) + [Call(opts.payload, Opened(opts), f.world)])
        && spawned == None
    case Data(c, data) =>
      var p := RecipientBy(reg, h, c);
      && spawned == None
      && if p.None? then replies == []
         else
           && p.value in reg
           && replies == reg[p.value].react(c,
                CallsBy(reg, frames, c) + [Call(p.value, Received(EnrichedBy(reg, h, c, data)), f.world)])
    case Ping => replies == [Pong] && spawned == None
    case _ => replies == [] && spawned == None
  }

  /** After any frames at all, the next one is answered as the history demands. */
  lemma RepliesEqualHistory(reg: Registry, frames: seq<Frame>, f: Frame)
    ensures var out := Step(reg, Run(reg, frames).state, f.msg, f.world);
            AnsweredBy(reg, frames, f, out.replies, out.spawned)
  {
    if f.msg.Open? || f.msg.Data? {
      CallsEqualHistory(reg, frames, f.msg.channel);
      HistoryDecides(reg, frames, f.msg.channel, if f.msg.Data? then f.msg.data else Null);
    }
    hide RecipientBy, EnrichedBy, Enrich, CallsBy, ClosesChannel, Run, CallsOn;
  }
}
