/** Runs from an empty gateway that show why the conditions on enrolment cannot be dropped. */
module EnrolmentRuns {
  import opened Wrappers
  import opened Octets
  import opened Challenge
  import opened Hosts
  import opened Enrolment
  import CurrentKeys
  import Tokens
  import Pending

  function EmptyGateway(id: Bytes): Gateway {
    Gateway(id, [], Tokens.EMPTY, map[], map[], map[], map[], 0, {}, map[], [], [], map[])
  }

  lemma EmptyIsInitial(id: Bytes)
    ensures Initial(EmptyGateway(id))
  {
  }

  /** `es` is a possible run from the empty gateway, and leads to `s`. */
  ghost predicate Reaches(id: Bytes, es: seq<Event>, s: Gateway) {
    Initial(EmptyGateway(id)) && Lawful(EmptyGateway(id), es) && Run(EmptyGateway(id), es) == s
  }

  lemma Begin(id: Bytes)
    ensures Reaches(id, [], EmptyGateway(id))
  {
    EmptyIsInitial(id);
    hide Initial;
  }

  lemma Extend(id: Bytes, es: seq<Event>, s: Gateway, e: Event)
    requires Reaches(id, es, s) && Possible(s, e)
    ensures Reaches(id, es + [e], Step(s, e))
  {
    hide Initial, Possible, Step;
    assert (es + [e])[..|es + [e]| - 1] == es;
  }

  function Nonce(i: byte): Bytes {
    seq(NONCE_LEN, _ => i)
  }

  function Greeting(hostname: Hostname, key: Key): Hello {
    Hello(2, hostname, false, Some(key), None, None)
  }

  function Fresh(hostname: Hostname, key: Key, i: byte, ip: string): Conn {
    Conn(Greeting(hostname, key), key, Nonce(i), ip, AwaitResponse)
  }

  function Answer(s: Gateway, k: Conn): Signature {
    Signed(k.key, Payload(k.nonce, k.hello.hostname, s.id))
  }

  // ----- Stretches of a handshake -----

  /** A new agent connects and its key holder signs the challenge. */
  function Connected(s: Gateway, c: ConnId, k: Conn): Gateway {
    s.(conns := s.conns[c := k], signed := s.signed + {Answer(s, k)})
  }

  /** No connection has this nonce. */
  ghost predicate NonceFree(s: Gateway, i: byte) {
    forall d | d in s.conns :: |s.conns[d].nonce| == NONCE_LEN && s.conns[d].nonce[0] != i
  }

  lemma Connects(id: Bytes, es: seq<Event>, s: Gateway, c: ConnId, hostname: Hostname, key: Key, i: byte, ip: string)
    returns (es': seq<Event>)
    requires Reaches(id, es, s)
    requires c !in s.conns && NonceFree(s, i)
    ensures Reaches(id, es', Connected(s, c, Fresh(hostname, key, i, ip)))
  {
    hide Reaches, Payload;
    var k := Fresh(hostname, key, i, ip);
    var greet, sign := Greet(c, k.hello, k.nonce, ip), Sign(key, Payload(k.nonce, hostname, s.id));
    assert |k.nonce| == NONCE_LEN && k.nonce[0] == i;
    Extend(id, es, s, greet);
    Extend(id, es + [greet], Step(s, greet), sign);
    es' := es + [greet] + [sign];
  }

  /** The agent may answer its challenge. */
  ghost predicate CanAnswer(s: Gateway, c: ConnId) {
    && InPhase(s, c, AwaitResponse) && Answer(s, s.conns[c]) in s.signed
    && s.conns[c].hello.bootstrapToken.None?
  }

  function Responding(s: Gateway, c: ConnId, freshId: HostId): Event
    requires c in s.conns
  {
    Respond(c, Answer(s, s.conns[c]), freshId, true)
  }

  /** Nobody knows the agent: it joins the queue. */
  function Queued(s: Gateway, c: ConnId): Gateway
    requires c in s.conns
  {
    var k := s.conns[c];
    MoveTo(s, c, Waiting).(pending := s.pending[k.key := Pending.Entry(k.hello.hostname, k.remoteIp, k.hello.osId, c)])
  }

  lemma JoinsQueue(id: Bytes, es: seq<Event>, s: Gateway, c: ConnId, freshId: HostId) returns (es': seq<Event>)
    requires Reaches(id, es, s) && CanAnswer(s, c) && !Loopback(s.conns[c].remoteIp) && freshId !in s.names
    requires FindByPubkey(s.hosts, s.conns[c].key).None? && FindByHostname(s.hosts, s.conns[c].hello.hostname).None?
    requires Pending.Admits(s.pending, s.conns[c].key, s.conns[c].remoteIp)
    ensures Reaches(id, es', Queued(s, c))
  {
    hide Reaches, Payload, Pending.Admits;
    var respond, enqueue := Responding(s, c, freshId), Enqueue(c);
    Extend(id, es, s, respond);
    assert Step(s, respond) == MoveTo(s, c, Verified);
    Extend(id, es + [respond], Step(s, respond), enqueue);
    es' := es + [respond] + [enqueue];
    assert Step(MoveTo(s, c, Verified), enqueue).conns == Queued(s, c).conns;
  }

  /** Over loopback an unknown agent becomes a new host at once. */
  function Local(s: Gateway, k: Conn, freshId: HostId): Host {
    NewHost(freshId, k.hello.hostname, k.key, true, None, k.hello.osId, s.clock)
  }

  function EnrolledLocally(s: Gateway, c: ConnId, freshId: HostId): Gateway
    requires c in s.conns
  {
    var h := Local(s, s.conns[c], freshId);
    MoveTo(s, c, Admitted(h)).(hosts := s.hosts + [h], names := s.names[freshId := h.hostname])
  }

  lemma EnrolsLocally(id: Bytes, es: seq<Event>, s: Gateway, c: ConnId, freshId: HostId) returns (es': seq<Event>)
    requires Reaches(id, es, s) && CanAnswer(s, c) && Loopback(s.conns[c].remoteIp) && freshId !in s.names
    requires FindByPubkey(s.hosts, s.conns[c].key).None? && FindByHostname(s.hosts, s.conns[c].hello.hostname).None?
    ensures Reaches(id, es', EnrolledLocally(s, c, freshId))
  {
    hide Reaches, Payload;
    Extend(id, es, s, Responding(s, c, freshId));
    es' := es + [Responding(s, c, freshId)];
  }

  /** A known key is admitted as its host. */
  lemma Returns(id: Bytes, es: seq<Event>, s: Gateway, c: ConnId, freshId: HostId) returns (es': seq<Event>)
    requires Reaches(id, es, s) && CanAnswer(s, c) && freshId !in s.names
    requires FindByPubkey(s.hosts, s.conns[c].key).Some?
    ensures Reaches(id, es', MoveTo(s, c, Admitted(FindByPubkey(s.hosts, s.conns[c].key).value)))
  {
    hide Reaches, Payload;
    Extend(id, es, s, Responding(s, c, freshId));
    es' := es + [Responding(s, c, freshId)];
  }

  /** An admitted agent without an os id is acknowledged and registered. */
  function Served(s: Gateway, c: ConnId): Gateway
    requires c in s.conns && s.conns[c].phase.Admitted?
  {
    var h := s.conns[c].phase.host;
    MoveTo(s, c, Registered(h)).(online := s.online[h.id := c], registered := s.registered + [Registration(c, h)])
  }

  lemma Registers(id: Bytes, es: seq<Event>, s: Gateway, c: ConnId) returns (es': seq<Event>)
    requires Reaches(id, es, s) && c in s.conns && s.conns[c].phase.Admitted? && s.conns[c].hello.osId.None?
    ensures Reaches(id, es', Served(s, c))
  {
    hide Reaches;
    Extend(id, es, s, Acknowledge(c, true, true));
    es' := es + [Acknowledge(c, true, true)];
  }

  function Approving(key: Key, freshId: HostId): Event {
    Approve(0, key, None, freshId, true, true)
  }

  // ----- The runs -----

  lemma AdmitsFirst(key: Key, ip: Pending.Address)
    ensures Pending.Admits(map[], key, ip)
  {
    assert Pending.From(map[], ip) == {};
  }

  const REMOTE := "10.0.0.1"
  const LOOPBACK := "::1"

  /** One agent waits in the queue. */
  function OneWaits(id: Bytes, name: Hostname, key: Key): Gateway {
    EmptyGateway(id).(
      conns := map[0 := Fresh(name, key, 0, REMOTE).(phase := Waiting)],
      pending := map[key := Pending.Entry(name, REMOTE, None, 0)],
      signed := {Signed(key, Payload(Nonce(0), name, id))})
  }

  lemma OneWaitsRun(id: Bytes, name: Hostname, key: Key) returns (es: seq<Event>)
    ensures Reaches(id, es, OneWaits(id, name, key))
  {
    hide Reaches, Payload, Nonce, Loopback;
    var s0, k := EmptyGateway(id), Fresh(name, key, 0, REMOTE);
    Begin(id);
    es := Connects(id, [], s0, 0, name, key, 0, REMOTE);
    var s1 := Connected(s0, 0, k);
    AdmitsFirst(key, REMOTE);
    NotLoopback();
    es := JoinsQueue(id, es, s1, 0, "A");
    assert Queued(s1, 0) == OneWaits(id, name, key);
  }

  lemma NotLoopback()
    ensures !Loopback(REMOTE) && Loopback(LOOPBACK)
  {
  }

  /** And a second agent has connected, for this hostname and with this key. */
  function TwoConnected(id: Bytes, name: Hostname, key: Key, name2: Hostname, key2: Key, ip: string): Gateway {
    Connected(OneWaits(id, name, key), 1, Fresh(name2, key2, 1, ip))
  }

  lemma TwoConnectedRun(id: Bytes, name: Hostname, key: Key, name2: Hostname, key2: Key, ip: string) returns (es: seq<Event>)
    ensures Reaches(id, es, TwoConnected(id, name, key, name2, key2, ip))
  {
    hide Reaches, Payload;
    es := OneWaitsRun(id, name, key);
    es := Connects(id, es, OneWaits(id, name, key), 1, name2, key2, 1, ip);
  }

  /** The second agent is on the gateway's own machine and has become a host. */
  function SecondEnrolled(id: Bytes, name: Hostname, key: Key, name2: Hostname, key2: Key): Gateway {
    EnrolledLocally(TwoConnected(id, name, key, name2, key2, LOOPBACK), 1, "A")
  }

  lemma SecondEnrolledRun(id: Bytes, name: Hostname, key: Key, name2: Hostname, key2: Key) returns (es: seq<Event>)
    ensures Reaches(id, es, SecondEnrolled(id, name, key, name2, key2))
  {
    hide Reaches, Payload, Nonce, Loopback;
    NotLoopback();
    es := TwoConnectedRun(id, name, key, name2, key2, LOOPBACK);
    es := EnrolsLocally(id, es, TwoConnected(id, name, key, name2, key2, LOOPBACK), 1, "A");
  }

  /** A key waits under one hostname, enrols under another, and is approved: two hosts have it. */
  lemma CollisionRun(id: Bytes, key: Key, name: Hostname, other: Hostname) returns (es: seq<Event>)
    requires name != other
    ensures Initial(EmptyGateway(id)) && Lawful(EmptyGateway(id), es)
    ensures var hosts := Run(EmptyGateway(id), es).hosts;
            |hosts| == 2 && hosts[0].publicKey == hosts[1].publicKey == Some(key) && !UniqueKeys(hosts)
  {
    hide Initial, Lawful, Run, Payload, Nonce, Loopback;
    var s := SecondEnrolled(id, name, key, other, key);
    es := SecondEnrolledRun(id, name, key, other, key);
    assert FindByHostname(s.hosts, name).None?;
    Extend(id, es, s, Approving(key, "B"));
    es := es + [Approving(key, "B")];
  }

  /** A waiting agent connects again before its old connection gives up, and loses its queue entry. */
  lemma AbandonRun(id: Bytes, key: Key, name: Hostname) returns (es: seq<Event>)
    ensures Initial(EmptyGateway(id)) && Lawful(EmptyGateway(id), es)
    ensures var s := Run(EmptyGateway(id), es);
            InPhase(s, 1, Waiting) && s.conns[1].key == key && key !in s.pending
  {
    hide Initial, Lawful, Run, Payload, Nonce, Loopback;
    var s := TwoConnected(id, name, key, name, key, REMOTE);
    NotLoopback();
    es := TwoConnectedRun(id, name, key, name, key, REMOTE);
    es := JoinsQueue(id, es, s, 1, "A");
    Extend(id, es, Queued(s, 1), Abandon(0));
    es := es + [Abandon(0)];
  }

  /** One agent has been enrolled over loopback, and is admitted but not registered yet. */
  function OneAdmitted(id: Bytes, name: Hostname, key: Key): Gateway {
    EnrolledLocally(Connected(EmptyGateway(id), 0, Fresh(name, key, 0, LOOPBACK)), 0, "A")
  }

  /** It is registered, and has connected a second time. */
  function OneReturned(id: Bytes, name: Hostname, key: Key): Gateway {
    Connected(Served(OneAdmitted(id, name, key), 0), 1, Fresh(name, key, 1, LOOPBACK))
  }

  lemma OneReturnedRun(id: Bytes, name: Hostname, key: Key) returns (es: seq<Event>)
    ensures Reaches(id, es, OneReturned(id, name, key))
  {
    hide Reaches, Payload, Loopback;
    NotLoopback();
    Begin(id);
    es := Connects(id, [], EmptyGateway(id), 0, name, key, 0, LOOPBACK);
    es := EnrolsLocally(id, es, Connected(EmptyGateway(id), 0, Fresh(name, key, 0, LOOPBACK)), 0, "A");
    es := Registers(id, es, OneAdmitted(id, name, key), 0);
    es := Connects(id, es, Served(OneAdmitted(id, name, key), 0), 1, name, key, 1, LOOPBACK);
  }

  /** A host's agent reconnects before its old connection is cleaned up, and ends up unregistered. */
  lemma LateCleanupRun(id: Bytes, key: Key, name: Hostname) returns (es: seq<Event>)
    ensures Initial(EmptyGateway(id)) && Lawful(EmptyGateway(id), es)
    ensures var s := Run(EmptyGateway(id), es);
            1 in s.conns && s.conns[1].phase.Registered? && s.conns[1].phase.host.id !in s.online
  {
    hide Initial, Lawful, Run, Payload, Nonce, Loopback;
    var s := OneReturned(id, name, key);
    es := OneReturnedRun(id, name, key);
    es := Returns(id, es, s, 1, "B");
    var s' := MoveTo(s, 1, Admitted(FindByPubkey(s.hosts, key).value));
    es := Registers(id, es, s', 1);
    Extend(id, es, Served(s', 1), Disconnect(0, true));
    es := es + [Disconnect(0, true)];
  }

  /** Approval re-keys a host that is online, and leaves the old key's connection in the registry. */
  lemma OutdatedByApprovalRun(id: Bytes, name: Hostname, key: Key, other: Key) returns (es: seq<Event>)
    requires key != other
    ensures Initial(EmptyGateway(id)) && Lawful(EmptyGateway(id), es)
    ensures var s := Run(EmptyGateway(id), es);
            && |s.hosts| == 1 && s.hosts[0].publicKey == Some(key)
            && CurrentKeys.Serving(s.online, s.conns, s.hosts[0].id) == Some(other)
            && !CurrentKeys.KeysCurrent(s)
  {
    hide Initial, Lawful, Run, Payload, Nonce, Loopback;
    var s := SecondEnrolled(id, name, key, name, other);
    es := SecondEnrolledRun(id, name, key, name, other);
    es := Registers(id, es, s, 1);
    Extend(id, es, Served(s, 1), Approving(key, "B"));
    es := es + [Approving(key, "B")];
  }

  /** Approval re-keys a host whose connection is admitted but not registered yet; it registers anyway. */
  lemma OutdatedByRegistrationRun(id: Bytes, name: Hostname, key: Key, other: Key) returns (es: seq<Event>)
    requires key != other
    ensures Initial(EmptyGateway(id)) && Lawful(EmptyGateway(id), es)
    ensures var s := Run(EmptyGateway(id), es);
            && |s.hosts| == 1 && s.hosts[0].publicKey == Some(key)
            && CurrentKeys.Serving(s.online, s.conns, s.hosts[0].id) == Some(other)
            && !CurrentKeys.KeysCurrent(s)
  {
    hide Initial, Lawful, Run, Payload, Nonce, Loopback;
    var s := SecondEnrolled(id, name, key, name, other);
    es := SecondEnrolledRun(id, name, key, name, other);
    Extend(id, es, s, Approving(key, "B"));
    es := es + [Approving(key, "B")];
    es := Registers(id, es, Step(s, Approving(key, "B")), 1);
  }
}
