/**
 * How agents get enrolled: every connection runs its own handshake, and all of them share the list
 * of hosts, the bootstrap tokens and the queue of pending agents.
 */
module Enrolment {
  import opened Wrappers
  import opened Octets
  import opened Challenge
  import opened Hosts
  import Tokens
  import Pending

  type ConnId = Pending.ConnId

  datatype Hello = Hello(
    version: nat,
    hostname: Hostname,
    isLocal: bool,
    publicKey: Option<Key>,
    bootstrapToken: Option<string>,
    osId: Option<string>)

  predicate Loopback(ip: string) {
    ip == "127.0.0.1" || ip == "::1"
  }

  // ----- Which way a verified agent takes -----

  datatype Path = Authenticated(host: Host) | Queued(reason: string) | Reject

  /** The outcome, and `used`: the token that was consumed; `minted`: the id of a new host. */
  datatype Resolution = Resolution(
    hosts: seq<Host>,
    tokens: Tokens.Registry,
    online: map<HostId, ConnId>,
    path: Path,
    used: Option<Tokens.TokenId>,
    minted: Option<HostId>)

  /** What the random number generator, the disk and the clock contribute. */
  datatype Chance = Chance(freshId: HostId, saveOk: bool, now: Time)

  ghost function Enrol(hosts: seq<Host>, tokens: Tokens.Registry, online: map<HostId, ConnId>, hello: Hello, key: Key,
                       isLocal: bool, used: Option<Tokens.TokenId>, x: Chance): Resolution {
    if x.saveOk then
      var h := NewHost(x.freshId, hello.hostname, key, isLocal, None, hello.osId, x.now);
      Resolution(hosts + [h], tokens, online, Authenticated(h), used, Some(x.freshId))
    else Resolution(hosts, tokens, online, Reject, used, None)
  }

  ghost function Rekey(hosts: seq<Host>, tokens: Tokens.Registry, online: map<HostId, ConnId>, existing: Host, key: Key,
                       used: Option<Tokens.TokenId>, x: Chance): Resolution {
    if x.saveOk then
      Resolution(WithEdit(hosts, existing.id, SetKey(key)), tokens, online - {existing.id},
                 Authenticated(existing.(publicKey := Some(key))), used, None)
    else Resolution(hosts, tokens, online, Reject, used, None)
  }

  ghost function Resolve(hosts: seq<Host>, tokens: Tokens.Registry, online: map<HostId, ConnId>,
                         hello: Hello, key: Key, remoteIp: string, x: Chance): Resolution {
    var known, existing := FindByPubkey(hosts, key), FindByHostname(hosts, hello.hostname);
    if known.Some? then
      Resolution(hosts, tokens, online, Authenticated(known.value), None, None)
    else if existing.Some? then
      if hello.bootstrapToken.Some? then
        var a := Tokens.Validate(tokens, hello.bootstrapToken.value, hello.hostname, x.now);
        if a.reEnroll == Some(true) then Rekey(hosts, a.reg, online, existing.value, key, a.used, x)
        else Resolution(hosts, a.reg, online, Reject, a.used, None)
      else Resolution(hosts, tokens, online, Reject, None, None)
    else if hello.bootstrapToken.Some? then
      var a := Tokens.Validate(tokens, hello.bootstrapToken.value, hello.hostname, x.now);
      if a.reEnroll.Some? then Enrol(hosts, a.reg, online, hello, key, hello.isLocal, a.used, x)
      else Resolution(hosts, a.reg, online, Queued("token_invalid"), a.used, None)
    else if Loopback(remoteIp) then
      Enrol(hosts, tokens, online, hello, key, true, None, x)
    else
      Resolution(hosts, tokens, online, Queued("enrollment_required"), None, None)
  }

  /** The registry of connected agents: host id to the connection that serves it. */
  class AgentRegistry {
    var online: map<HostId, ConnId>

    constructor ()
      ensures online == map[]
    {
      online := map[];
    }

    method Register(id: HostId, conn: ConnId)
      modifies this
      ensures online == old(online)[id := conn]
    {
      online := online[id := conn];
    }

    method Unregister(id: HostId)
      modifies this
      ensures online == old(online) - {id}
    {
      online := online - {id};
    }
  }

  method ResolveAuthPath(hosts: HostsFile, tokens: Tokens.BootstrapRegistry, registry: AgentRegistry,
                         hello: Hello, key: Key, remoteIp: string, x: Chance) returns (path: Path)
    requires tokens.Valid() && UniqueIds(hosts.hosts)
    modifies hosts, tokens, registry
    ensures tokens.Valid()
    ensures var r := Resolve(old(hosts.hosts), old(tokens.tokens), old(registry.online), hello, key, remoteIp, x);
            && hosts.hosts == r.hosts && tokens.tokens == r.tokens && registry.online == r.online && path == r.path
  {
    var known := hosts.LookupByPubkey(key);
    if known.Some? {
      return Authenticated(known.value);
    }
    var existing := hosts.LookupByHostname(hello.hostname);
    if existing.Some? {
      if hello.bootstrapToken.Some? {
        var reEnroll, _ := tokens.ValidateAndConsume(hello.bootstrapToken.value, hello.hostname, x.now);
        if reEnroll == Some(true) {
          HostnameFound(hosts.hosts, hello.hostname);
          FoundById(hosts.hosts, existing.value);
          var updated := hosts.ReplacePubkey(existing.value.id, key, x.saveOk);
          if updated.None? {
            return Reject;
          }
          registry.Unregister(existing.value.id);
          return Authenticated(updated.value);
        }
      }
      return Reject;
    }
    if hello.bootstrapToken.Some? {
      var accepted, _ := tokens.ValidateAndConsume(hello.bootstrapToken.value, hello.hostname, x.now);
      if accepted.None? {
        return Queued("token_invalid");
      }
      var enrolled := hosts.RegisterHost(x.freshId, hello.hostname, key, hello.isLocal, None, hello.osId, x.now, x.saveOk);
      return if enrolled.Some? then Authenticated(enrolled.value) else Reject;
    }
    if Loopback(remoteIp) {
      var enrolled := hosts.RegisterHost(x.freshId, hello.hostname, key, true, None, hello.osId, x.now, x.saveOk);
      return if enrolled.Some? then Authenticated(enrolled.value) else Reject;
    }
    path := Queued("enrollment_required");
  }

  lemma FoundById(hs: seq<Host>, h: Host)
    requires UniqueIds(hs) && h in hs
    ensures IndexOfId(hs, h.id) < |hs| && hs[IndexOfId(hs, h.id)] == h
  {
    var i := IndexOfId(hs, h.id);
    SameIdSameHost(hs, hs[i], h);
  }

  // ----- The gateway as a step system -----

  /** `Verified` has been told to wait; `Waiting` sits in the queue; `Admitted` holds its host. */
  datatype Phase = AwaitResponse | Verified | Waiting | Admitted(host: Host) | Registered(host: Host) | Closed

  datatype Conn = Conn(hello: Hello, key: Key, nonce: Bytes, remoteIp: string, phase: Phase)

  /** An administrator's approval between writing the hosts file and telling the connection. */
  datatype Approval = Approval(key: Key, host: Host)

  datatype Registration = Registration(conn: ConnId, host: Host)

  datatype Gateway = Gateway(
    id: Bytes,
    hosts: seq<Host>,
    tokens: Tokens.Book,
    pending: Pending.Queue,
    online: map<HostId, ConnId>,
    conns: map<ConnId, Conn>,
    approvals: map<nat, Approval>,
    clock: Time,
    signed: set<Signature>,                 // every signature a key holder ever made
    names: map<HostId, Hostname>,           // every host id ever minted, with the hostname it was for
    granted: seq<ConnId>,                   // connections that received an approval
    registered: seq<Registration>,          // every call of the registry's `register`
    enrolledBy: map<Tokens.TokenId, nat>)   // hosts enrolled or re-keyed with a token

  datatype Event =
    | Tick(elapsed: nat)
    | Sign(key: Key, payload: Bytes)
    | Greet(conn: ConnId, hello: Hello, nonce: Bytes, remoteIp: string)
    | Respond(conn: ConnId, signature: Signature, freshId: HostId, saveOk: bool)
    | Enqueue(conn: ConnId)
    | Approve(request: nat, key: Key, displayName: Option<string>, freshId: HostId, saveOk: bool, saveNameOk: bool)
    | Deliver(request: nat)
    | Abandon(conn: ConnId)
    | HangUp(conn: ConnId)
    | Acknowledge(conn: ConnId, sentOk: bool, saveOk: bool)
    | Disconnect(conn: ConnId, saveOk: bool)
    | RemoveHost(host: HostId, saveOk: bool)
    | Rename(host: HostId, displayName: Option<string>, saveOk: bool)
    | LoseHosts                             // hosts.json is cut short or damaged, and reads as empty
    | IssueToken(token: Tokens.TokenId, issue: Tokens.Token)
    | RevokeToken(token: Tokens.TokenId)
    | SweepTokens

  predicate InPhase(s: Gateway, c: ConnId, phase: Phase) {
    c in s.conns && s.conns[c].phase == phase
  }

  /** The step stayed within the handshake: it left the hosts file, the tokens and the registry alone. */
  predicate SameFiles(s: Gateway, s': Gateway) {
    s'.hosts == s.hosts && s'.online == s.online && s'.names == s.names && s'.tokens == s.tokens && s'.enrolledBy == s.enrolledBy && s'.clock == s.clock
  }

  /** At most one connection, a live one, went into another phase. */
  ghost predicate MovesOne(s: Gateway, s': Gateway) {
    || s'.conns == s.conns
    || exists c, phase :: c in s.conns && s.conns[c].phase != Closed && s'.conns == s.conns[c := s.conns[c].(phase := phase)]
  }

  function MoveTo(s: Gateway, c: ConnId, phase: Phase): Gateway
    requires c in s.conns
  {
    s.(conns := s.conns[c := s.conns[c].(phase := phase)])
  }

  /** The hosts file and the host an approval of this queue entry produces. */
  function Approved(hosts: seq<Host>, key: Key, e: Pending.Entry, ev: Event, now: Time): (seq<Host>, Host)
    requires ev.Approve?
  {
    var existing := FindByHostname(hosts, e.hostname);
    if existing.Some? then
      var rekeyed := WithEdit(hosts, existing.value.id, SetKey(key));
      var updated := existing.value.(publicKey := Some(key));
      if ev.displayName.Some? then
        (if ev.saveNameOk then WithEdit(rekeyed, existing.value.id, SetDisplayName(ev.displayName)) else rekeyed,
         updated.(displayName := ev.displayName))
      else (rekeyed, updated)
    else
      var h := NewHost(ev.freshId, e.hostname, key, Loopback(e.remoteIp), ev.displayName, e.osId, now);
      (hosts + [h], h)
  }

  /** The first half of an approval: look the entry up and write the hosts file. */
  method PendingApprove(hosts: HostsFile, queue: Pending.PendingRegistry, e: Event, now: Time)
    returns (approved: Option<Host>)
    requires e.Approve? && UniqueIds(hosts.hosts)
    modifies hosts
    ensures var found := e.key in queue.queue && e.saveOk;
            && (found ==> var out := Approved(old(hosts.hosts), e.key, queue.queue[e.key], e, now);
                          hosts.hosts == out.0 && approved == Some(out.1))
            && (!found ==> hosts.hosts == old(hosts.hosts) && approved == None)
  {
    if e.key !in queue.queue {
      return None;
    }
    var entry := queue.queue[e.key];
    var existing := hosts.LookupByHostname(entry.hostname);
    if existing.Some? {
      HostnameFound(hosts.hosts, entry.hostname);
      FoundById(hosts.hosts, existing.value);
      approved := hosts.ReplacePubkey(existing.value.id, e.key, e.saveOk);
      if approved.Some? && e.displayName.Some? {
        approved := Some(approved.value.(displayName := e.displayName));
        var _ := hosts.EditHost(existing.value.id, SetDisplayName(e.displayName), e.saveNameOk);
      }
    } else {
      approved := hosts.RegisterHost(e.freshId, entry.hostname, e.key, Loopback(entry.remoteIp), e.displayName,
                                     entry.osId, now, e.saveOk);
    }
    hide WithEdit, FindByHostname;
  }

  /** The path that was chosen is taken, with its writes. */
  ghost function Took(s: Gateway, c: ConnId, r: Resolution): Gateway
    requires c in s.conns
  {
    var phase := match r.path case Authenticated(h) => Admitted(h) case Queued(_) => Verified case Reject => Closed;
    MoveTo(s, c, phase).(
      hosts := r.hosts,
      tokens := Tokens.Accepted(s.tokens, Tokens.Answer(r.tokens, None, r.used)),
      online := r.online,
      names := Named(s.names, r.minted, s.conns[c].hello.hostname),
      enrolledBy := if r.used.Some? && r.path.Authenticated?
                    then s.enrolledBy[r.used.value := Enrolments(s, r.used.value) + 1] else s.enrolledBy)
  }

  /** Verification, the choice of the path and its writes: one atomic step. */
  ghost function Responded(s: Gateway, c: ConnId, signature: Signature, x: Chance): Gateway
    requires c in s.conns
  {
    var k := s.conns[c];
    if !VerifySignature(k.key, signature, k.nonce, k.hello.hostname, s.id) then MoveTo(s, c, Closed)
    else Took(s, c, Resolve(s.hosts, s.tokens.reg, s.online, k.hello, k.key, k.remoteIp, x))
  }

  function Named(names: map<HostId, Hostname>, minted: Option<HostId>, hostname: Hostname): map<HostId, Hostname> {
    if minted.Some? then names[minted.value := hostname] else names
  }

  function Enrolments(s: Gateway, token: Tokens.TokenId): nat {
    if token in s.enrolledBy then s.enrolledBy[token] else 0
  }

  function Greeted(s: Gateway, c: ConnId, hello: Hello, nonce: Bytes, ip: string): (s': Gateway)
    ensures SameFiles(s, s')
  {
    if hello.version < 2 || hello.publicKey.None? then
      s.(conns := s.conns[c := Conn(hello, "", nonce, ip, Closed)])
    else s.(conns := s.conns[c := Conn(hello, hello.publicKey.value, nonce, ip, AwaitResponse)])
  }

  function Enqueued(s: Gateway, c: ConnId): (s': Gateway)
    ensures SameFiles(s, s') && MovesOne(s, s')
  {
    if !InPhase(s, c, Verified) then s
    else
      var k := s.conns[c];
      var entry := Pending.Entry(k.hello.hostname, k.remoteIp, k.hello.osId, c);
      if Pending.Admits(s.pending, k.key, k.remoteIp) then
        MoveTo(s, c, Waiting).(pending := Pending.Apply(s.pending, Pending.Insert(k.key, entry)))
      else MoveTo(s, c, Closed)
  }

  /** An administrator approves: the queue entry is looked up and the hosts file is written. */
  function HostApproved(s: Gateway, e: Event): Gateway
    requires e.Approve?
  {
    if e.key !in s.pending || !e.saveOk then s
    else
      var entry := s.pending[e.key];
      var out := Approved(s.hosts, e.key, entry, e, s.clock);
      var minted := if FindByHostname(s.hosts, entry.hostname).None? then Some(e.freshId) else None;
      s.(hosts := out.0,
         names := Named(s.names, minted, entry.hostname),
         approvals := s.approvals[e.request := Approval(e.key, out.1)])
  }

  /** The approval reaches the connection that waits on the entry, if there still is one. */
  function Delivered(s: Gateway, r: nat): (s': Gateway)
    ensures SameFiles(s, s') && MovesOne(s, s')
  {
    if r !in s.approvals then s
    else
      var a := s.approvals[r];
      var done := s.(approvals := s.approvals - {r}, pending := Pending.Apply(s.pending, Pending.Remove(a.key)));
      if a.key in s.pending && InPhase(s, s.pending[a.key].conn, Waiting) then
        var c := s.pending[a.key].conn;
        MoveTo(done, c, Admitted(a.host)).(granted := s.granted + [c])
      else done
  }

  /** The wait ends without an approval, and whatever entry the key has is removed. */
  function Abandoned(s: Gateway, c: ConnId): (s': Gateway)
    ensures SameFiles(s, s') && MovesOne(s, s')
  {
    if !InPhase(s, c, Waiting) then s
    else MoveTo(s, c, Closed).(pending := Pending.Apply(s.pending, Pending.Remove(s.conns[c].key)))
  }

  function HungUp(s: Gateway, c: ConnId): (s': Gateway)
    ensures SameFiles(s, s') && MovesOne(s, s')
  {
    if c in s.conns && (s.conns[c].phase.AwaitResponse? || s.conns[c].phase.Verified? || s.conns[c].phase.Admitted?)
    then MoveTo(s, c, Closed) else s
  }

  function Acknowledged(s: Gateway, c: ConnId, sentOk: bool, saveOk: bool): (s': Gateway)
    ensures MovesOne(s, s')
  {
    if !(c in s.conns && s.conns[c].phase.Admitted?) then s
    else
      var h := s.conns[c].phase.host;
      var osId := s.conns[c].hello.osId;
      var filled := s.(hosts := if h.osId.None? && osId.Some? && saveOk then WithEdit(s.hosts, h.id, SetOsId(osId.value)) else s.hosts);
      if !sentOk then MoveTo(filled, c, Closed)
      else MoveTo(filled, c, Registered(h)).(online := s.online[h.id := c], registered := s.registered + [Registration(c, h)])
  }

  function Disconnected(s: Gateway, c: ConnId, saveOk: bool): (s': Gateway)
    ensures MovesOne(s, s')
  {
    if !(c in s.conns && s.conns[c].phase.Registered?) then s
    else
      var h := s.conns[c].phase.host;
      MoveTo(s, c, Closed).(
        hosts := if saveOk then WithEdit(s.hosts, h.id, SetLastSeen(s.clock)) else s.hosts,
        online := s.online - {h.id})
  }

  /** The steps that touch only the hosts file or the tokens. */
  ghost function Administered(s: Gateway, e: Event): Gateway {
    match e
    case RemoveHost(id, saveOk) => if saveOk then s.(hosts := Without(s.hosts, id)) else s
    case Rename(id, name, saveOk) => if saveOk then s.(hosts := WithEdit(s.hosts, id, SetDisplayName(name))) else s
    case LoseHosts => s.(hosts := [])
    case IssueToken(id, t) => s.(tokens := Tokens.Apply(s.tokens, Tokens.Create(id, t)))
    case RevokeToken(id) => s.(tokens := Tokens.Apply(s.tokens, Tokens.Revoke(id)))
    case SweepTokens => s.(tokens := Tokens.Apply(s.tokens, Tokens.Sweep(s.clock)))
    case _ => s
  }

  ghost function Step(s: Gateway, e: Event): Gateway {
    match e
    case Tick(d) => s.(clock := s.clock + d)
    case Sign(k, p) => s.(signed := s.signed + {Signed(k, p)})
    case Greet(c, hello, nonce, ip) => Greeted(s, c, hello, nonce, ip)
    case Respond(c, signature, freshId, saveOk) =>
      if InPhase(s, c, AwaitResponse) then Responded(s, c, signature, Chance(freshId, saveOk, s.clock)) else s
    case Enqueue(c) => Enqueued(s, c)
    case Approve(_, _, _, _, _, _) => HostApproved(s, e)
    case Deliver(r) => Delivered(s, r)
    case Abandon(c) => Abandoned(s, c)
    case HangUp(c) => HungUp(s, c)
    case Acknowledge(c, sentOk, saveOk) => Acknowledged(s, c, sentOk, saveOk)
    case Disconnect(c, saveOk) => Disconnected(s, c, saveOk)
    case _ => Administered(s, e)
  }

  /** Nonces, ids and token values are fresh; a signature exists only once its key holder made it. */
  ghost predicate Possible(s: Gateway, e: Event) {
    match e
    case Greet(c, _, nonce, _) =>
      c !in s.conns && |nonce| == NONCE_LEN && forall d | d in s.conns :: s.conns[d].nonce != nonce
    case Respond(_, signature, freshId, _) => (signature.Signed? ==> signature in s.signed) && freshId !in s.names
    case Approve(r, _, _, freshId, _, _) => freshId !in s.names && r !in s.approvals
    case IssueToken(id, t) => Tokens.Creatable(s.tokens, id, t)
    case _ => true
  }

  // ----- What every step keeps -----

  ghost predicate HostsOk(hosts: seq<Host>, names: map<HostId, Hostname>) {
    UniqueIds(hosts) && UniqueHostnames(hosts) && NamedBy(hosts, names)
  }

  /** The agent proved that it holds the key, for this connection's nonce and claimed hostname. */
  predicate Proven(id: Bytes, signed: set<Signature>, k: Conn) {
    Signed(k.key, Payload(k.nonce, k.hello.hostname, id)) in signed
  }

  predicate ConnOk(id: Bytes, signed: set<Signature>, k: Conn) {
    && |k.nonce| == NONCE_LEN
    && (!k.phase.AwaitResponse? && !k.phase.Closed? ==> Proven(id, signed, k))
    && (k.phase.Admitted? || k.phase.Registered? ==> k.phase.host.publicKey == Some(k.key))
  }

  ghost predicate ConnsOk(id: Bytes, signed: set<Signature>, conns: map<ConnId, Conn>) {
    && (forall c | c in conns :: ConnOk(id, signed, conns[c]))
    && (forall c, d | c in conns && d in conns && c != d :: conns[c].nonce != conns[d].nonce)
  }

  /** A queue entry and the connection that waits on it belong together. */
  predicate EntryOk(conns: map<ConnId, Conn>, key: Key, e: Pending.Entry) {
    && e.conn in conns && conns[e.conn].phase == Waiting
    && conns[e.conn].key == key && conns[e.conn].hello.hostname == e.hostname
  }

  ghost predicate PendingOk(conns: map<ConnId, Conn>, pending: Pending.Queue, approvals: map<nat, Approval>) {
    && (forall k | k in pending :: EntryOk(conns, k, pending[k]))
    && (forall r | r in approvals :: approvals[r].host.publicKey == Some(approvals[r].key))
  }

  predicate Settled(p: Phase) {
    p.Admitted? || p.Registered? || p.Closed?
  }

  /** Each connection is granted an approval at most once, and is not waiting any more. */
  ghost predicate GrantsOk(conns: map<ConnId, Conn>, granted: seq<ConnId>) {
    && (forall i, j :: 0 <= i < j < |granted| ==> granted[i] != granted[j])
    && (forall c | c in granted :: c in conns && Settled(conns[c].phase))
  }

  predicate RegistrationOk(id: Bytes, signed: set<Signature>, conns: map<ConnId, Conn>, r: Registration) {
    && r.conn in conns && Proven(id, signed, conns[r.conn])
    && r.host.publicKey == Some(conns[r.conn].key)
  }

  ghost predicate RegistrationsOk(id: Bytes, signed: set<Signature>, conns: map<ConnId, Conn>, log: seq<Registration>) {
    forall r | r in log :: RegistrationOk(id, signed, conns, r)
  }

  ghost predicate TokensOk(b: Tokens.Book, enrolledBy: map<Tokens.TokenId, nat>, now: Time) {
    && Tokens.Balanced(b, now)
    && forall t | t in enrolledBy :: t in b.uses && enrolledBy[t] <= b.uses[t]
  }

  ghost predicate ConnectionsOk(s: Gateway) {
    && ConnsOk(s.id, s.signed, s.conns)
    && PendingOk(s.conns, s.pending, s.approvals)
    && GrantsOk(s.conns, s.granted)
    && RegistrationsOk(s.id, s.signed, s.conns, s.registered)
  }

  ghost predicate Inv(s: Gateway) {
    HostsOk(s.hosts, s.names) && ConnectionsOk(s) && TokensOk(s.tokens, s.enrolledBy, s.clock)
  }

  /** Everything a run may start from: a hosts file and tokens in order, and nobody connected yet. */
  ghost predicate Initial(s: Gateway) {
    && HostsOk(s.hosts, s.names) && TokensOk(s.tokens, s.enrolledBy, s.clock)
    && s.conns == map[] && s.online == map[] && s.pending == map[] && s.approvals == map[] && s.granted == [] && s.registered == []
  }

  // -- hosts

  lemma EnrolKeepsHosts(hosts: seq<Host>, names: map<HostId, Hostname>, h: Host)
    requires HostsOk(hosts, names) && h.id !in names
    requires forall g | g in hosts :: g.hostname != h.hostname
    ensures HostsOk(hosts + [h], names[h.id := h.hostname])
  {
    forall g | g in hosts ensures g.id != h.id {}
    PushKeeps(hosts, h);
  }

  lemma EditKeepsHosts(hosts: seq<Host>, names: map<HostId, Hostname>, id: HostId, e: Edit)
    requires HostsOk(hosts, names)
    ensures HostsOk(WithEdit(hosts, id, e), names)
  {
    EditKeeps(hosts, id, e);
    EditKeepsNames(hosts, id, e, names);
  }

  lemma ResolveKeepsHosts(hosts: seq<Host>, names: map<HostId, Hostname>, tokens: Tokens.Registry,
                          online: map<HostId, ConnId>, hello: Hello, key: Key, ip: string, x: Chance)
    requires HostsOk(hosts, names) && x.freshId !in names
    ensures var r := Resolve(hosts, tokens, online, hello, key, ip, x);
            HostsOk(r.hosts, Named(names, r.minted, hello.hostname))
  {
    hide HostsOk;
    HostnameFound(hosts, hello.hostname);
    var existing := FindByHostname(hosts, hello.hostname);
    if existing.Some? {
      EditKeepsHosts(hosts, names, existing.value.id, SetKey(key));
    } else {
      EnrolKeepsHosts(hosts, names, NewHost(x.freshId, hello.hostname, key, hello.isLocal, None, hello.osId, x.now));
      EnrolKeepsHosts(hosts, names, NewHost(x.freshId, hello.hostname, key, true, None, hello.osId, x.now));
    }
  }

  lemma ApproveKeepsHosts(hosts: seq<Host>, names: map<HostId, Hostname>, entry: Pending.Entry, e: Event, now: Time)
    requires HostsOk(hosts, names) && e.Approve? && e.freshId !in names
    ensures var minted := if FindByHostname(hosts, entry.hostname).None? then Some(e.freshId) else None;
            HostsOk(Approved(hosts, e.key, entry, e, now).0, Named(names, minted, entry.hostname))
  {
    hide HostsOk;
    HostnameFound(hosts, entry.hostname);
    var existing := FindByHostname(hosts, entry.hostname);
    if existing.Some? {
      EditKeepsHosts(hosts, names, existing.value.id, SetKey(e.key));
      EditKeepsHosts(WithEdit(hosts, existing.value.id, SetKey(e.key)), names, existing.value.id, SetDisplayName(e.displayName));
    } else {
      EnrolKeepsHosts(hosts, names, Approved(hosts, e.key, entry, e, now).1);
    }
  }

  lemma AcknowledgeKeepsHosts(s: Gateway, c: ConnId, sentOk: bool, saveOk: bool)
    requires HostsOk(s.hosts, s.names)
    ensures var s' := Acknowledged(s, c, sentOk, saveOk); HostsOk(s'.hosts, s'.names)
  {
    hide HostsOk, WithEdit;
    if c in s.conns && s.conns[c].phase.Admitted? && s.conns[c].hello.osId.Some? {
      EditKeepsHosts(s.hosts, s.names, s.conns[c].phase.host.id, SetOsId(s.conns[c].hello.osId.value));
    }
  }

  lemma DisconnectKeepsHosts(s: Gateway, c: ConnId, saveOk: bool)
    requires HostsOk(s.hosts, s.names)
    ensures var s' := Disconnected(s, c, saveOk); HostsOk(s'.hosts, s'.names)
  {
    hide HostsOk, WithEdit;
    if c in s.conns && s.conns[c].phase.Registered? {
      EditKeepsHosts(s.hosts, s.names, s.conns[c].phase.host.id, SetLastSeen(s.clock));
    }
  }

  lemma NoHostsOk(names: map<HostId, Hostname>)
    ensures HostsOk([], names)
  {
  }

  lemma AdministerKeepsHosts(s: Gateway, e: Event)
    requires HostsOk(s.hosts, s.names)
    ensures var s' := Administered(s, e); HostsOk(s'.hosts, s'.names)
  {
    hide HostsOk, WithEdit, Tokens.Apply;
    match e {
      case RemoveHost(id, _) => RemoveKeepsHosts(s.hosts, s.names, id);
      case Rename(id, name, _) => EditKeepsHosts(s.hosts, s.names, id, SetDisplayName(name));
      case LoseHosts => NoHostsOk(s.names);
      case _ =>
    }
  }

  lemma RespondKeepsHosts(s: Gateway, c: ConnId, signature: Signature, x: Chance)
    requires HostsOk(s.hosts, s.names) && c in s.conns && x.freshId !in s.names
    ensures var s' := Responded(s, c, signature, x); HostsOk(s'.hosts, s'.names)
  {
    hide HostsOk, Resolve, Tokens.Validate, Payload;
    var k := s.conns[c];
    ResolveKeepsHosts(s.hosts, s.names, s.tokens.reg, s.online, k.hello, k.key, k.remoteIp, x);
  }

  /** Host ids and hostnames stay unique, and every host keeps the name its id was minted for. */
  lemma StepKeepsHosts(s: Gateway, e: Event)
    requires HostsOk(s.hosts, s.names) && Possible(s, e)
    ensures HostsOk(Step(s, e).hosts, Step(s, e).names)
  {
    hide HostsOk, Responded, Approved, Delivered, Enqueued, Abandoned, HungUp, Greeted, Acknowledged, Disconnected, Administered;
    match e {
      case Respond(c, signature, freshId, saveOk) =>
        if InPhase(s, c, AwaitResponse) {
          RespondKeepsHosts(s, c, signature, Chance(freshId, saveOk, s.clock));
        }
      case Approve(_, key, _, _, _, _) =>
        if key in s.pending {
          ApproveKeepsHosts(s.hosts, s.names, s.pending[key], e, s.clock);
        }
      case Acknowledge(c, sentOk, saveOk) => AcknowledgeKeepsHosts(s, c, sentOk, saveOk);
      case Disconnect(c, saveOk) => DisconnectKeepsHosts(s, c, saveOk);
      case RemoveHost(_, _) => AdministerKeepsHosts(s, e);
      case Rename(_, _, _) => AdministerKeepsHosts(s, e);
      case LoseHosts => AdministerKeepsHosts(s, e);
      case IssueToken(_, _) => AdministerKeepsHosts(s, e);
      case RevokeToken(_) => AdministerKeepsHosts(s, e);
      case SweepTokens => AdministerKeepsHosts(s, e);
      case _ =>
    }
  }

  lemma RemoveKeepsHosts(hosts: seq<Host>, names: map<HostId, Hostname>, id: HostId)
    requires HostsOk(hosts, names)
    ensures HostsOk(Without(hosts, id), names)
  {
    WithoutKeeps(hosts, id);
    WithoutMembers(hosts, id);
  }

  // -- connections

  /** Moving one connection on, when its new phase is justified. */
  lemma MoveKeepsConns(id: Bytes, signed: set<Signature>, conns: map<ConnId, Conn>, c: ConnId, phase: Phase)
    requires ConnsOk(id, signed, conns) && c in conns
    requires ConnOk(id, signed, conns[c].(phase := phase))
    ensures ConnsOk(id, signed, conns[c := conns[c].(phase := phase)])
  {
  }

  lemma MoveKeepsRegistrations(id: Bytes, signed: set<Signature>, conns: map<ConnId, Conn>, log: seq<Registration>,
                               c: ConnId, phase: Phase)
    requires RegistrationsOk(id, signed, conns, log) && c in conns
    ensures RegistrationsOk(id, signed, conns[c := conns[c].(phase := phase)], log)
  {
    forall r | r in log ensures RegistrationOk(id, signed, conns[c := conns[c].(phase := phase)], r) {
      assert RegistrationOk(id, signed, conns, r);
    }
  }

  /** A connection in any phase but `Waiting` has no queue entry to lose. */
  lemma MoveKeepsPending(conns: map<ConnId, Conn>, pending: Pending.Queue, approvals: map<nat, Approval>, c: ConnId, phase: Phase)
    requires PendingOk(conns, pending, approvals) && c in conns
    requires conns[c].phase != Waiting
    ensures PendingOk(conns[c := conns[c].(phase := phase)], pending, approvals)
  {
    forall k | k in pending ensures EntryOk(conns[c := conns[c].(phase := phase)], k, pending[k]) {
      assert EntryOk(conns, k, pending[k]);
    }
  }

  lemma MoveKeepsGrants(conns: map<ConnId, Conn>, granted: seq<ConnId>, c: ConnId, phase: Phase)
    requires GrantsOk(conns, granted) && c in conns
    requires Settled(conns[c].phase) ==> Settled(phase)
    ensures GrantsOk(conns[c := conns[c].(phase := phase)], granted)
  {
  }

  /** All four at once, for a connection that is not waiting before or after. */
  lemma MoveKeepsConnections(s: Gateway, c: ConnId, phase: Phase)
    requires ConnectionsOk(s) && c in s.conns
    requires s.conns[c].phase != Waiting && (Settled(s.conns[c].phase) ==> Settled(phase))
    requires ConnOk(s.id, s.signed, s.conns[c].(phase := phase))
    ensures ConnectionsOk(MoveTo(s, c, phase))
  {
    MoveKeepsConns(s.id, s.signed, s.conns, c, phase);
    MoveKeepsRegistrations(s.id, s.signed, s.conns, s.registered, c, phase);
    MoveKeepsPending(s.conns, s.pending, s.approvals, c, phase);
    MoveKeepsGrants(s.conns, s.granted, c, phase);
  }

  /** Every path that authenticates does so with a host that carries the presented key. */
  lemma ResolvedHostHasKey(hosts: seq<Host>, tokens: Tokens.Registry, online: map<HostId, ConnId>,
                           hello: Hello, key: Key, ip: string, x: Chance)
    ensures var r := Resolve(hosts, tokens, online, hello, key, ip, x);
            r.path.Authenticated? ==> r.path.host.publicKey == Some(key)
  {
    PubkeyFound(hosts, key);
  }

  /** Apart from hosts, tokens and the registry, responding only moves its own connection on. */
  lemma RespondedMoves(s: Gateway, c: ConnId, signature: Signature, x: Chance) returns (phase: Phase)
    requires c in s.conns
    ensures var k, s' := s.conns[c], Responded(s, c, signature, x);
            && s' == MoveTo(s, c, phase).(hosts := s'.hosts, tokens := s'.tokens, online := s'.online,
                                          names := s'.names, enrolledBy := s'.enrolledBy)
            && (phase != Closed ==> VerifySignature(k.key, signature, k.nonce, k.hello.hostname, s.id))
            && (phase == Closed || phase == Verified || (phase.Admitted? && phase.host.publicKey == Some(k.key)))
  {
    hide Resolve, Tokens.Validate, Payload;
    var k := s.conns[c];
    ResolvedHostHasKey(s.hosts, s.tokens.reg, s.online, k.hello, k.key, k.remoteIp, x);
    phase := Responded(s, c, signature, x).conns[c].phase;
  }

  lemma RespondKeepsConnections(s: Gateway, c: ConnId, signature: Signature, x: Chance)
    requires ConnectionsOk(s) && InPhase(s, c, AwaitResponse)
    requires signature.Signed? ==> signature in s.signed
    ensures ConnectionsOk(Responded(s, c, signature, x))
  {
    var phase := RespondedMoves(s, c, signature, x);
    hide Responded, Payload, PendingOk, GrantsOk, RegistrationsOk;
    assert ConnOk(s.id, s.signed, s.conns[c]);
    hide ConnsOk;
    MoveKeepsConnections(s, c, phase);
  }

  lemma AddKeepsConns(id: Bytes, signed: set<Signature>, conns: map<ConnId, Conn>, c: ConnId, k: Conn)
    requires ConnsOk(id, signed, conns) && ConnOk(id, signed, k) && c !in conns
    requires forall d | d in conns :: conns[d].nonce != k.nonce
    ensures ConnsOk(id, signed, conns[c := k])
  {
    hide ConnOk;
  }

  lemma AddKeepsRest(s: Gateway, c: ConnId, k: Conn)
    requires c !in s.conns
    requires PendingOk(s.conns, s.pending, s.approvals) && GrantsOk(s.conns, s.granted)
    requires RegistrationsOk(s.id, s.signed, s.conns, s.registered)
    ensures PendingOk(s.conns[c := k], s.pending, s.approvals) && GrantsOk(s.conns[c := k], s.granted)
    ensures RegistrationsOk(s.id, s.signed, s.conns[c := k], s.registered)
  {
    hide Payload;
    forall p | p in s.pending ensures EntryOk(s.conns[c := k], p, s.pending[p]) {
      assert EntryOk(s.conns, p, s.pending[p]);
    }
    forall r | r in s.registered ensures RegistrationOk(s.id, s.signed, s.conns[c := k], r) {
      assert RegistrationOk(s.id, s.signed, s.conns, r);
    }
  }

  lemma GreetKeepsConnections(s: Gateway, c: ConnId, hello: Hello, nonce: Bytes, ip: string)
    requires ConnectionsOk(s) && Possible(s, Greet(c, hello, nonce, ip))
    ensures ConnectionsOk(Greeted(s, c, hello, nonce, ip))
  {
    hide Payload, ConnsOk, PendingOk, GrantsOk, RegistrationsOk, Tokens.Creatable;
    var k := if hello.version < 2 || hello.publicKey.None? then Conn(hello, "", nonce, ip, Closed)
             else Conn(hello, hello.publicKey.value, nonce, ip, AwaitResponse);
    AddKeepsConns(s.id, s.signed, s.conns, c, k);
    AddKeepsRest(s, c, k);
  }

  lemma EnqueueKeepsConnections(s: Gateway, c: ConnId)
    requires ConnectionsOk(s)
    ensures ConnectionsOk(Enqueued(s, c))
  {
    hide Payload;
    if InPhase(s, c, Verified) {
      assert ConnOk(s.id, s.signed, s.conns[c]);
      hide ConnsOk, GrantsOk, RegistrationsOk;
      MoveKeepsConnections(s, c, Waiting);
      MoveKeepsConnections(s, c, Closed);
    }
  }

  /** Approval: the entry leaves the queue as its connection stops waiting. */
  lemma DeliverKeepsConnections(s: Gateway, r: nat)
    requires ConnectionsOk(s)
    ensures ConnectionsOk(Delivered(s, r))
  {
    hide Payload;
    if r in s.approvals {
      var a := s.approvals[r];
      if a.key in s.pending {
        var c := s.pending[a.key].conn;
        assert EntryOk(s.conns, a.key, s.pending[a.key]) && ConnOk(s.id, s.signed, s.conns[c]) && c !in s.granted;
        var left := MoveTo(s, c, Admitted(a.host)).(pending := s.pending - {a.key});
        LeaveKeepsConnections(s, c, Admitted(a.host));
        GrantKeepsConnections(left, c);
        ForgetApproval(left.(granted := s.granted + [c]), r);
        assert Delivered(s, r) == left.(granted := s.granted + [c], approvals := s.approvals - {r});
      } else {
        assert Pending.Apply(s.pending, Pending.Remove(a.key)) == s.pending;
        ForgetApproval(s, r);
      }
      hide ConnectionsOk;
    }
  }

  lemma GrantKeepsConnections(s: Gateway, c: ConnId)
    requires ConnectionsOk(s) && c !in s.granted && c in s.conns && Settled(s.conns[c].phase)
    ensures ConnectionsOk(s.(granted := s.granted + [c]))
  {
    hide ConnsOk, PendingOk, RegistrationsOk;
  }

  lemma ForgetApproval(s: Gateway, r: nat)
    requires ConnectionsOk(s)
    ensures ConnectionsOk(s.(approvals := s.approvals - {r}))
  {
    hide ConnsOk, GrantsOk, RegistrationsOk;
  }

  /** A waiting connection leaves, and takes whatever entry its key has out of the queue. */
  lemma LeaveKeepsConnections(s: Gateway, c: ConnId, phase: Phase)
    requires ConnectionsOk(s) && InPhase(s, c, Waiting)
    requires ConnOk(s.id, s.signed, s.conns[c].(phase := phase)) && Settled(phase)
    ensures ConnectionsOk(MoveTo(s, c, phase).(pending := s.pending - {s.conns[c].key}))
  {
    var conns := s.conns[c := s.conns[c].(phase := phase)];
    MoveKeepsConns(s.id, s.signed, s.conns, c, phase);
    MoveKeepsRegistrations(s.id, s.signed, s.conns, s.registered, c, phase);
    MoveKeepsGrants(s.conns, s.granted, c, phase);
    forall k | k in s.pending && k != s.conns[c].key ensures EntryOk(conns, k, s.pending[k]) {
      assert EntryOk(s.conns, k, s.pending[k]);
    }
  }

  lemma SignKeepsConnections(s: Gateway, key: Key, payload: Bytes)
    requires ConnectionsOk(s)
    ensures ConnectionsOk(Step(s, Sign(key, payload)))
  {
    hide Payload;
    var signed := s.signed + {Signed(key, payload)};
    forall c | c in s.conns ensures ConnOk(s.id, signed, s.conns[c]) {
      assert ConnOk(s.id, s.signed, s.conns[c]);
    }
    forall r | r in s.registered ensures RegistrationOk(s.id, signed, s.conns, r) {
      assert RegistrationOk(s.id, s.signed, s.conns, r);
    }
  }

  lemma AcknowledgeKeepsConnections(s: Gateway, c: ConnId, sentOk: bool, saveOk: bool)
    requires ConnectionsOk(s)
    ensures ConnectionsOk(Acknowledged(s, c, sentOk, saveOk))
  {
    hide Payload, WithEdit;
    if c in s.conns && s.conns[c].phase.Admitted? {
      var k := s.conns[c];
      assert ConnOk(s.id, s.signed, k);
      hide ConnsOk, PendingOk, GrantsOk;
      MoveKeepsConnections(s, c, Closed);
      MoveKeepsConnections(s, c, Registered(k.phase.host));
      assert RegistrationOk(s.id, s.signed, MoveTo(s, c, Registered(k.phase.host)).conns, Registration(c, k.phase.host));
    }
  }

  lemma ApproveKeepsConnections(s: Gateway, e: Event)
    requires ConnectionsOk(s) && e.Approve?
    ensures ConnectionsOk(HostApproved(s, e))
  {
    hide Payload, FindByHostname, WithEdit, ConnsOk, GrantsOk, RegistrationsOk;
  }

  lemma AdministerKeepsConnections(s: Gateway, e: Event)
    requires ConnectionsOk(s)
    ensures ConnectionsOk(Administered(s, e))
  {
    hide ConnsOk, PendingOk, GrantsOk, RegistrationsOk, Tokens.Apply, WithEdit, Without;
  }

  lemma StepKeepsConnections(s: Gateway, e: Event)
    requires ConnectionsOk(s) && Possible(s, e)
    ensures ConnectionsOk(Step(s, e))
  {
    hide ConnsOk, PendingOk, GrantsOk, RegistrationsOk;
    hide Responded, HostApproved, Delivered, Enqueued, Abandoned, HungUp, Greeted, Acknowledged, Disconnected, Administered;
    match e {
      case Tick(_) =>
      case Sign(k, p) => SignKeepsConnections(s, k, p);
      case Greet(c, hello, nonce, ip) => GreetKeepsConnections(s, c, hello, nonce, ip);
      case Respond(c, signature, freshId, saveOk) =>
        if InPhase(s, c, AwaitResponse) {
          RespondKeepsConnections(s, c, signature, Chance(freshId, saveOk, s.clock));
        }
      case Enqueue(c) => EnqueueKeepsConnections(s, c);
      case Approve(_, _, _, _, _, _) => ApproveKeepsConnections(s, e);
      case Deliver(r) => DeliverKeepsConnections(s, r);
      case Abandon(c) => AbandonKeepsConnections(s, c);
      case HangUp(c) => HangUpKeepsConnections(s, c);
      case Acknowledge(c, sentOk, saveOk) => AcknowledgeKeepsConnections(s, c, sentOk, saveOk);
      case Disconnect(c, saveOk) => DisconnectKeepsConnections(s, c, saveOk);
      case _ => AdministerKeepsConnections(s, e);
    }
  }

  lemma AbandonKeepsConnections(s: Gateway, c: ConnId)
    requires ConnectionsOk(s)
    ensures ConnectionsOk(Abandoned(s, c))
  {
    hide Payload;
    if InPhase(s, c, Waiting) {
      assert ConnOk(s.id, s.signed, s.conns[c]);
      LeaveKeepsConnections(s, c, Closed);
      hide ConnectionsOk;
    }
  }

  lemma HangUpKeepsConnections(s: Gateway, c: ConnId)
    requires ConnectionsOk(s)
    ensures ConnectionsOk(HungUp(s, c))
  {
    hide Payload;
    if c in s.conns && s.conns[c].phase != Waiting {
      assert ConnOk(s.id, s.signed, s.conns[c]);
      MoveKeepsConnections(s, c, Closed);
    }
  }

  lemma DisconnectKeepsConnections(s: Gateway, c: ConnId, saveOk: bool)
    requires ConnectionsOk(s)
    ensures ConnectionsOk(Disconnected(s, c, saveOk))
  {
    hide Payload, WithEdit;
    if c in s.conns && s.conns[c].phase.Registered? {
      assert ConnOk(s.id, s.signed, s.conns[c]);
      hide ConnsOk, PendingOk, GrantsOk, RegistrationsOk;
      MoveKeepsConnections(s, c, Closed);
    }
  }

  // -- tokens

  lemma BookUnused(b: Tokens.Book)
    ensures Tokens.Accepted(b, Tokens.Answer(b.reg, None, None)) == b
  {
  }

  lemma BookIgnoresFlag(b: Tokens.Book, a: Tokens.Answer)
    ensures Tokens.Accepted(b, Tokens.Answer(a.reg, None, a.used)) == Tokens.Accepted(b, a)
  {
  }

  lemma ResolveUsesToken(s: Gateway, hello: Hello, key: Key, ip: string, x: Chance)
    requires x.now == s.clock
    ensures var r := Resolve(s.hosts, s.tokens.reg, s.online, hello, key, ip, x);
            var book := Tokens.Accepted(s.tokens, Tokens.Answer(r.tokens, None, r.used));
            || (book == s.tokens && r.used == None)
            || (hello.bootstrapToken.Some?
                && var a := Tokens.Validate(s.tokens.reg, hello.bootstrapToken.value, hello.hostname, s.clock);
                   book == Tokens.Accepted(s.tokens, a) && r.used == a.used)
  {
    BookUnused(s.tokens);
    if hello.bootstrapToken.Some? {
      BookIgnoresFlag(s.tokens, Tokens.Validate(s.tokens.reg, hello.bootstrapToken.value, hello.hostname, s.clock));
    }
    hide Tokens.Validate, Tokens.Accepted, WithEdit, FindByPubkey, FindByHostname;
  }

  lemma PresentKeepsTokens(b: Tokens.Book, enrolledBy: map<Tokens.TokenId, nat>, value: string, hostname: Hostname, now: Time)
    requires TokensOk(b, enrolledBy, now)
    ensures var a := Tokens.Validate(b.reg, value, hostname, now);
            && TokensOk(Tokens.Accepted(b, a), enrolledBy, now)
            && (a.used.Some? ==>
                  var n := if a.used.value in enrolledBy then enrolledBy[a.used.value] else 0;
                  TokensOk(Tokens.Accepted(b, a), enrolledBy[a.used.value := n + 1], now))
  {
    Tokens.PresentKeepsBalance(b, value, hostname, now, now);
    Tokens.AcceptedExactly(b, value, hostname, now, now);
    hide Tokens.Balanced, Tokens.Validate;
  }

  lemma RespondKeepsTokens(s: Gateway, c: ConnId, signature: Signature, x: Chance)
    requires TokensOk(s.tokens, s.enrolledBy, s.clock) && c in s.conns && x.now == s.clock
    ensures var s' := Responded(s, c, signature, x); TokensOk(s'.tokens, s'.enrolledBy, s'.clock)
  {
    hide TokensOk, Resolve, Tokens.Validate, Tokens.Accepted, Payload;
    var k := s.conns[c];
    ResolveUsesToken(s, k.hello, k.key, k.remoteIp, x);
    if k.hello.bootstrapToken.Some? {
      PresentKeepsTokens(s.tokens, s.enrolledBy, k.hello.bootstrapToken.value, k.hello.hostname, s.clock);
    }
  }

  lemma TokenOpKeepsTokens(s: Gateway, op: Tokens.Op)
    requires TokensOk(s.tokens, s.enrolledBy, s.clock) && Tokens.Allowed(s.tokens, op) && !op.Present?
    requires op.Sweep? ==> op.now == s.clock
    ensures TokensOk(Tokens.Apply(s.tokens, op), s.enrolledBy, s.clock)
  {
    Tokens.ApplyKeepsBalance(s.tokens, op, s.clock, s.clock);
    assert op.Create? ==> op.id !in s.tokens.uses;
    hide Tokens.Balanced;
  }

  lemma StepKeepsTokens(s: Gateway, e: Event)
    requires TokensOk(s.tokens, s.enrolledBy, s.clock) && Possible(s, e)
    ensures TokensOk(Step(s, e).tokens, Step(s, e).enrolledBy, Step(s, e).clock)
  {
    hide TokensOk, Tokens.Apply, Tokens.Creatable, WithEdit, Without;
    hide Responded, Approved, Delivered, Enqueued, Abandoned, HungUp, Greeted;
    match e {
      case Respond(c, signature, freshId, saveOk) =>
        if InPhase(s, c, AwaitResponse) {
          RespondKeepsTokens(s, c, signature, Chance(freshId, saveOk, s.clock));
        }
      case IssueToken(id, t) => TokenOpKeepsTokens(s, Tokens.Create(id, t));
      case RevokeToken(id) => TokenOpKeepsTokens(s, Tokens.Revoke(id));
      case SweepTokens => TokenOpKeepsTokens(s, Tokens.Sweep(s.clock));
      case Tick(d) => TickKeepsTokens(s, d);
      case Approve(_, _, _, _, _, _) =>
      case Acknowledge(_, _, _) =>
      case Disconnect(_, _) =>
      case RemoveHost(_, _) =>
      case Rename(_, _, _) =>
      case LoseHosts =>
      case _ =>
    }
  }

  lemma TickKeepsTokens(s: Gateway, d: nat)
    requires TokensOk(s.tokens, s.enrolledBy, s.clock)
    ensures TokensOk(s.tokens, s.enrolledBy, s.clock + d)
  {
    Tokens.BalancedLater(s.tokens, s.clock, s.clock + d);
    hide Tokens.Balanced;
  }

  lemma StepKeepsInv(s: Gateway, e: Event)
    requires Inv(s) && Possible(s, e)
    ensures Inv(Step(s, e))
  {
    hide HostsOk, ConnectionsOk, TokensOk, Step, Possible;
    StepKeepsHosts(s, e);
    StepKeepsConnections(s, e);
    StepKeepsTokens(s, e);
  }

  // ----- Whole runs -----

  ghost function Run(s: Gateway, es: seq<Event>): Gateway {
    if es == [] then s else Step(Run(s, es[..|es| - 1]), es[|es| - 1])
  }

  ghost predicate Lawful(s: Gateway, es: seq<Event>) {
    es == [] || (Lawful(s, es[..|es| - 1]) && Possible(Run(s, es[..|es| - 1]), es[|es| - 1]))
  }

  lemma {:induction false} RunKeepsInv(s: Gateway, es: seq<Event>)
    requires Initial(s) && Lawful(s, es)
    ensures Inv(Run(s, es))
  {
    if es == [] {
      hide HostsOk, TokensOk;
    } else {
      hide Inv, Step, Initial, Possible;
      RunKeepsInv(s, es[..|es| - 1]);
      StepKeepsInv(Run(s, es[..|es| - 1]), es[|es| - 1]);
    }
  }

  // ----- Hosts over whole runs -----

  /** In every run host ids and hostnames are unique. */
  lemma IdsAndHostnamesUnique(s: Gateway, es: seq<Event>)
    requires Initial(s) && Lawful(s, es)
    ensures UniqueIds(Run(s, es).hosts) && UniqueHostnames(Run(s, es).hosts)
  {
    RunKeepsInv(s, es);
  }

  ghost predicate Extends(earlier: map<HostId, Hostname>, later: map<HostId, Hostname>) {
    forall id | id in earlier :: id in later && later[id] == earlier[id]
  }

  lemma StepExtendsNames(s: Gateway, e: Event)
    requires Possible(s, e)
    ensures Extends(s.names, Step(s, e).names)
  {
    hide Approved, Delivered, Enqueued, Abandoned, HungUp, Greeted, WithEdit, Without, Tokens.Apply, FindByHostname, Payload, Resolve;
    match e {
      case Respond(c, _, freshId, saveOk) =>
        if InPhase(s, c, AwaitResponse) {
          var k := s.conns[c];
          ResolveMints(s.hosts, s.tokens.reg, s.online, k.hello, k.key, k.remoteIp, Chance(freshId, saveOk, s.clock));
        }
      case Approve(_, _, _, _, _, _) =>
      case Acknowledge(_, _, _) =>
      case Disconnect(_, _) =>
      case RemoveHost(_, _) =>
      case Rename(_, _, _) =>
      case LoseHosts =>
      case IssueToken(_, _) =>
      case RevokeToken(_) =>
      case SweepTokens =>
      case _ =>
    }
  }

  lemma ResolveMints(hosts: seq<Host>, tokens: Tokens.Registry, online: map<HostId, ConnId>,
                     hello: Hello, key: Key, ip: string, x: Chance)
    ensures var r := Resolve(hosts, tokens, online, hello, key, ip, x); r.minted.Some? ==> r.minted.value == x.freshId
  {
    hide Tokens.Validate;
  }

  lemma {:induction false} RunExtendsNames(s: Gateway, es: seq<Event>, n: nat)
    requires Lawful(s, es) && n <= |es|
    ensures Lawful(s, es[..n]) && Extends(Run(s, es[..n]).names, Run(s, es).names)
  {
    if n == |es| {
      assert es[..n] == es;
    } else {
      var init := es[..|es| - 1];
      hide Step, Possible;
      RunExtendsNames(s, init, n);
      assert init[..n] == es[..n];
      StepExtendsNames(Run(s, init), es[|es| - 1]);
    }
  }

  /** A host id keeps its hostname from any point of a run to any later one. */
  lemma HostIdKeepsHostname(s: Gateway, es: seq<Event>, n: nat, g: Host, h: Host)
    requires Initial(s) && Lawful(s, es) && n <= |es|
    requires g in Run(s, es[..n]).hosts && h in Run(s, es).hosts && g.id == h.id
    ensures g.hostname == h.hostname
  {
    RunExtendsNames(s, es, n);
    RunKeepsInv(s, es[..n]);
    RunKeepsInv(s, es);
  }

  // -- one key, one host

  /** Every key is presented, and listed, only under the hostname that owns it. */
  ghost predicate KeysNamed(s: Gateway, owner: Key -> Hostname) {
    && (forall h | h in s.hosts && h.publicKey.Some? :: h.hostname == owner(h.publicKey.value))
    && (forall c | c in s.conns && s.conns[c].phase != Closed :: s.conns[c].hello.hostname == owner(s.conns[c].key))
  }

  predicate PresentsOwnName(owner: Key -> Hostname, e: Event) {
    e.Greet? && e.hello.publicKey.Some? ==> e.hello.hostname == owner(e.hello.publicKey.value)
  }

  ghost predicate HostsNamed(hosts: seq<Host>, owner: Key -> Hostname) {
    forall h | h in hosts && h.publicKey.Some? :: h.hostname == owner(h.publicKey.value)
  }

  lemma EditKeepsNamed(hosts: seq<Host>, id: HostId, e: Edit, owner: Key -> Hostname)
    requires HostsNamed(hosts, owner) && !e.SetKey?
    ensures HostsNamed(WithEdit(hosts, id, e), owner)
  {
    var hosts' := WithEdit(hosts, id, e);
    forall h | h in hosts' && h.publicKey.Some? ensures h.hostname == owner(h.publicKey.value) {
      var i :| 0 <= i < |hosts'| && hosts'[i] == h;
      assert hosts[i] in hosts;
    }
  }

  lemma RekeyKeepsNamed(hosts: seq<Host>, h: Host, key: Key, owner: Key -> Hostname)
    requires HostsNamed(hosts, owner) && UniqueIds(hosts) && h in hosts && h.hostname == owner(key)
    ensures HostsNamed(WithEdit(hosts, h.id, SetKey(key)), owner)
  {
    RekeyedAt(hosts, h, key);
  }

  lemma ResolveKeepsNamed(hosts: seq<Host>, tokens: Tokens.Registry, online: map<HostId, ConnId>,
                          hello: Hello, key: Key, ip: string, x: Chance, owner: Key -> Hostname)
    requires HostsNamed(hosts, owner) && UniqueIds(hosts) && hello.hostname == owner(key)
    ensures HostsNamed(Resolve(hosts, tokens, online, hello, key, ip, x).hosts, owner)
  {
    hide Tokens.Validate, WithEdit, FindByPubkey, UniqueIds;
    HostnameFound(hosts, hello.hostname);
    if FindByHostname(hosts, hello.hostname).Some? {
      RekeyKeepsNamed(hosts, FindByHostname(hosts, hello.hostname).value, key, owner);
      hide HostsNamed;
    }
    hide FindByHostname;
  }

  lemma ApproveKeepsNamed(hosts: seq<Host>, entry: Pending.Entry, e: Event, now: Time, owner: Key -> Hostname)
    requires HostsNamed(hosts, owner) && UniqueIds(hosts) && e.Approve? && entry.hostname == owner(e.key)
    ensures HostsNamed(Approved(hosts, e.key, entry, e, now).0, owner)
  {
    HostnameFound(hosts, entry.hostname);
    if FindByHostname(hosts, entry.hostname).Some? {
      var h := FindByHostname(hosts, entry.hostname).value;
      RekeyKeepsNamed(hosts, h, e.key, owner);
      EditKeepsNamed(WithEdit(hosts, h.id, SetKey(e.key)), h.id, SetDisplayName(e.displayName), owner);
    }
    hide WithEdit, FindByHostname;
  }

  lemma NoHostsNamed(owner: Key -> Hostname)
    ensures HostsNamed([], owner)
  {
  }

  lemma RemoveKeepsNamed(hosts: seq<Host>, id: HostId, owner: Key -> Hostname)
    requires HostsNamed(hosts, owner)
    ensures HostsNamed(Without(hosts, id), owner)
  {
    WithoutMembers(hosts, id);
  }

  lemma AcknowledgeKeepsNamed(s: Gateway, c: ConnId, sentOk: bool, saveOk: bool, owner: Key -> Hostname)
    requires HostsNamed(s.hosts, owner)
    ensures HostsNamed(Acknowledged(s, c, sentOk, saveOk).hosts, owner)
  {
    hide HostsNamed, WithEdit;
    if c in s.conns && s.conns[c].phase.Admitted? && s.conns[c].hello.osId.Some? {
      EditKeepsNamed(s.hosts, s.conns[c].phase.host.id, SetOsId(s.conns[c].hello.osId.value), owner);
    }
  }

  lemma DisconnectKeepsNamed(s: Gateway, c: ConnId, saveOk: bool, owner: Key -> Hostname)
    requires HostsNamed(s.hosts, owner)
    ensures HostsNamed(Disconnected(s, c, saveOk).hosts, owner)
  {
    hide HostsNamed, WithEdit;
    if c in s.conns && s.conns[c].phase.Registered? {
      EditKeepsNamed(s.hosts, s.conns[c].phase.host.id, SetLastSeen(s.clock), owner);
    }
  }

  lemma StepKeepsHostsNamed(s: Gateway, e: Event, owner: Key -> Hostname)
    requires UniqueIds(s.hosts) && PendingOk(s.conns, s.pending, s.approvals)
    requires HostsNamed(s.hosts, owner) && KeysNamed(s, owner)
    ensures HostsNamed(Step(s, e).hosts, owner)
  {
    hide Resolve, Approved, Delivered, Enqueued, Abandoned, HungUp, Greeted, Tokens.Apply, Payload, FindByHostname;
    hide HostsNamed, WithEdit, Without, UniqueIds, Acknowledged, Disconnected;
    match e {
      case Respond(c, _, freshId, saveOk) =>
        if InPhase(s, c, AwaitResponse) {
          var k := s.conns[c];
          ResolveKeepsNamed(s.hosts, s.tokens.reg, s.online, k.hello, k.key, k.remoteIp,
                            Chance(freshId, saveOk, s.clock), owner);
        }
      case Approve(_, key, _, _, _, _) =>
        if key in s.pending {
          assert EntryOk(s.conns, key, s.pending[key]);
          ApproveKeepsNamed(s.hosts, s.pending[key], e, s.clock, owner);
        }
      case Acknowledge(c, sentOk, saveOk) => AcknowledgeKeepsNamed(s, c, sentOk, saveOk, owner);
      case Disconnect(c, saveOk) => DisconnectKeepsNamed(s, c, saveOk, owner);
      case RemoveHost(id, _) => RemoveKeepsNamed(s.hosts, id, owner);
      case Rename(id, name, _) => EditKeepsNamed(s.hosts, id, SetDisplayName(name), owner);
      case LoseHosts => NoHostsNamed(owner);
      case IssueToken(_, _) =>
      case RevokeToken(_) =>
      case SweepTokens =>
      case _ =>
    }
  }

  /** A live connection was live before, and has kept what its Hello said. */
  ghost predicate HelloKept(before: map<ConnId, Conn>, after: map<ConnId, Conn>, c: ConnId) {
    c in after && after[c].phase != Closed ==>
      && c in before && before[c].phase != Closed
      && after[c].hello == before[c].hello && after[c].key == before[c].key
  }

  lemma StepMovesOne(s: Gateway, e: Event)
    requires !e.Greet?
    ensures MovesOne(s, Step(s, e))
  {
    hide Enqueued, Delivered, Abandoned, HungUp, Acknowledged, Disconnected, Approved, FindByHostname, Tokens.Apply, WithEdit, Without;
    if e.Respond? && InPhase(s, e.conn, AwaitResponse) {
      var phase := RespondedMoves(s, e.conn, e.signature, Chance(e.freshId, e.saveOk, s.clock));
      hide Responded;
    }
  }

  lemma StepKeepsHellos(s: Gateway, e: Event, c: ConnId)
    requires !(e.Greet? && e.conn == c)
    ensures HelloKept(s.conns, Step(s, e).conns, c)
  {
    if !e.Greet? {
      StepMovesOne(s, e);
      hide Step;
    }
  }

  lemma StepKeepsKeysNamed(s: Gateway, e: Event, owner: Key -> Hostname)
    requires Inv(s) && KeysNamed(s, owner) && PresentsOwnName(owner, e)
    ensures KeysNamed(Step(s, e), owner)
  {
    hide Step;
    var s' := Step(s, e);
    StepKeepsHostsNamed(s, e, owner);
    hide Inv;
    forall c | c in s'.conns && s'.conns[c].phase != Closed ensures s'.conns[c].hello.hostname == owner(s'.conns[c].key) {
      if e.Greet? && e.conn == c {
        GreetNamesOwner(s, e, owner);
      } else {
        StepKeepsHellos(s, e, c);
      }
    }
  }

  lemma GreetNamesOwner(s: Gateway, e: Event, owner: Key -> Hostname)
    requires e.Greet? && PresentsOwnName(owner, e)
    ensures var conns := Step(s, e).conns;
            e.conn in conns && (conns[e.conn].phase != Closed ==> conns[e.conn].hello.hostname == owner(conns[e.conn].key))
  {
  }

  lemma {:induction false} RunKeepsKeysNamed(s: Gateway, es: seq<Event>, owner: Key -> Hostname)
    requires Initial(s) && Lawful(s, es)
    requires KeysNamed(s, owner) && forall i :: 0 <= i < |es| ==> PresentsOwnName(owner, es[i])
    ensures KeysNamed(Run(s, es), owner)
  {
    if es != [] {
      var init, e := es[..|es| - 1], es[|es| - 1];
      assert forall i :: 0 <= i < |init| ==> init[i] == es[i];
      hide Inv, Initial, Possible, Step, KeysNamed;
      RunKeepsKeysNamed(s, init, owner);
      RunKeepsInv(s, init);
      assert PresentsOwnName(owner, e);
      StepKeepsKeysNamed(Run(s, init), e, owner);
    }
  }

  /**
   * If each key always presents one hostname, no two hosts ever hold the same key, even when a key
   * waits for approval and is enrolled by token at the same time.
   */
  lemma OneHostPerKey(s: Gateway, es: seq<Event>, owner: Key -> Hostname)
    requires Initial(s) && Lawful(s, es)
    requires KeysNamed(s, owner) && forall i :: 0 <= i < |es| ==> PresentsOwnName(owner, es[i])
    ensures UniqueKeys(Run(s, es).hosts)
  {
    RunKeepsKeysNamed(s, es, owner);
    RunKeepsInv(s, es);
    var hosts := Run(s, es).hosts;
    forall i, j | 0 <= i < j < |hosts| && hosts[i].publicKey.Some? ensures hosts[i].publicKey != hosts[j].publicKey {
      assert hosts[i] in hosts && hosts[j] in hosts;
    }
  }

  /** A host other than the one of this name already holds the key. */
  ghost predicate HeldElsewhere(hosts: seq<Host>, key: Key, hostname: Hostname) {
    exists h :: h in hosts && h.publicKey == Some(key) && h.hostname != hostname
  }

  lemma RekeyKeysExactly(hosts: seq<Host>, h: Host, key: Key)
    requires UniqueIds(hosts) && UniqueHostnames(hosts) && UniqueKeys(hosts) && h in hosts
    ensures UniqueKeys(WithEdit(hosts, h.id, SetKey(key))) <==> !HeldElsewhere(hosts, key, h.hostname)
  {
    var hosts' := WithEdit(hosts, h.id, SetKey(key));
    var i := IndexOfId(hosts, h.id);
    FoundById(hosts, h);
    if g :| g in hosts && g.publicKey == Some(key) && g.hostname != h.hostname {
      var j :| 0 <= j < |hosts| && hosts[j] == g;
      assert hosts'[j].publicKey == hosts'[i].publicKey == Some(key) && i != j;
    } else {
      forall j | 0 <= j < |hosts| && j != i ensures hosts[j].publicKey != Some(key) {
        assert hosts[j] in hosts;
        assert hosts[j].hostname != hosts[i].hostname;
      }
    }
  }

  lemma PushKeysExactly(hosts: seq<Host>, h: Host, key: Key)
    requires UniqueKeys(hosts) && h.publicKey == Some(key)
    requires forall g | g in hosts :: g.hostname != h.hostname
    ensures UniqueKeys(hosts + [h]) <==> !HeldElsewhere(hosts, key, h.hostname)
  {
    var hosts' := hosts + [h];
    if g :| g in hosts && g.publicKey == Some(key) && g.hostname != h.hostname {
      var j :| 0 <= j < |hosts| && hosts[j] == g;
      assert hosts'[j].publicKey == hosts'[|hosts|].publicKey;
    } else {
      forall j | 0 <= j < |hosts| ensures hosts[j].publicKey != Some(key) {
        assert hosts[j] in hosts;
      }
    }
  }

  lemma EditKeepsKeys(hosts: seq<Host>, id: HostId, name: Option<string>)
    ensures UniqueKeys(WithEdit(hosts, id, SetDisplayName(name))) <==> UniqueKeys(hosts)
  {
    var hosts' := WithEdit(hosts, id, SetDisplayName(name));
    assert |hosts'| == |hosts| && forall i :: 0 <= i < |hosts| ==> hosts'[i].publicKey == hosts[i].publicKey;
  }

  /** Approval is the step that can give two hosts one key, and this is exactly when it does. */
  lemma ApproveKeysExactly(s: Gateway, e: Event)
    requires Inv(s) && UniqueKeys(s.hosts)
    requires e.Approve? && e.saveOk && e.key in s.pending
    ensures UniqueKeys(Step(s, e).hosts) <==> !HeldElsewhere(s.hosts, e.key, s.pending[e.key].hostname)
  {
    hide UniqueKeys, HeldElsewhere, WithEdit, UniqueIds, UniqueHostnames, ConnectionsOk, TokensOk;
    var entry := s.pending[e.key];
    HostnameFound(s.hosts, entry.hostname);
    if FindByHostname(s.hosts, entry.hostname).Some? {
      var h := FindByHostname(s.hosts, entry.hostname).value;
      RekeyKeysExactly(s.hosts, h, e.key);
      EditKeepsKeys(WithEdit(s.hosts, h.id, SetKey(e.key)), h.id, e.displayName);
    } else {
      PushKeysExactly(s.hosts, Approved(s.hosts, e.key, entry, e, s.clock).1, e.key);
    }
    hide FindByHostname;
  }

  /** Resolving never does: it only lists a key that no host holds. */
  lemma ResolveKeepsKeys(hosts: seq<Host>, tokens: Tokens.Registry, online: map<HostId, ConnId>,
                         hello: Hello, key: Key, ip: string, x: Chance)
    requires UniqueIds(hosts) && UniqueHostnames(hosts) && UniqueKeys(hosts)
    ensures UniqueKeys(Resolve(hosts, tokens, online, hello, key, ip, x).hosts)
  {
    PubkeyFound(hosts, key);
    HostnameFound(hosts, hello.hostname);
    if FindByHostname(hosts, hello.hostname).Some? {
      RekeyKeysExactly(hosts, FindByHostname(hosts, hello.hostname).value, key);
    } else if FindByPubkey(hosts, key).None? {
      PushKeysExactly(hosts, NewHost(x.freshId, hello.hostname, key, hello.isLocal, None, hello.osId, x.now), key);
      PushKeysExactly(hosts, NewHost(x.freshId, hello.hostname, key, true, None, hello.osId, x.now), key);
    }
    assert FindByPubkey(hosts, key).None? ==> !HeldElsewhere(hosts, key, hello.hostname);
    hide WithEdit, FindByPubkey, FindByHostname, UniqueKeys, HeldElsewhere, Tokens.Validate;
  }

  /** The input that shows it: a key waits under one hostname and is enrolled under another. */
  lemma ApprovingUnderAnotherNameCollides(s: Gateway, c: ConnId, freshId: HostId, e: Event)
    requires Inv(s) && UniqueKeys(s.hosts)
    requires InPhase(s, c, AwaitResponse) && s.conns[c].key in s.pending
    requires s.conns[c].hello.bootstrapToken.None? && Loopback(s.conns[c].remoteIp)
    requires FindByPubkey(s.hosts, s.conns[c].key).None? && FindByHostname(s.hosts, s.conns[c].hello.hostname).None?
    requires s.pending[s.conns[c].key].hostname != s.conns[c].hello.hostname
    requires Proven(s.id, s.signed, s.conns[c]) && freshId !in s.names
    requires e.Approve? && e.saveOk && e.key == s.conns[c].key
    ensures var k := s.conns[c];
            var respond := Respond(c, Signed(k.key, Payload(k.nonce, k.hello.hostname, s.id)), freshId, true);
            Possible(s, respond) && UniqueKeys(Step(s, respond).hosts) && !UniqueKeys(Step(Step(s, respond), e).hosts)
  {
    hide Step, UniqueKeys, Payload, Inv;
    var k := s.conns[c];
    var respond := Respond(c, Signed(k.key, Payload(k.nonce, k.hello.hostname, s.id)), freshId, true);
    var s' := Step(s, respond);
    assert Possible(s, respond);
    LoopbackEnrols(s, c, freshId);
    StepKeepsInv(s, respond);
    hide Possible;
    var h := s'.hosts[|s.hosts|];
    PubkeyFound(s.hosts, k.key);
    HostnameFound(s.hosts, k.hello.hostname);
    PushKeysExactly(s.hosts, h, k.key);
    assert h in s'.hosts;
    ApproveKeysExactly(s', e);
  }

  lemma LoopbackEnrols(s: Gateway, c: ConnId, freshId: HostId)
    requires InPhase(s, c, AwaitResponse) && s.conns[c].hello.bootstrapToken.None? && Loopback(s.conns[c].remoteIp)
    requires FindByPubkey(s.hosts, s.conns[c].key).None? && FindByHostname(s.hosts, s.conns[c].hello.hostname).None?
    ensures var k := s.conns[c];
            var s' := Step(s, Respond(c, Signed(k.key, Payload(k.nonce, k.hello.hostname, s.id)), freshId, true));
            && s'.hosts == s.hosts + [NewHost(freshId, k.hello.hostname, k.key, true, None, k.hello.osId, s.clock)]
            && s'.pending == s.pending
  {
    hide Payload;
  }

  // ----- Authentication over whole runs -----

  /**
   * Whatever route it took, every host passed to the registry has the public key whose signature
   * over that connection's own nonce and claimed hostname was made by the key's holder.
   */
  lemma AuthenticatedMeansVerified(s: Gateway, es: seq<Event>, r: Registration)
    requires Initial(s) && Lawful(s, es) && r in Run(s, es).registered
    ensures var end := Run(s, es);
            && r.conn in end.conns
            && r.host.publicKey == Some(end.conns[r.conn].key)
            && Signed(end.conns[r.conn].key, Payload(end.conns[r.conn].nonce, end.conns[r.conn].hello.hostname, end.id))
               in end.signed
  {
    RunKeepsInv(s, es);
    assert RegistrationOk(Run(s, es).id, Run(s, es).signed, Run(s, es).conns, r);
  }

  /** No signature serves two connections: their challenges differ, whatever names they claim. */
  lemma NoSignatureServesTwice(s: Gateway, es: seq<Event>, c: ConnId, d: ConnId)
    requires Initial(s) && Lawful(s, es)
    requires c in Run(s, es).conns && d in Run(s, es).conns && c != d
    ensures var end := Run(s, es);
            Payload(end.conns[c].nonce, end.conns[c].hello.hostname, end.id) !=
            Payload(end.conns[d].nonce, end.conns[d].hello.hostname, end.id)
  {
    RunKeepsInv(s, es);
    var end := Run(s, es);
    var k, l := end.conns[c], end.conns[d];
    assert ConnOk(end.id, end.signed, k) && ConnOk(end.id, end.signed, l);
    PayloadSplits(k.nonce, k.hello.hostname, end.id, l.nonce, l.hello.hostname, end.id);
  }

  /** No pending connection is approved more than once. */
  lemma ApprovedOnce(s: Gateway, es: seq<Event>, i: nat, j: nat)
    requires Initial(s) && Lawful(s, es) && i < j < |Run(s, es).granted|
    ensures Run(s, es).granted[i] != Run(s, es).granted[j]
  {
    RunKeepsInv(s, es);
  }

  /** Hosts enrolled or re-keyed with a token never exceed its acceptances, nor these its cap. */
  lemma EnrolmentsWithinCap(s: Gateway, es: seq<Event>, t: Tokens.TokenId)
    requires Initial(s) && Lawful(s, es) && t in Run(s, es).enrolledBy
    ensures var end := Run(s, es);
            && t in end.tokens.uses && t in end.tokens.issued
            && end.enrolledBy[t] <= end.tokens.uses[t]
            && Tokens.Within(end.tokens.uses[t], end.tokens.issued[t].Cap())
  {
    RunKeepsInv(s, es);
    var b := Run(s, es).tokens;
    assert Tokens.Accounted(Tokens.Entry(b.reg, t), b.issued[t], b.uses[t], t in b.revoked, Run(s, es).clock);
  }

  // ----- Two connections of one host or key -----

  /** Closing one connection takes another one's registration with it exactly if they share a host. */
  lemma LateCleanupExactly(s: Gateway, c: ConnId, d: ConnId, saveOk: bool)
    requires c in s.conns && d in s.conns && c != d
    requires s.conns[c].phase.Registered? && s.conns[d].phase.Registered?
    requires var id := s.conns[d].phase.host.id; id in s.online && s.online[id] == d
    ensures var s', id := Step(s, Disconnect(c, saveOk)), s.conns[d].phase.host.id;
            && s'.conns[d].phase.Registered?
            && ((id in s'.online && s'.online[id] == d) <==> s.conns[c].phase.host.id != id)
  {
  }

  /** A connection that stops waiting takes another one's queue entry with it exactly if they share a key. */
  lemma AbandonTakesEntryExactly(s: Gateway, c: ConnId, d: ConnId)
    requires InPhase(s, c, Waiting) && InPhase(s, d, Waiting) && c != d
    requires s.conns[d].key in s.pending && s.pending[s.conns[d].key].conn == d
    ensures var s' := Step(s, Abandon(c));
            && InPhase(s', d, Waiting)
            && (s.conns[d].key in s'.pending <==> s.conns[c].key != s.conns[d].key)
  {
  }
}
