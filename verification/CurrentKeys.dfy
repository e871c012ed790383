/**
 * Replacing a host's key: whether the registry goes on serving a host through a connection that
 * proved the old key, or starts to later.
 */
module CurrentKeys {
  import opened Wrappers
  import opened Octets
  import opened Challenge
  import opened Hosts
  import opened Enrolment
  import Tokens
  import Pending

  /** The key that the connection behind a host proved, if the registry has one. */
  function Serving(online: map<HostId, ConnId>, conns: map<ConnId, Conn>, id: HostId): Option<Key> {
    if id in online && online[id] in conns then Some(conns[online[id]].key) else None
  }

  /** Every listed host that is online is served by a connection that proved its present key. */
  ghost predicate Current(hosts: seq<Host>, online: map<HostId, ConnId>, conns: map<ConnId, Conn>) {
    forall h | h in hosts :: Serving(online, conns, h.id).Some? ==> h.publicKey == Serving(online, conns, h.id)
  }

  ghost predicate KeysCurrent(s: Gateway) {
    Current(s.hosts, s.online, s.conns)
  }

  /** The two ways to serve an outdated key: what is checked before the step. */
  ghost predicate Outdates(s: Gateway, e: Event) {
    match e
    case Approve(_, key, _, _, saveOk, _) =>
      // The host of that name is re-keyed while another key's connection serves it: nobody disconnects it.
      && key in s.pending && saveOk
      && var existing := FindByHostname(s.hosts, s.pending[key].hostname);
         && existing.Some?
         && Serving(s.online, s.conns, existing.value.id).Some?
         && Serving(s.online, s.conns, existing.value.id) != Some(key)
    case Acknowledge(c, sentOk, _) =>
      // The key was replaced after the connection was admitted: nobody looks again.
      && sentOk && c in s.conns && s.conns[c].phase.Admitted?
      && exists h :: h in s.hosts && h.id == s.conns[c].phase.host.id && h.publicKey != Some(s.conns[c].key)
    case _ => false
  }

  // ----- Which connections the registry names -----

  ghost predicate OnlineOk(online: map<HostId, ConnId>, conns: map<ConnId, Conn>) {
    forall id | id in online ::
      && online[id] in conns && conns[online[id]].phase.Registered?
      && conns[online[id]].phase.host.id == id
  }

  predicate HostMinted(names: map<HostId, Hostname>, phase: Phase) {
    phase.Admitted? || phase.Registered? ==> phase.host.id in names
  }

  ghost predicate MintedOk(names: map<HostId, Hostname>, conns: map<ConnId, Conn>, approvals: map<nat, Approval>) {
    && (forall c | c in conns :: HostMinted(names, conns[c].phase))
    && (forall r | r in approvals :: approvals[r].host.id in names)
  }

  /** Whom the registry names is registered for that host, and all hosts in use have minted ids. */
  ghost predicate Linked(s: Gateway) {
    OnlineOk(s.online, s.conns) && MintedOk(s.names, s.conns, s.approvals)
  }

  lemma MintedLater(names: map<HostId, Hostname>, later: map<HostId, Hostname>, conns: map<ConnId, Conn>, approvals: map<nat, Approval>)
    requires MintedOk(names, conns, approvals) && Extends(names, later)
    ensures MintedOk(later, conns, approvals)
  {
    forall c | c in conns ensures HostMinted(later, conns[c].phase) {
      assert HostMinted(names, conns[c].phase);
    }
  }

  /** A connection that is not registered moves on. */
  lemma MoveKeepsLinked(s: Gateway, c: ConnId, phase: Phase)
    requires Linked(s) && c in s.conns && !s.conns[c].phase.Registered? && HostMinted(s.names, phase)
    ensures Linked(MoveTo(s, c, phase))
  {
  }

  lemma NamedExtends(names: map<HostId, Hostname>, minted: Option<HostId>, hostname: Hostname)
    requires minted.Some? ==> minted.value !in names
    ensures Extends(names, Named(names, minted, hostname))
  {
  }

  ghost predicate Within(online': map<HostId, ConnId>, online: map<HostId, ConnId>) {
    forall id | id in online' :: id in online && online'[id] == online[id]
  }

  lemma ResolvedHostMinted(hosts: seq<Host>, names: map<HostId, Hostname>, tokens: Tokens.Registry, online: map<HostId, ConnId>,
                           hello: Hello, key: Key, ip: string, x: Chance)
    requires NamedBy(hosts, names)
    ensures var r := Resolve(hosts, tokens, online, hello, key, ip, x);
            && (r.path.Authenticated? ==> r.path.host.id in Named(names, r.minted, hello.hostname))
            && (r.minted.Some? ==> r.minted.value == x.freshId)
            && Within(r.online, online)
  {
    hide Tokens.Validate, WithEdit;
    PubkeyFound(hosts, key);
    HostnameFound(hosts, hello.hostname);
  }

  /** The phase, the names and the registry after a response. */
  lemma RespondedLinks(s: Gateway, c: ConnId, signature: Signature, x: Chance)
    requires NamedBy(s.hosts, s.names) && c in s.conns && x.freshId !in s.names
    ensures var s' := Responded(s, c, signature, x);
            && s'.conns == s.conns[c := s.conns[c].(phase := s'.conns[c].phase)] && s'.approvals == s.approvals
            && Extends(s.names, s'.names) && HostMinted(s'.names, s'.conns[c].phase)
            && Within(s'.online, s.online)
  {
    hide Took, Resolve, VerifySignature, NamedBy, Within, Extends, Named;
    var k := s.conns[c];
    var r := Resolve(s.hosts, s.tokens.reg, s.online, k.hello, k.key, k.remoteIp, x);
    TookMoves(s, c, r);
    ResolvedHostMinted(s.hosts, s.names, s.tokens.reg, s.online, k.hello, k.key, k.remoteIp, x);
    NamedExtends(s.names, r.minted, k.hello.hostname);
    Unchanged(s.names, s.online);
  }

  lemma TookMoves(s: Gateway, c: ConnId, r: Resolution)
    requires c in s.conns
    ensures var phase := if r.path.Authenticated? then Admitted(r.path.host) else if r.path.Queued? then Verified else Closed;
            var s' := Took(s, c, r);
            && s'.conns == s.conns[c := s.conns[c].(phase := phase)] && s'.approvals == s.approvals
            && s'.names == Named(s.names, r.minted, s.conns[c].hello.hostname)
            && s'.hosts == r.hosts && s'.online == r.online
  {
    hide Tokens.Accepted, Named, Enrolments;
  }

  lemma Unchanged(names: map<HostId, Hostname>, online: map<HostId, ConnId>)
    ensures Extends(names, names) && Within(online, online)
  {
  }

  lemma RespondKeepsLinked(s: Gateway, c: ConnId, signature: Signature, x: Chance)
    requires Linked(s) && HostsOk(s.hosts, s.names) && InPhase(s, c, AwaitResponse) && x.freshId !in s.names
    ensures Linked(Responded(s, c, signature, x))
  {
    RespondedLinks(s, c, signature, x);
    hide Responded, OnlineOk, MintedOk, HostsOk, Extends, Within;
    var s' := Responded(s, c, signature, x);
    MintedLater(s.names, s'.names, s.conns, s.approvals);
    MoveKeepsLinked(s.(names := s'.names), c, s'.conns[c].phase);
    ShrinkKeepsOnline(s.online, s'.online, s'.conns);
  }

  lemma ShrinkKeepsOnline(online: map<HostId, ConnId>, online': map<HostId, ConnId>, conns: map<ConnId, Conn>)
    requires OnlineOk(online, conns) && Within(online', online)
    ensures OnlineOk(online', conns)
  {
  }

  lemma ApprovedHostMinted(hosts: seq<Host>, names: map<HostId, Hostname>, entry: Pending.Entry, e: Event, now: Time)
    requires NamedBy(hosts, names) && e.Approve?
    ensures var minted := if FindByHostname(hosts, entry.hostname).None? then Some(e.freshId) else None;
            Approved(hosts, e.key, entry, e, now).1.id in Named(names, minted, entry.hostname)
  {
    hide WithEdit;
    HostnameFound(hosts, entry.hostname);
  }

  lemma ApproveKeepsLinked(s: Gateway, e: Event)
    requires Linked(s) && HostsOk(s.hosts, s.names) && e.Approve? && e.freshId !in s.names
    ensures Linked(HostApproved(s, e))
  {
    hide Approved, FindByHostname, UniqueIds, UniqueHostnames, NamedBy;
    if e.key in s.pending && e.saveOk {
      var entry := s.pending[e.key];
      var minted := if FindByHostname(s.hosts, entry.hostname).None? then Some(e.freshId) else None;
      ApprovedHostMinted(s.hosts, s.names, entry, e, s.clock);
      NamedExtends(s.names, minted, entry.hostname);
      MintedLater(s.names, Named(s.names, minted, entry.hostname), s.conns, s.approvals);
      hide Extends, Named;
    }
  }

  lemma HandshakeKeepsLinked(s: Gateway, e: Event)
    requires Linked(s) && (e.Enqueue? || e.Deliver? || e.Abandon? || e.HangUp?)
    requires PendingOk(s.conns, s.pending, s.approvals)
    ensures Linked(Step(s, e))
  {
    match e {
      case Enqueue(c) =>
        if InPhase(s, c, Verified) {
          MoveKeepsLinked(s, c, Waiting);
          MoveKeepsLinked(s, c, Closed);
        }
      case Deliver(r) =>
        if r in s.approvals && s.approvals[r].key in s.pending {
          var a := s.approvals[r];
          assert EntryOk(s.conns, a.key, s.pending[a.key]);
          MoveKeepsLinked(s, s.pending[a.key].conn, Admitted(a.host));
        }
      case Abandon(c) =>
        if InPhase(s, c, Waiting) {
          MoveKeepsLinked(s, c, Closed);
        }
      case HangUp(c) =>
        if c in s.conns && !s.conns[c].phase.Registered? {
          MoveKeepsLinked(s, c, Closed);
        }
    }
  }

  lemma AcknowledgeKeepsLinked(s: Gateway, c: ConnId, sentOk: bool, saveOk: bool)
    requires Linked(s)
    ensures Linked(Acknowledged(s, c, sentOk, saveOk))
  {
    hide WithEdit;
    if c in s.conns && s.conns[c].phase.Admitted? {
      var h := s.conns[c].phase.host;
      assert HostMinted(s.names, s.conns[c].phase);
      MoveKeepsLinked(s, c, Closed);
      MoveKeepsLinked(s, c, Registered(h));
    }
  }

  lemma DisconnectKeepsLinked(s: Gateway, c: ConnId, saveOk: bool)
    requires Linked(s)
    ensures Linked(Disconnected(s, c, saveOk))
  {
    hide WithEdit;
  }

  lemma GreetKeepsLinked(s: Gateway, c: ConnId, hello: Hello, nonce: Bytes, ip: string)
    requires Linked(s) && c !in s.conns
    ensures Linked(Greeted(s, c, hello, nonce, ip))
  {
  }

  lemma StepKeepsLinked(s: Gateway, e: Event)
    requires Inv(s) && Linked(s) && Possible(s, e)
    ensures Linked(Step(s, e))
  {
    hide Linked, HostsOk, ConnsOk, PendingOk, GrantsOk, RegistrationsOk, TokensOk, Tokens.Apply, Tokens.Creatable;
    hide Responded, HostApproved, Delivered, Enqueued, Abandoned, HungUp, Greeted, Acknowledged, Disconnected;
    match e {
      case Greet(c, hello, nonce, ip) => GreetKeepsLinked(s, c, hello, nonce, ip);
      case Respond(c, signature, freshId, saveOk) =>
        if InPhase(s, c, AwaitResponse) {
          RespondKeepsLinked(s, c, signature, Chance(freshId, saveOk, s.clock));
        }
      case Enqueue(_) => HandshakeKeepsLinked(s, e);
      case Approve(_, _, _, _, _, _) => ApproveKeepsLinked(s, e);
      case Deliver(_) => HandshakeKeepsLinked(s, e);
      case Abandon(_) => HandshakeKeepsLinked(s, e);
      case HangUp(_) => HandshakeKeepsLinked(s, e);
      case Acknowledge(c, sentOk, saveOk) => AcknowledgeKeepsLinked(s, c, sentOk, saveOk);
      case Disconnect(c, saveOk) => DisconnectKeepsLinked(s, c, saveOk);
      case _ => OthersKeepLinked(s, e);
    }
  }

  /** The steps that touch neither connections nor the registry. */
  predicate Elsewhere(e: Event) {
    e.Tick? || e.Sign? || e.RemoveHost? || e.Rename? || e.LoseHosts? || e.IssueToken? || e.RevokeToken? || e.SweepTokens?
  }

  lemma OthersKeepLinked(s: Gateway, e: Event)
    requires Linked(s) && Elsewhere(e)
    ensures Linked(Step(s, e))
  {
    hide WithEdit, Without, Tokens.Apply, OnlineOk, MintedOk;
  }

  // ----- Which steps keep the keys current -----

  /** Connections are added and move on, but none changes its key. */
  ghost predicate KeysKept(conns: map<ConnId, Conn>, conns': map<ConnId, Conn>) {
    forall c | c in conns :: c in conns' && conns'[c].key == conns[c].key
  }

  lemma ServingKept(online: map<HostId, ConnId>, conns: map<ConnId, Conn>, conns': map<ConnId, Conn>)
    requires OnlineOk(online, conns) && KeysKept(conns, conns')
    ensures forall id :: Serving(online, conns', id) == Serving(online, conns, id)
  {
  }

  lemma MovesKeepKeys(s: Gateway, s': Gateway)
    requires MovesOne(s, s')
    ensures KeysKept(s.conns, s'.conns)
  {
  }

  /** Every host of the new list was in the old one under this id and with this key. */
  ghost predicate NoNewKeys(hosts: seq<Host>, hosts': seq<Host>) {
    forall h | h in hosts' :: exists g :: g in hosts && g.id == h.id && g.publicKey == h.publicKey
  }

  lemma SameHostsNoNewKeys(hosts: seq<Host>)
    ensures NoNewKeys(hosts, hosts)
  {
  }

  lemma PointwiseNoNewKeys(hosts: seq<Host>, hosts': seq<Host>)
    requires |hosts'| == |hosts|
    requires forall i :: 0 <= i < |hosts| ==> hosts'[i].id == hosts[i].id && hosts'[i].publicKey == hosts[i].publicKey
    ensures NoNewKeys(hosts, hosts')
  {
    forall h | h in hosts' ensures exists g :: g in hosts && g.id == h.id && g.publicKey == h.publicKey {
      var i :| 0 <= i < |hosts'| && hosts'[i] == h;
      assert hosts[i] in hosts;
    }
  }

  lemma EditNoNewKeys(hosts: seq<Host>, id: HostId, e: Edit)
    requires !e.SetKey?
    ensures NoNewKeys(hosts, WithEdit(hosts, id, e)) && NoNewKeys(WithEdit(hosts, id, e), hosts)
  {
    hide NoNewKeys, WithEdit, UniqueIds, UniqueHostnames, UniqueKeys;
    EditKeeps(hosts, id, e);
    PointwiseNoNewKeys(hosts, WithEdit(hosts, id, e));
    PointwiseNoNewKeys(WithEdit(hosts, id, e), hosts);
  }

  lemma CurrentKept(hosts: seq<Host>, hosts': seq<Host>, online: map<HostId, ConnId>, conns: map<ConnId, Conn>)
    requires Current(hosts, online, conns) && NoNewKeys(hosts, hosts')
    ensures Current(hosts', online, conns)
  {
    hide Serving;
  }

  lemma RekeyCurrent(hosts: seq<Host>, h: Host, key: Key, online: map<HostId, ConnId>, conns: map<ConnId, Conn>)
    requires UniqueIds(hosts) && h in hosts && Current(hosts, online, conns)
    ensures Current(WithEdit(hosts, h.id, SetKey(key)), online, conns)
       <==> Serving(online, conns, h.id).None? || Serving(online, conns, h.id) == Some(key)
    ensures Current(WithEdit(hosts, h.id, SetKey(key)), online - {h.id}, conns)
  {
    RekeyedAt(hosts, h, key);
  }

  /** A new host is not online. */
  lemma EnrolCurrent(hosts: seq<Host>, h: Host, online: map<HostId, ConnId>, conns: map<ConnId, Conn>)
    requires Current(hosts, online, conns) && h.id !in online
    ensures Current(hosts + [h], online, conns)
  {
    assert Serving(online, conns, h.id).None?;
    hide Serving;
  }

  lemma ResolveCurrent(hosts: seq<Host>, tokens: Tokens.Registry, online: map<HostId, ConnId>, conns: map<ConnId, Conn>,
                       hello: Hello, key: Key, ip: string, x: Chance)
    requires UniqueIds(hosts) && Current(hosts, online, conns) && x.freshId !in online
    ensures var r := Resolve(hosts, tokens, online, hello, key, ip, x); Current(r.hosts, r.online, conns)
  {
    HostnameFound(hosts, hello.hostname);
    if FindByHostname(hosts, hello.hostname).Some? {
      RekeyCurrent(hosts, FindByHostname(hosts, hello.hostname).value, key, online, conns);
    }
    EnrolCurrent(hosts, NewHost(x.freshId, hello.hostname, key, hello.isLocal, None, hello.osId, x.now), online, conns);
    EnrolCurrent(hosts, NewHost(x.freshId, hello.hostname, key, true, None, hello.osId, x.now), online, conns);
    hide Tokens.Validate, WithEdit, FindByPubkey, FindByHostname, Current;
  }

  lemma RespondCurrent(s: Gateway, c: ConnId, signature: Signature, x: Chance)
    requires KeysCurrent(s) && Linked(s) && UniqueIds(s.hosts) && c in s.conns && x.freshId !in s.names
    ensures KeysCurrent(Responded(s, c, signature, x))
  {
    var k, s' := s.conns[c], Responded(s, c, signature, x);
    hide Resolve, Tokens.Validate, Tokens.Accepted, Payload, UniqueIds;
    assert KeysKept(s.conns, s'.conns);
    ServingKept(s.online, s.conns, s'.conns);
    OnlineIsMinted(s);
    ResolveCurrent(s.hosts, s.tokens.reg, s.online, s'.conns, k.hello, k.key, k.remoteIp, x);
    hide OnlineOk, MintedOk, Serving;
  }

  lemma OnlineIsMinted(s: Gateway)
    requires Linked(s)
    ensures forall id | id in s.online :: id in s.names
  {
    forall id | id in s.online ensures id in s.names {
      assert HostMinted(s.names, s.conns[s.online[id]].phase);
    }
  }

  lemma ApproveCurrentExactly(s: Gateway, e: Event)
    requires KeysCurrent(s) && Linked(s) && UniqueIds(s.hosts) && e.Approve? && e.freshId !in s.names
    ensures KeysCurrent(HostApproved(s, e)) <==> !Outdates(s, e)
  {
    hide Current, Serving, Linked, WithEdit, FindByHostname, UniqueIds;
    if e.key in s.pending && e.saveOk {
      var entry := s.pending[e.key];
      HostnameFound(s.hosts, entry.hostname);
      var existing := FindByHostname(s.hosts, entry.hostname);
      if existing.Some? {
        var h := existing.value;
        var rekeyed := WithEdit(s.hosts, h.id, SetKey(e.key));
        RekeyCurrent(s.hosts, h, e.key, s.online, s.conns);
        EditNoNewKeys(rekeyed, h.id, SetDisplayName(e.displayName));
        hide NoNewKeys;
        BothCurrent(rekeyed, WithEdit(rekeyed, h.id, SetDisplayName(e.displayName)), s.online, s.conns);
      } else {
        OnlineIsMinted(s);
        EnrolCurrent(s.hosts, Approved(s.hosts, e.key, entry, e, s.clock).1, s.online, s.conns);
      }
    }
  }

  lemma MoveCurrent(hosts: seq<Host>, online: map<HostId, ConnId>, conns: map<ConnId, Conn>, conns': map<ConnId, Conn>)
    requires OnlineOk(online, conns) && KeysKept(conns, conns') && Current(hosts, online, conns)
    ensures Current(hosts, online, conns')
  {
    ServingKept(online, conns, conns');
    hide OnlineOk, KeysKept, Serving;
  }

  lemma AcknowledgedParts(s: Gateway, c: ConnId, sentOk: bool, saveOk: bool)
    requires c in s.conns && s.conns[c].phase.Admitted?
    ensures var s' := Acknowledged(s, c, sentOk, saveOk);
            && NoNewKeys(s.hosts, s'.hosts) && NoNewKeys(s'.hosts, s.hosts)
            && KeysKept(s.conns, s'.conns)
            && s'.online == if sentOk then s.online[s.conns[c].phase.host.id := c] else s.online
  {
    MovesKeepKeys(s, Acknowledged(s, c, sentOk, saveOk));
    hide KeysKept, NoNewKeys, WithEdit, MovesOne;
    var k := s.conns[c];
    SameHostsNoNewKeys(s.hosts);
    if k.phase.host.osId.None? && k.hello.osId.Some? && saveOk {
      EditNoNewKeys(s.hosts, k.phase.host.id, SetOsId(k.hello.osId.value));
    }
  }

  lemma AcknowledgeCurrentExactly(s: Gateway, c: ConnId, sentOk: bool, saveOk: bool)
    requires KeysCurrent(s) && Linked(s)
    ensures KeysCurrent(Acknowledged(s, c, sentOk, saveOk)) <==> !Outdates(s, Acknowledge(c, sentOk, saveOk))
  {
    hide Current, OnlineOk, MintedOk, NoNewKeys;
    if c in s.conns && s.conns[c].phase.Admitted? {
      var s' := Acknowledged(s, c, sentOk, saveOk);
      AcknowledgedParts(s, c, sentOk, saveOk);
      hide Acknowledged;
      assert c in s'.conns && s'.conns[c].key == s.conns[c].key;
      hide KeysKept;
      MoveCurrent(s.hosts, s.online, s.conns, s'.conns);
      RegisterCurrentExactly(s.hosts, s.online, s'.conns, s.conns[c].phase.host.id, c);
      BothCurrent(s.hosts, s'.hosts, s'.online, s'.conns);
    }
  }

  lemma BothCurrent(hosts: seq<Host>, hosts': seq<Host>, online: map<HostId, ConnId>, conns: map<ConnId, Conn>)
    requires NoNewKeys(hosts, hosts') && NoNewKeys(hosts', hosts)
    ensures Current(hosts, online, conns) <==> Current(hosts', online, conns)
  {
    hide Serving;
  }

  lemma RegisterCurrentExactly(hosts: seq<Host>, online: map<HostId, ConnId>, conns: map<ConnId, Conn>, id: HostId, c: ConnId)
    requires Current(hosts, online, conns) && c in conns
    ensures Current(hosts, online[id := c], conns)
       <==> forall h | h in hosts && h.id == id :: h.publicKey == Some(conns[c].key)
  {
  }

  lemma DisconnectCurrent(s: Gateway, c: ConnId, saveOk: bool)
    requires KeysCurrent(s) && Linked(s)
    ensures KeysCurrent(Disconnected(s, c, saveOk))
  {
    hide Current, OnlineOk, MintedOk, KeysKept, WithEdit, MovesOne;
    if c in s.conns && s.conns[c].phase.Registered? {
      var id, s' := s.conns[c].phase.host.id, Disconnected(s, c, saveOk);
      MovesKeepKeys(s, s');
      EditNoNewKeys(s.hosts, id, SetLastSeen(s.clock));
      SameHostsNoNewKeys(s.hosts);
      hide NoNewKeys;
      MoveCurrent(s.hosts, s.online, s.conns, s'.conns);
      UnregisterCurrent(s.hosts, s.online, s'.conns, id);
      CurrentKept(s.hosts, s'.hosts, s'.online, s'.conns);
    }
  }

  lemma UnregisterCurrent(hosts: seq<Host>, online: map<HostId, ConnId>, conns: map<ConnId, Conn>, id: HostId)
    requires Current(hosts, online, conns)
    ensures Current(hosts, online - {id}, conns)
  {
  }

  lemma HandshakeCurrent(s: Gateway, s': Gateway)
    requires KeysCurrent(s) && Linked(s) && KeysKept(s.conns, s'.conns)
    requires s'.hosts == s.hosts && s'.online == s.online
    ensures KeysCurrent(s')
  {
    ServingKept(s.online, s.conns, s'.conns);
    hide Serving;
  }

  lemma RemoveNoNewKeys(hosts: seq<Host>, id: HostId)
    ensures NoNewKeys(hosts, Without(hosts, id))
  {
    WithoutMembers(hosts, id);
    hide Without;
  }

  lemma OthersCurrent(s: Gateway, e: Event)
    requires KeysCurrent(s) && Elsewhere(e)
    ensures KeysCurrent(Step(s, e))
  {
    hide Tokens.Apply, Current, NoNewKeys, WithEdit, Without;
    match e {
      case RemoveHost(id, _) =>
        RemoveNoNewKeys(s.hosts, id);
        CurrentKept(s.hosts, Without(s.hosts, id), s.online, s.conns);
      case Rename(id, name, _) =>
        EditNoNewKeys(s.hosts, id, SetDisplayName(name));
        CurrentKept(s.hosts, WithEdit(s.hosts, id, SetDisplayName(name)), s.online, s.conns);
      case LoseHosts =>
        NoneIsCurrent(s.online, s.conns);
      case _ =>
    }
  }

  lemma NoneIsCurrent(online: map<HostId, ConnId>, conns: map<ConnId, Conn>)
    ensures Current([], online, conns)
  {
  }

  /** A step keeps every host that is online with its present key, exactly unless it is one of the two. */
  lemma CurrentExactly(s: Gateway, e: Event)
    requires Inv(s) && Linked(s) && Possible(s, e) && KeysCurrent(s)
    ensures KeysCurrent(Step(s, e)) <==> !Outdates(s, e)
  {
    hide KeysCurrent, Linked, ConnsOk, PendingOk, GrantsOk, RegistrationsOk, TokensOk, Tokens.Creatable, NamedBy, UniqueIds, UniqueHostnames;
    hide Responded, HostApproved, Delivered, Enqueued, Abandoned, HungUp, Greeted, Acknowledged, Disconnected, Administered;
    match e {
      case Greet(c, hello, nonce, ip) => GreetCurrent(s, c, hello, nonce, ip);
      case Respond(c, signature, freshId, saveOk) =>
        if InPhase(s, c, AwaitResponse) {
          RespondCurrent(s, c, signature, Chance(freshId, saveOk, s.clock));
        }
      case Enqueue(c) =>
        MovesKeepKeys(s, Enqueued(s, c));
        HandshakeCurrent(s, Enqueued(s, c));
      case Approve(_, _, _, _, _, _) => ApproveCurrentExactly(s, e);
      case Deliver(r) =>
        MovesKeepKeys(s, Delivered(s, r));
        HandshakeCurrent(s, Delivered(s, r));
      case Abandon(c) =>
        MovesKeepKeys(s, Abandoned(s, c));
        HandshakeCurrent(s, Abandoned(s, c));
      case HangUp(c) =>
        MovesKeepKeys(s, HungUp(s, c));
        HandshakeCurrent(s, HungUp(s, c));
      case Acknowledge(c, sentOk, saveOk) => AcknowledgeCurrentExactly(s, c, sentOk, saveOk);
      case Disconnect(c, saveOk) => DisconnectCurrent(s, c, saveOk);
      case _ => OthersCurrent(s, e);
    }
  }

  lemma GreetCurrent(s: Gateway, c: ConnId, hello: Hello, nonce: Bytes, ip: string)
    requires KeysCurrent(s) && Linked(s) && c !in s.conns
    ensures KeysCurrent(Greeted(s, c, hello, nonce, ip))
  {
    HandshakeCurrent(s, Greeted(s, c, hello, nonce, ip));
  }

  // ----- Whole runs -----

  lemma {:induction false} RunKeepsLinked(s: Gateway, es: seq<Event>)
    requires Initial(s) && Lawful(s, es)
    ensures Linked(Run(s, es))
  {
    if es != [] {
      var init, e := es[..|es| - 1], es[|es| - 1];
      hide Linked, Inv, Initial, Possible, Step;
      RunKeepsLinked(s, init);
      RunKeepsInv(s, init);
      StepKeepsLinked(Run(s, init), e);
    }
  }

  ghost predicate NeverOutdates(s: Gateway, es: seq<Event>) {
    forall n :: 0 <= n < |es| ==> !Outdates(Run(s, es[..n]), es[n])
  }

  ghost predicate AlwaysCurrent(s: Gateway, es: seq<Event>) {
    forall n :: 0 <= n <= |es| ==> KeysCurrent(Run(s, es[..n]))
  }

  lemma EmptyIsCurrent(s: Gateway)
    requires Initial(s)
    ensures KeysCurrent(Run(s, []))
  {
    hide HostsOk, TokensOk;
  }

  /**
   * Throughout a run, no host is served by a connection that proved another key than its present
   * one, exactly if no approval re-keys a host under a connection of another key and no connection
   * is registered whose host was re-keyed since it was admitted.
   */
  lemma {:induction false} AlwaysCurrentExactly(s: Gateway, es: seq<Event>)
    requires Initial(s) && Lawful(s, es)
    ensures AlwaysCurrent(s, es) <==> NeverOutdates(s, es)
  {
    hide KeysCurrent, Outdates, Inv, Linked, Initial, Possible, Step;
    if es == [] {
      EmptyIsCurrent(s);
      assert es[..0] == [];
    } else {
      var init, e := es[..|es| - 1], es[|es| - 1];
      AlwaysCurrentExactly(s, init);
      RunKeepsInv(s, init);
      RunKeepsLinked(s, init);
      if KeysCurrent(Run(s, init)) {
        CurrentExactly(Run(s, init), e);
      }
      CurrentExtends(s, es);
    }
  }

  lemma CurrentExtends(s: Gateway, es: seq<Event>)
    requires es != []
    ensures var init := es[..|es| - 1];
            && (AlwaysCurrent(s, es) <==> AlwaysCurrent(s, init) && KeysCurrent(Step(Run(s, init), es[|es| - 1])))
            && (NeverOutdates(s, es) <==> NeverOutdates(s, init) && !Outdates(Run(s, init), es[|es| - 1]))
            && (AlwaysCurrent(s, init) ==> KeysCurrent(Run(s, init)))
  {
    hide KeysCurrent, Outdates, Step;
    var init := es[..|es| - 1];
    assert forall n :: 0 <= n <= |init| ==> init[..n] == es[..n];
    assert init[..|init|] == init && es[..|es|] == es;
    assert Run(s, es) == Step(Run(s, init), es[|es| - 1]);
  }
}
