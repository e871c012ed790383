/**
 * Who gets in: the exact conditions, in terms of what is listed, issued and presented, under which a
 * connection is authenticated, queued, rejected, approved and registered.
 */
module Authorisation {
  import opened Wrappers
  import opened Octets
  import opened Challenge
  import opened Hosts
  import opened Enrolment
  import CurrentKeys
  import Tokens
  import Pending

  ghost predicate KeyListed(hosts: seq<Host>, key: Key) {
    exists h :: h in hosts && h.publicKey == Some(key)
  }

  ghost predicate NameListed(hosts: seq<Host>, hostname: Hostname) {
    exists h :: h in hosts && h.hostname == hostname
  }

  /** The agent presented the value of a token that may be used now, for this hostname. */
  ghost predicate TokenGood(b: Tokens.Book, hello: Hello, now: Time) {
    hello.bootstrapToken.Some? && exists id :: Tokens.Redeemable(b, id, hello.bootstrapToken.value, hello.hostname, now)
  }

  /** And the token was issued for re-enrolment. */
  ghost predicate TokenRekeys(b: Tokens.Book, hello: Hello, now: Time) {
    && hello.bootstrapToken.Some?
    && exists id :: Tokens.Redeemable(b, id, hello.bootstrapToken.value, hello.hostname, now) && b.issued[id].reEnroll
  }

  /** A new hostname enrols with a token, or without one from the gateway's own machine. */
  ghost predicate MayEnrol(hosts: seq<Host>, b: Tokens.Book, hello: Hello, ip: string, now: Time) {
    && !NameListed(hosts, hello.hostname)
    && if hello.bootstrapToken.Some? then TokenGood(b, hello, now) else ip == "127.0.0.1" || ip == "::1"
  }

  /** A listed hostname takes a new key with a re-enrolment token. */
  ghost predicate MayRekey(hosts: seq<Host>, b: Tokens.Book, hello: Hello, now: Time) {
    NameListed(hosts, hello.hostname) && TokenRekeys(b, hello, now)
  }

  lemma LookupsExactly(hosts: seq<Host>, key: Key, hostname: Hostname)
    ensures FindByPubkey(hosts, key).Some? <==> KeyListed(hosts, key)
    ensures FindByHostname(hosts, hostname).Some? <==> NameListed(hosts, hostname)
  {
    PubkeyFound(hosts, key);
    HostnameFound(hosts, hostname);
    hide FindByPubkey, FindByHostname;
  }

  /** Validation, by the books: whether the token is accepted, which one it is and what it was for. */
  lemma TokenExactly(b: Tokens.Book, hello: Hello, now: Time)
    requires Tokens.Balanced(b, now) && hello.bootstrapToken.Some?
    ensures var a := Tokens.Validate(b.reg, hello.bootstrapToken.value, hello.hostname, now);
            && (a.reEnroll.Some? <==> TokenGood(b, hello, now)) && (a.used.Some? <==> TokenGood(b, hello, now))
            && (a.reEnroll == Some(true) <==> TokenRekeys(b, hello, now))
            && (a.used.Some? ==> Tokens.Redeemable(b, a.used.value, hello.bootstrapToken.value, hello.hostname, now))
  {
    var value := hello.bootstrapToken.value;
    Tokens.AcceptedExactly(b, value, hello.hostname, now, now);
    var a := Tokens.Validate(b.reg, value, hello.hostname, now);
    hide Tokens.Validate;
    if a.used.Some? {
      forall id | Tokens.Redeemable(b, id, value, hello.hostname, now) ensures id == a.used.value {
        assert b.issued[id].digest == b.issued[a.used.value].digest;
      }
    }
    hide Tokens.Redeemable, Tokens.Balanced;
  }

  /** Which way a verified agent takes. */
  lemma PathExactly(hosts: seq<Host>, b: Tokens.Book, online: map<HostId, ConnId>, hello: Hello, key: Key, ip: string, x: Chance)
    requires Tokens.Balanced(b, x.now)
    ensures var path := Resolve(hosts, b.reg, online, hello, key, ip, x).path;
            var allowed := MayEnrol(hosts, b, hello, ip, x.now) || MayRekey(hosts, b, hello, x.now);
            && (path.Authenticated? <==> KeyListed(hosts, key) || (x.saveOk && allowed))
            && (path.Queued? <==> !KeyListed(hosts, key) && !NameListed(hosts, hello.hostname) && !allowed)
            && (path.Queued? ==> path.reason == if hello.bootstrapToken.Some? then "token_invalid" else "enrollment_required")
            && (path.Reject? <==> !KeyListed(hosts, key)
                                  && if allowed then !x.saveOk else NameListed(hosts, hello.hostname))
  {
    LookupsExactly(hosts, key, hello.hostname);
    if hello.bootstrapToken.Some? {
      TokenExactly(b, hello, x.now);
    }
    hide Tokens.Validate, Tokens.Balanced, FindByPubkey, FindByHostname, KeyListed, NameListed, TokenGood, TokenRekeys, WithEdit;
  }

  /** A new host is exactly as presented; only over loopback without a token is it local by decree. */
  function Enrolled(hello: Hello, key: Key, x: Chance): Host {
    Host(x.freshId, hello.hostname, hello.hostname, Some(key), x.now, hello.bootstrapToken.None? || hello.isLocal,
         None, None, hello.osId)
  }

  /** What the path does: a new host, a new key for one host whose connection is dropped, or nothing. */
  lemma EffectsExactly(hosts: seq<Host>, b: Tokens.Book, online: map<HostId, ConnId>, hello: Hello, key: Key, ip: string, x: Chance)
    requires Tokens.Balanced(b, x.now) && UniqueIds(hosts)
    ensures var r := Resolve(hosts, b.reg, online, hello, key, ip, x);
            if !KeyListed(hosts, key) && x.saveOk && MayEnrol(hosts, b, hello, ip, x.now) then
              && r.hosts == hosts + [Enrolled(hello, key, x)] && r.online == online
              && r.path == Authenticated(Enrolled(hello, key, x)) && r.minted == Some(x.freshId)
            else if !KeyListed(hosts, key) && x.saveOk && MayRekey(hosts, b, hello, x.now) then
              exists i ::
                && 0 <= i < |hosts| && hosts[i].hostname == hello.hostname
                && r.hosts == hosts[i := hosts[i].(publicKey := Some(key))] && r.online == online - {hosts[i].id}
                && r.path == Authenticated(hosts[i].(publicKey := Some(key))) && r.minted == None
            else
              && r.hosts == hosts && r.online == online && r.minted == None
              && (r.path.Authenticated? ==> r.path.host in hosts)
  {
    LookupsExactly(hosts, key, hello.hostname);
    PubkeyFound(hosts, key);
    HostnameFound(hosts, hello.hostname);
    if hello.bootstrapToken.Some? {
      TokenExactly(b, hello, x.now);
    }
    hide Tokens.Validate, Tokens.Balanced, FindByPubkey, FindByHostname, KeyListed, NameListed, TokenGood, TokenRekeys;
    var existing := FindByHostname(hosts, hello.hostname);
    if existing.Some? {
      var i :| 0 <= i < |hosts| && hosts[i] == existing.value;
      EditedInPlace(hosts, i, SetKey(key));
    }
    hide WithEdit, UniqueIds;
  }

  /** A token is used up by one acceptance exactly if the key is unknown and a good one is presented. */
  lemma ConsumesExactly(hosts: seq<Host>, b: Tokens.Book, online: map<HostId, ConnId>, hello: Hello, key: Key, ip: string, x: Chance)
    requires Tokens.Balanced(b, x.now)
    ensures var r := Resolve(hosts, b.reg, online, hello, key, ip, x);
            && (r.used.Some? <==> !KeyListed(hosts, key) && TokenGood(b, hello, x.now))
            && (r.used.Some? ==> Tokens.Redeemable(b, r.used.value, hello.bootstrapToken.value, hello.hostname, x.now))
  {
    LookupsExactly(hosts, key, hello.hostname);
    if hello.bootstrapToken.Some? {
      TokenExactly(b, hello, x.now);
    }
    hide Tokens.Validate, Tokens.Balanced, Tokens.Redeemable, FindByPubkey, FindByHostname, KeyListed, NameListed, WithEdit;
    hide TokenRekeys;
  }

  // ----- What moves a connection on -----

  /** A new connection is challenged exactly if it speaks version 2 and names a key. */
  lemma GreetedExactly(s: Gateway, c: ConnId, hello: Hello, nonce: Bytes, ip: string)
    ensures var s' := Step(s, Greet(c, hello, nonce, ip));
            && c in s'.conns && (s'.conns[c].phase == AwaitResponse || s'.conns[c].phase == Closed)
            && (s'.conns[c].phase == AwaitResponse <==> hello.version >= 2 && hello.publicKey.Some?)
            && s'.conns[c].hello == hello && s'.conns[c].nonce == nonce && s'.conns[c].remoteIp == ip
            && (hello.publicKey.Some? && hello.version >= 2 ==> s'.conns[c].key == hello.publicKey.value)
            && forall d | d in s.conns && d != c :: d in s'.conns && s'.conns[d] == s.conns[d]
  {
  }

  /** The connection answers its challenge with the signature that was asked for. */
  ghost predicate Answers(s: Gateway, e: Event, c: ConnId) {
    && e.Respond? && e.conn == c && InPhase(s, c, AwaitResponse)
    && e.signature == Signed(s.conns[c].key, Payload(s.conns[c].nonce, s.conns[c].hello.hostname, s.id))
  }

  ghost predicate Allowed(s: Gateway, k: Conn) {
    MayEnrol(s.hosts, s.tokens, k.hello, k.remoteIp, s.clock) || MayRekey(s.hosts, s.tokens, k.hello, s.clock)
  }

  /** An approval arrives for the queue entry this connection waits on. */
  predicate IsTold(s: Gateway, e: Event, c: ConnId) {
    && e.Deliver? && e.request in s.approvals && s.approvals[e.request].key in s.pending
    && s.pending[s.approvals[e.request].key].conn == c
  }

  /** The path taken decides the phase. */
  lemma TakesPath(s: Gateway, e: Event)
    requires e.Respond? && InPhase(s, e.conn, AwaitResponse)
    ensures var k := s.conns[e.conn];
            var path := Resolve(s.hosts, s.tokens.reg, s.online, k.hello, k.key, k.remoteIp, Chance(e.freshId, e.saveOk, s.clock)).path;
            && e.conn in Step(s, e).conns
            && Step(s, e).conns[e.conn].phase ==
               if !Answers(s, e, e.conn) || path.Reject? then Closed
               else if path.Queued? then Verified
               else Admitted(path.host)
  {
    var k := s.conns[e.conn];
    var r := Resolve(s.hosts, s.tokens.reg, s.online, k.hello, k.key, k.remoteIp, Chance(e.freshId, e.saveOk, s.clock));
    CurrentKeys.TookMoves(s, e.conn, r);
    hide Resolve, Payload, Took;
  }

  lemma RespondedExactly(s: Gateway, e: Event, c: ConnId)
    requires Tokens.Balanced(s.tokens, s.clock) && e.Respond? && e.conn == c && InPhase(s, c, AwaitResponse)
    ensures c in Step(s, e).conns
    ensures var k, phase := s.conns[c], Step(s, e).conns[c].phase;
            && (phase.Admitted? <==> Answers(s, e, c) && (KeyListed(s.hosts, k.key) || (e.saveOk && Allowed(s, k))))
            && (phase == Verified <==>
                  Answers(s, e, c) && !KeyListed(s.hosts, k.key) && !NameListed(s.hosts, k.hello.hostname) && !Allowed(s, k))
            && (phase.Admitted? || phase == Verified || phase == Closed)
  {
    hide Step, Resolve, Tokens.Balanced, Answers, KeyListed, NameListed, MayEnrol, MayRekey;
    var k := s.conns[c];
    TakesPath(s, e);
    PathExactly(s.hosts, s.tokens, s.online, k.hello, k.key, k.remoteIp, Chance(e.freshId, e.saveOk, s.clock));
  }

  /** When a connection gets a host: by its own answer, or by an administrator's approval. */
  lemma AdmittedExactly(s: Gateway, e: Event, c: ConnId)
    requires Inv(s) && Possible(s, e) && c in s.conns && !s.conns[c].phase.Admitted?
    ensures c in Step(s, e).conns
    ensures Step(s, e).conns[c].phase.Admitted? <==>
              || (Answers(s, e, c) && (KeyListed(s.hosts, s.conns[c].key) || (e.saveOk && Allowed(s, s.conns[c]))))
              || IsTold(s, e, c)
    ensures IsTold(s, e, c) ==> Step(s, e).conns[c].phase == Admitted(s.approvals[e.request].host)
  {
    hide Step, Possible, Allowed, KeyListed, Payload, HostsOk, ConnsOk, PendingOk, GrantsOk, RegistrationsOk, Tokens.Balanced;
    if e.Respond? && e.conn == c && InPhase(s, c, AwaitResponse) {
      RespondedExactly(s, e, c);
    } else if e.Deliver? {
      DeliveredExactly(s, e.request, c);
    } else {
      OthersAdmitNobody(s, e, c);
    }
  }

  /** An approval is received by the connection that waits on the entry, and by no other. */
  lemma DeliveredExactly(s: Gateway, r: nat, c: ConnId)
    requires PendingOk(s.conns, s.pending, s.approvals) && c in s.conns && !s.conns[c].phase.Admitted?
    ensures var s' := Step(s, Deliver(r));
            && c in s'.conns
            && s'.conns[c].phase == if IsTold(s, Deliver(r), c) then Admitted(s.approvals[r].host) else s.conns[c].phase
  {
    if r in s.approvals && s.approvals[r].key in s.pending {
      var key := s.approvals[r].key;
      assert EntryOk(s.conns, key, s.pending[key]);
    }
    hide PendingOk;
  }

  /** No step of this kind gives the connection a host. */
  lemma OthersAdmitNobody(s: Gateway, e: Event, c: ConnId)
    requires c in s.conns && !s.conns[c].phase.Admitted? && !e.Deliver? && Possible(s, e)
    requires !(e.Respond? && e.conn == c && InPhase(s, c, AwaitResponse))
    ensures c in Step(s, e).conns && !Step(s, e).conns[c].phase.Admitted?
  {
    hide Responded, HostApproved, Enqueued, Abandoned, HungUp, Greeted, Acknowledged, Disconnected, Administered, Tokens.Creatable;
    match e {
      case Greet(d, hello, nonce, ip) => GreetAdmitsNobody(s, d, hello, nonce, ip, c);
      case Respond(d, signature, freshId, saveOk) =>
        if InPhase(s, d, AwaitResponse) {
          var phase := RespondedMoves(s, d, signature, Chance(freshId, saveOk, s.clock));
        }
      case Enqueue(d) => EnqueueAdmitsNobody(s, d, c);
      case Abandon(d) => LeavingAdmitsNobody(s, d, c);
      case HangUp(d) => LeavingAdmitsNobody(s, d, c);
      case Acknowledge(d, sentOk, saveOk) => AcknowledgeAdmitsNobody(s, d, sentOk, saveOk, c);
      case Disconnect(d, saveOk) => DisconnectAdmitsNobody(s, d, saveOk, c);
      case Approve(_, _, _, _, _, _) => ApproveKeepsConns(s, e);
      case Tick(_) =>
      case Sign(_, _) =>
      case _ => AdministerKeepsConns(s, e);
    }
  }

  lemma GreetAdmitsNobody(s: Gateway, d: ConnId, hello: Hello, nonce: Bytes, ip: string, c: ConnId)
    requires c in s.conns && !s.conns[c].phase.Admitted?
    ensures var s' := Greeted(s, d, hello, nonce, ip); c in s'.conns && !s'.conns[c].phase.Admitted?
  {
  }

  lemma EnqueueAdmitsNobody(s: Gateway, d: ConnId, c: ConnId)
    requires c in s.conns && !s.conns[c].phase.Admitted?
    ensures var s' := Enqueued(s, d); c in s'.conns && !s'.conns[c].phase.Admitted?
  {
    hide Pending.Admits, Pending.Apply;
  }

  lemma LeavingAdmitsNobody(s: Gateway, d: ConnId, c: ConnId)
    requires c in s.conns && !s.conns[c].phase.Admitted?
    ensures var s' := Abandoned(s, d); c in s'.conns && !s'.conns[c].phase.Admitted?
    ensures var s' := HungUp(s, d); c in s'.conns && !s'.conns[c].phase.Admitted?
  {
    hide Pending.Apply;
  }

  lemma AcknowledgeAdmitsNobody(s: Gateway, d: ConnId, sentOk: bool, saveOk: bool, c: ConnId)
    requires c in s.conns && !s.conns[c].phase.Admitted?
    ensures var s' := Acknowledged(s, d, sentOk, saveOk); c in s'.conns && !s'.conns[c].phase.Admitted?
  {
    hide WithEdit;
  }

  lemma DisconnectAdmitsNobody(s: Gateway, d: ConnId, saveOk: bool, c: ConnId)
    requires c in s.conns && !s.conns[c].phase.Admitted?
    ensures var s' := Disconnected(s, d, saveOk); c in s'.conns && !s'.conns[c].phase.Admitted?
  {
    hide WithEdit;
  }

  lemma ApproveKeepsConns(s: Gateway, e: Event)
    requires e.Approve?
    ensures HostApproved(s, e).conns == s.conns
  {
    hide Approved, FindByHostname;
  }

  lemma AdministerKeepsConns(s: Gateway, e: Event)
    ensures Administered(s, e).conns == s.conns
  {
    hide WithEdit, Without, Tokens.Apply;
  }

  /** When a connection is queued: it was told to wait, and its key waits already or there is room. */
  lemma WaitsExactly(s: Gateway, c: ConnId)
    requires InPhase(s, c, Verified)
    ensures var s', k := Step(s, Enqueue(c)), s.conns[c];
            var room := k.key in s.pending
                        || (|s.pending| < 100 && |set q | q in s.pending && s.pending[q].remoteIp == k.remoteIp| < 5);
            && InPhase(s', c, if room then Waiting else Closed)
            && s'.pending == if room then s.pending[k.key := Pending.Entry(k.hello.hostname, k.remoteIp, k.hello.osId, c)]
                             else s.pending
  {
  }

  lemma EditedAt(hosts: seq<Host>, id: HostId, e: Edit)
    requires UniqueIds(hosts)
    ensures |WithEdit(hosts, id, e)| == |hosts|
    ensures forall i :: 0 <= i < |hosts| ==> WithEdit(hosts, id, e)[i] == if hosts[i].id == id then Edited(hosts[i], e) else hosts[i]
  {
  }

  /** An admitted connection that can be acknowledged is registered for its host. */
  lemma AcknowledgedExactly(s: Gateway, c: ConnId, sentOk: bool, saveOk: bool)
    requires c in s.conns && s.conns[c].phase.Admitted?
    ensures var s', h := Step(s, Acknowledge(c, sentOk, saveOk)), s.conns[c].phase.host;
            && InPhase(s', c, if sentOk then Registered(h) else Closed)
            && s'.online == (if sentOk then s.online[h.id := c] else s.online)
            && s'.registered == s.registered + (if sentOk then [Registration(c, h)] else [])
  {
    hide WithEdit, MovesOne;
    assert s.registered + [] == s.registered;
  }

  /** On the way, an os id that the host lacks and the agent presents is filled in, once. */
  lemma OsIdFilledExactly(s: Gateway, c: ConnId, sentOk: bool, saveOk: bool)
    requires UniqueIds(s.hosts) && c in s.conns && s.conns[c].phase.Admitted?
    ensures var hosts, h := Step(s, Acknowledge(c, sentOk, saveOk)).hosts, s.conns[c].phase.host;
            var fills := h.osId == None && s.conns[c].hello.osId.Some? && saveOk;
            && |hosts| == |s.hosts|
            && forall i :: 0 <= i < |hosts| ==>
                 hosts[i] == if fills && s.hosts[i].id == h.id && s.hosts[i].osId == None
                             then s.hosts[i].(osId := s.conns[c].hello.osId) else s.hosts[i]
  {
    hide WithEdit, UniqueIds, Step;
    var h, osId := s.conns[c].phase.host, s.conns[c].hello.osId;
    AcknowledgedHosts(s, c, sentOk, saveOk);
    if osId.Some? {
      EditedAt(s.hosts, h.id, SetOsId(osId.value));
    }
  }

  lemma AcknowledgedHosts(s: Gateway, c: ConnId, sentOk: bool, saveOk: bool)
    requires c in s.conns && s.conns[c].phase.Admitted?
    ensures var h, osId := s.conns[c].phase.host, s.conns[c].hello.osId;
            Step(s, Acknowledge(c, sentOk, saveOk)).hosts ==
            if h.osId == None && osId.Some? && saveOk then WithEdit(s.hosts, h.id, SetOsId(osId.value)) else s.hosts
  {
    hide WithEdit, MovesOne;
  }

  /** A connection that closes stamps its host and takes it off the registry. */
  lemma DisconnectedExactly(s: Gateway, c: ConnId, saveOk: bool)
    requires UniqueIds(s.hosts) && c in s.conns && s.conns[c].phase.Registered?
    ensures var s', id := Step(s, Disconnect(c, saveOk)), s.conns[c].phase.host.id;
            && InPhase(s', c, Closed) && s'.online == s.online - {id}
            && |s'.hosts| == |s.hosts|
            && forall i :: 0 <= i < |s.hosts| ==>
                 s'.hosts[i] == if saveOk && s.hosts[i].id == id then s.hosts[i].(lastSeen := Some(s.clock)) else s.hosts[i]
  {
    EditedAt(s.hosts, s.conns[c].phase.host.id, SetLastSeen(s.clock));
    hide WithEdit, UniqueIds;
  }

  /** A rename changes one display name, a removal takes exactly one host away. */
  lemma AdministeredExactly(s: Gateway, id: HostId, name: Option<string>)
    requires UniqueIds(s.hosts)
    ensures var hosts := Step(s, Rename(id, name, true)).hosts;
            |hosts| == |s.hosts| && forall i :: 0 <= i < |hosts| ==>
              hosts[i] == if s.hosts[i].id == id then s.hosts[i].(displayName := name) else s.hosts[i]
    ensures forall h :: h in Step(s, RemoveHost(id, true)).hosts <==> h in s.hosts && h.id != id
  {
    EditedAt(s.hosts, id, SetDisplayName(name));
    WithoutMembers(s.hosts, id);
    hide WithEdit, Without, UniqueIds;
  }

  /** The host of this name gets the key, and the display name if one is given; `told` is what the waiter hears. */
  predicate Rekeys(hosts: seq<Host>, hosts': seq<Host>, told: Host, i: nat, e: Event)
    requires i < |hosts| && e.Approve?
  {
    && told == hosts[i].(publicKey := Some(e.key),
                         displayName := if e.displayName.Some? then e.displayName else hosts[i].displayName)
    && hosts' == hosts[i := if e.saveNameOk then told else told.(displayName := hosts[i].displayName)]
  }

  /** A host is added that is just what waited. */
  predicate Adds(hosts: seq<Host>, hosts': seq<Host>, told: Host, entry: Pending.Entry, e: Event, now: Time)
    requires e.Approve?
  {
    && told == Host(e.freshId, entry.hostname, entry.hostname, Some(e.key), now,
                    entry.remoteIp == "127.0.0.1" || entry.remoteIp == "::1", e.displayName, None, entry.osId)
    && hosts' == hosts + [told]
  }

  lemma ApprovedRekeys(hosts: seq<Host>, entry: Pending.Entry, e: Event, now: Time) returns (i: nat)
    requires UniqueIds(hosts) && e.Approve? && NameListed(hosts, entry.hostname)
    ensures i < |hosts| && hosts[i].hostname == entry.hostname
    ensures var out := Approved(hosts, e.key, entry, e, now); Rekeys(hosts, out.0, out.1, i, e)
  {
    LookupsExactly(hosts, e.key, entry.hostname);
    HostnameFound(hosts, entry.hostname);
    hide FindByHostname, NameListed, UniqueIds, WithEdit;
    var h := FindByHostname(hosts, entry.hostname).value;
    i :| 0 <= i < |hosts| && hosts[i] == h;
    EditedTwice(hosts, i, e.key, e.displayName);
  }

  lemma EditedTwice(hosts: seq<Host>, i: nat, key: Key, name: Option<string>)
    requires UniqueIds(hosts) && i < |hosts|
    ensures var h := hosts[i].(publicKey := Some(key));
            && WithEdit(hosts, h.id, SetKey(key)) == hosts[i := h]
            && WithEdit(hosts[i := h], h.id, SetDisplayName(name)) == hosts[i := h.(displayName := name)]
  {
    var h := hosts[i].(publicKey := Some(key));
    EditedInPlace(hosts, i, SetKey(key));
    EditKeeps(hosts, h.id, SetKey(key));
    EditedInPlace(hosts[i := h], i, SetDisplayName(name));
    hide WithEdit, UniqueIds;
    UpdatedTwice(hosts, i, h, h.(displayName := name));
  }

  lemma UpdatedTwice(hosts: seq<Host>, i: nat, g: Host, h: Host)
    requires i < |hosts|
    ensures hosts[i := g][i := h] == hosts[i := h]
  {
  }

  lemma ApprovedAdds(hosts: seq<Host>, entry: Pending.Entry, e: Event, now: Time)
    requires e.Approve? && !NameListed(hosts, entry.hostname)
    ensures var out := Approved(hosts, e.key, entry, e, now); Adds(hosts, out.0, out.1, entry, e, now)
  {
    LookupsExactly(hosts, e.key, entry.hostname);
    hide FindByHostname, NameListed, WithEdit;
  }

  /** What an approval writes for a key that waits, and what it is about to tell the waiter; nothing else moves. */
  lemma ApprovalExactly(s: Gateway, e: Event)
    requires UniqueIds(s.hosts) && e.Approve?
    ensures e.key !in s.pending || !e.saveOk ==> Step(s, e) == s
    ensures e.key in s.pending && e.saveOk ==>
              var s', entry := Step(s, e), s.pending[e.key];
              && s'.conns == s.conns && s'.pending == s.pending && s'.online == s.online
              && e.request in s'.approvals && s'.approvals[e.request].key == e.key
              && s'.approvals == s.approvals[e.request := s'.approvals[e.request]]
              && var told := s'.approvals[e.request].host;
              if NameListed(s.hosts, entry.hostname) then
                exists i: nat :: i < |s.hosts| && s.hosts[i].hostname == entry.hostname && Rekeys(s.hosts, s'.hosts, told, i, e)
              else Adds(s.hosts, s'.hosts, told, entry, e, s.clock)
  {
    hide NameListed, Rekeys, Adds, Approved, FindByHostname, UniqueIds;
    if e.key in s.pending && e.saveOk {
      if NameListed(s.hosts, s.pending[e.key].hostname) {
        var i := ApprovedRekeys(s.hosts, s.pending[e.key], e, s.clock);
      } else {
        ApprovedAdds(s.hosts, s.pending[e.key], e, s.clock);
      }
    }
  }

  // ----- Every change of hosts was authorised -----

  /** The ids that are listed with a key they were not listed with before. */
  ghost function Changed(hosts: seq<Host>, hosts': seq<Host>): set<HostId> {
    set h | h in hosts' && (forall g | g in hosts :: g.id != h.id || g.publicKey != h.publicKey) :: h.id
  }

  /** An unknown agent proves its key and presents a token that is accepted. */
  ghost predicate ByToken(s: Gateway, e: Event) {
    && e.Respond? && Answers(s, e, e.conn) && !KeyListed(s.hosts, s.conns[e.conn].key)
    && TokenGood(s.tokens, s.conns[e.conn].hello, s.clock)
  }

  /** An unknown agent proves its key from the gateway's own machine, without a token. */
  ghost predicate ByLoopback(s: Gateway, e: Event) {
    && e.Respond? && Answers(s, e, e.conn) && !KeyListed(s.hosts, s.conns[e.conn].key)
    && s.conns[e.conn].hello.bootstrapToken == None
    && (s.conns[e.conn].remoteIp == "127.0.0.1" || s.conns[e.conn].remoteIp == "::1")
  }

  predicate ByApproval(s: Gateway, e: Event) {
    e.Approve? && e.key in s.pending && e.saveOk
  }

  ghost predicate Authorised(s: Gateway, e: Event) {
    ByToken(s, e) || ByLoopback(s, e) || ByApproval(s, e)
  }

  /** The hosts keep their ids and keys, but for at most this one. */
  ghost predicate OnlyChanges(hosts: seq<Host>, hosts': seq<Host>, ids: set<HostId>) {
    forall h | h in hosts' :: h.id in ids || exists g :: g in hosts && g.id == h.id && g.publicKey == h.publicKey
  }

  lemma ChangedWithin(hosts: seq<Host>, hosts': seq<Host>, ids: set<HostId>)
    requires OnlyChanges(hosts, hosts', ids)
    ensures Changed(hosts, hosts') <= ids && |Changed(hosts, hosts')| <= |ids|
  {
    SubsetSize(Changed(hosts, hosts'), ids);
  }

  lemma {:induction false} SubsetSize(a: set<HostId>, b: set<HostId>)
    requires a <= b
    ensures |a| <= |b|
  {
    if x :| x in a {
      SubsetSize(a - {x}, b - {x});
    }
  }

  lemma SameChangesNothing(hosts: seq<Host>)
    ensures OnlyChanges(hosts, hosts, {})
  {
  }

  lemma PushChangesOne(hosts: seq<Host>, h: Host)
    ensures OnlyChanges(hosts, hosts + [h], {h.id})
  {
  }

  lemma PointwiseChanges(hosts: seq<Host>, hosts': seq<Host>, ids: set<HostId>)
    requires |hosts'| == |hosts|
    requires forall i :: 0 <= i < |hosts| ==>
               hosts'[i].id in ids || (hosts'[i].id == hosts[i].id && hosts'[i].publicKey == hosts[i].publicKey)
    ensures OnlyChanges(hosts, hosts', ids)
  {
    forall h | h in hosts' ensures h.id in ids || exists g :: g in hosts && g.id == h.id && g.publicKey == h.publicKey {
      var i :| 0 <= i < |hosts'| && hosts'[i] == h;
      assert hosts[i] in hosts;
    }
  }

  lemma EditChangesOne(hosts: seq<Host>, id: HostId, e: Edit)
    ensures OnlyChanges(hosts, WithEdit(hosts, id, e), if e.SetKey? then {id} else {})
  {
    hide UniqueIds, UniqueHostnames, UniqueKeys, WithEdit;
    EditKeeps(hosts, id, e);
    PointwiseChanges(hosts, WithEdit(hosts, id, e), if e.SetKey? then {id} else {});
  }

  lemma RemoveChangesNothing(hosts: seq<Host>, id: HostId)
    ensures OnlyChanges(hosts, Without(hosts, id), {})
  {
    WithoutMembers(hosts, id);
    hide Without;
  }

  /** The path changes one host at most, and only when it may. */
  lemma PathChanges(hosts: seq<Host>, b: Tokens.Book, online: map<HostId, ConnId>, hello: Hello, key: Key, ip: string, x: Chance)
    requires Tokens.Balanced(b, x.now) && UniqueIds(hosts)
    ensures var r := Resolve(hosts, b.reg, online, hello, key, ip, x);
            || r.hosts == hosts
            || (!KeyListed(hosts, key) && (MayEnrol(hosts, b, hello, ip, x.now) || MayRekey(hosts, b, hello, x.now))
                && exists id :: OnlyChanges(hosts, r.hosts, {id}))
  {
    hide Resolve, Tokens.Balanced, UniqueIds, KeyListed, MayEnrol, MayRekey, OnlyChanges;
    var r := Resolve(hosts, b.reg, online, hello, key, ip, x);
    EffectsExactly(hosts, b, online, hello, key, ip, x);
    if r.hosts != hosts {
      if MayEnrol(hosts, b, hello, ip, x.now) {
        PushChangesOne(hosts, Enrolled(hello, key, x));
        assert OnlyChanges(hosts, r.hosts, {x.freshId});
      } else {
        var i :| 0 <= i < |hosts| && r.hosts == hosts[i := hosts[i].(publicKey := Some(key))];
        PointwiseChanges(hosts, r.hosts, {hosts[i].id});
        assert OnlyChanges(hosts, r.hosts, {hosts[i].id});
      }
    }
  }

  lemma RespondChanges(s: Gateway, e: Event)
    requires Inv(s) && e.Respond? && InPhase(s, e.conn, AwaitResponse)
    ensures var hosts := Step(s, e).hosts;
            || hosts == s.hosts
            || (Authorised(s, e) && exists id :: OnlyChanges(s.hosts, hosts, {id}))
  {
    hide Step, Resolve, KeyListed, NameListed, TokenGood, TokenRekeys, Answers, OnlyChanges;
    var k, x := s.conns[e.conn], Chance(e.freshId, e.saveOk, s.clock);
    PathChanges(s.hosts, s.tokens, s.online, k.hello, k.key, k.remoteIp, x);
    TakesHosts(s, e);
    hide Inv;
    RekeysByGoodToken(s.tokens, k.hello, s.clock);
  }

  lemma RekeysByGoodToken(b: Tokens.Book, hello: Hello, now: Time)
    ensures TokenRekeys(b, hello, now) ==> TokenGood(b, hello, now) && hello.bootstrapToken.Some?
  {
    hide Tokens.Redeemable;
  }

  lemma TakesHosts(s: Gateway, e: Event)
    requires e.Respond? && InPhase(s, e.conn, AwaitResponse)
    ensures var k := s.conns[e.conn];
            var r := Resolve(s.hosts, s.tokens.reg, s.online, k.hello, k.key, k.remoteIp, Chance(e.freshId, e.saveOk, s.clock));
            Step(s, e).hosts == if Answers(s, e, e.conn) then r.hosts else s.hosts
  {
    var k := s.conns[e.conn];
    var r := Resolve(s.hosts, s.tokens.reg, s.online, k.hello, k.key, k.remoteIp, Chance(e.freshId, e.saveOk, s.clock));
    CurrentKeys.TookMoves(s, e.conn, r);
    hide Resolve, Payload, Took;
  }

  lemma ApproveChanges(s: Gateway, e: Event)
    requires e.Approve?
    ensures var hosts := Step(s, e).hosts;
            || hosts == s.hosts
            || (ByApproval(s, e) && exists id :: OnlyChanges(s.hosts, hosts, {id}))
  {
    hide WithEdit, OnlyChanges, FindByHostname;
    if e.key in s.pending && e.saveOk {
      var entry := s.pending[e.key];
      var existing := FindByHostname(s.hosts, entry.hostname);
      if existing.Some? {
        var id := existing.value.id;
        var rekeyed := WithEdit(s.hosts, id, SetKey(e.key));
        EditChangesOne(s.hosts, id, SetKey(e.key));
        EditChangesOne(rekeyed, id, SetDisplayName(e.displayName));
        ChangesChain(s.hosts, rekeyed, WithEdit(rekeyed, id, SetDisplayName(e.displayName)), {id});
        assert OnlyChanges(s.hosts, Step(s, e).hosts, {id});
      } else {
        PushChangesOne(s.hosts, Approved(s.hosts, e.key, entry, e, s.clock).1);
      }
    }
  }

  lemma ChangesChain(a: seq<Host>, b: seq<Host>, c: seq<Host>, ids: set<HostId>)
    requires OnlyChanges(a, b, ids) && OnlyChanges(b, c, {})
    ensures OnlyChanges(a, c, ids)
  {
  }

  lemma OthersChangeNothing(s: Gateway, e: Event)
    requires !e.Approve? && !(e.Respond? && InPhase(s, e.conn, AwaitResponse))
    ensures OnlyChanges(s.hosts, Step(s, e).hosts, {})
  {
    hide WithEdit, Without, OnlyChanges, Tokens.Apply;
    SameChangesNothing(s.hosts);
    match e {
      case Acknowledge(c, _, _) =>
        if c in s.conns && s.conns[c].phase.Admitted? && s.conns[c].hello.osId.Some? {
          EditChangesOne(s.hosts, s.conns[c].phase.host.id, SetOsId(s.conns[c].hello.osId.value));
        }
      case Disconnect(c, _) =>
        if c in s.conns && s.conns[c].phase.Registered? {
          EditChangesOne(s.hosts, s.conns[c].phase.host.id, SetLastSeen(s.clock));
        }
      case RemoveHost(id, _) => RemoveChangesNothing(s.hosts, id);
      case Rename(id, name, _) => EditChangesOne(s.hosts, id, SetDisplayName(name));
      case LoseHosts => NoHostsLeft(s.hosts);
      case IssueToken(_, _) =>
      case RevokeToken(_) =>
      case SweepTokens =>
      case Respond(_, _, _, _) =>
      case Tick(_) =>
      case Sign(_, _) =>
      case _ => HandshakeKeepsHosts(s, e);
    }
  }

  lemma NoHostsLeft(hosts: seq<Host>)
    ensures OnlyChanges(hosts, [], {})
  {
  }

  lemma HandshakeKeepsHosts(s: Gateway, e: Event)
    requires e.Greet? || e.Enqueue? || e.Deliver? || e.Abandon? || e.HangUp?
    ensures Step(s, e).hosts == s.hosts
  {
    hide Greeted, Enqueued, Delivered, Abandoned, HungUp;
  }

  /** A step lists at most one host under a new key, and only when authorised. */
  lemma ChangeIsAuthorised(s: Gateway, e: Event)
    requires Inv(s)
    ensures |Changed(s.hosts, Step(s, e).hosts)| <= if Authorised(s, e) then 1 else 0
  {
    hide Step, Changed, OnlyChanges, Inv;
    var hosts := Step(s, e).hosts;
    SameChangesNothing(s.hosts);
    if e.Approve? {
      ApproveChanges(s, e);
    } else if e.Respond? && InPhase(s, e.conn, AwaitResponse) {
      RespondChanges(s, e);
    } else {
      OthersChangeNothing(s, e);
    }
    hide Authorised;
    if OnlyChanges(s.hosts, hosts, {}) {
      ChangedWithin(s.hosts, hosts, {});
    } else {
      var id :| OnlyChanges(s.hosts, hosts, {id});
      ChangedWithin(s.hosts, hosts, {id});
    }
  }

  /** How often in the run a host was listed under a new key. */
  ghost function Changes(s: Gateway, es: seq<Event>): nat {
    if es == [] then 0
    else
      var init := es[..|es| - 1];
      Changes(s, init) + |Changed(Run(s, init).hosts, Run(s, es).hosts)|
  }

  /** How many steps of the run were authorised in each of the three ways. */
  ghost function Tokened(s: Gateway, es: seq<Event>): nat {
    if es == [] then 0
    else Tokened(s, es[..|es| - 1]) + if ByToken(Run(s, es[..|es| - 1]), es[|es| - 1]) then 1 else 0
  }

  ghost function Local(s: Gateway, es: seq<Event>): nat {
    if es == [] then 0
    else Local(s, es[..|es| - 1]) + if ByLoopback(Run(s, es[..|es| - 1]), es[|es| - 1]) then 1 else 0
  }

  ghost function Approvals(s: Gateway, es: seq<Event>): nat {
    if es == [] then 0
    else Approvals(s, es[..|es| - 1]) + if ByApproval(Run(s, es[..|es| - 1]), es[|es| - 1]) then 1 else 0
  }

  /** The books count an acceptance in exactly these steps, for a token that could be redeemed. */
  lemma AcceptanceIsCounted(s: Gateway, e: Event)
    requires Tokens.Balanced(s.tokens, s.clock) && e.Respond?
    ensures !ByToken(s, e) ==> Step(s, e).tokens.uses == s.tokens.uses
    ensures ByToken(s, e) ==>
              var k, uses := s.conns[e.conn], s.tokens.uses;
              exists id ::
                && Tokens.Redeemable(s.tokens, id, k.hello.bootstrapToken.value, k.hello.hostname, s.clock)
                && Step(s, e).tokens.uses == uses[id := uses[id] + 1]
  {
    hide Step, Answers, KeyListed, Resolve, Tokens.Balanced, Tokens.Redeemable;
    if InPhase(s, e.conn, AwaitResponse) {
      var k, x := s.conns[e.conn], Chance(e.freshId, e.saveOk, s.clock);
      ConsumesExactly(s.hosts, s.tokens, s.online, k.hello, k.key, k.remoteIp, x);
      CountsUse(s, e);
      RedeemableIsCounted(s.tokens);
      if ByToken(s, e) {
        var used := Resolve(s.hosts, s.tokens.reg, s.online, k.hello, k.key, k.remoteIp, x).used;
        assert Step(s, e).tokens.uses == s.tokens.uses[used.value := s.tokens.uses[used.value] + 1];
      }
    } else {
      NothingToAnswer(s, e);
    }
  }

  lemma NothingToAnswer(s: Gateway, e: Event)
    requires e.Respond? && !InPhase(s, e.conn, AwaitResponse)
    ensures Step(s, e) == s && !Answers(s, e, e.conn)
  {
    hide Payload, Responded;
  }

  lemma RedeemableIsCounted(b: Tokens.Book)
    ensures forall id, value, hostname, now | Tokens.Redeemable(b, id, value, hostname, now) :: id in b.uses
  {
  }

  lemma CountsUse(s: Gateway, e: Event)
    requires e.Respond? && InPhase(s, e.conn, AwaitResponse)
    ensures var k, uses := s.conns[e.conn], s.tokens.uses;
            var r := Resolve(s.hosts, s.tokens.reg, s.online, k.hello, k.key, k.remoteIp, Chance(e.freshId, e.saveOk, s.clock));
            Step(s, e).tokens.uses ==
            if Answers(s, e, e.conn) && r.used.Some? && r.used.value in uses then uses[r.used.value := uses[r.used.value] + 1]
            else uses
  {
    hide Resolve, Payload, Enrolments, Named;
  }

  /** Hosts minted or re-keyed never exceed accepted tokens, loopback answers and approvals together. */
  lemma {:induction false} ChangesAreAuthorised(s: Gateway, es: seq<Event>)
    requires Initial(s) && Lawful(s, es)
    ensures Changes(s, es) <= Tokened(s, es) + Local(s, es) + Approvals(s, es)
  {
    hide Initial, Possible, Step, Inv, Changed, ByToken, ByLoopback, ByApproval;
    if es != [] {
      var init, e := es[..|es| - 1], es[|es| - 1];
      ChangesAreAuthorised(s, init);
      RunKeepsInv(s, init);
      ChangeIsAuthorised(Run(s, init), e);
    }
  }
}
