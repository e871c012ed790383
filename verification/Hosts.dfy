/** The gateway's list of enrolled hosts (hosts.json). */
module Hosts {
  import opened Wrappers
  import opened Octets
  import opened Challenge

  type HostId = string
  type Hostname = Bytes
  type Time = nat

  datatype Host = Host(
    id: HostId,
    name: Hostname,
    hostname: Hostname,
    publicKey: Option<Key>,
    addedAt: Time,
    isLocal: bool,
    displayName: Option<string>,
    lastSeen: Option<Time>,
    osId: Option<string>)

  // ----- Lookups: the first match, as in the source -----

  function FindByPubkey(hs: seq<Host>, key: Key): Option<Host> {
    if hs == [] then None
    else if hs[0].publicKey == Some(key) then Some(hs[0])
    else FindByPubkey(hs[1..], key)
  }

  function FindByHostname(hs: seq<Host>, hostname: Hostname): Option<Host> {
    if hs == [] then None
    else if hs[0].hostname == hostname then Some(hs[0])
    else FindByHostname(hs[1..], hostname)
  }

  /** Index of the first host with this id, or the length of the list. */
  function IndexOfId(hs: seq<Host>, id: HostId): (i: nat)
    ensures i <= |hs|
    ensures i < |hs| ==> hs[i].id == id
    ensures forall j :: 0 <= j < i ==> hs[j].id != id
  {
    if hs == [] || hs[0].id == id then 0 else 1 + IndexOfId(hs[1..], id)
  }

  lemma {:induction false} PubkeyFound(hs: seq<Host>, key: Key)
    ensures FindByPubkey(hs, key).Some? ==> FindByPubkey(hs, key).value in hs && FindByPubkey(hs, key).value.publicKey == Some(key)
    ensures FindByPubkey(hs, key).None? ==> forall h | h in hs :: h.publicKey != Some(key)
  {
    if hs != [] {
      PubkeyFound(hs[1..], key);
      assert forall h | h in hs :: h == hs[0] || h in hs[1..];
    }
  }

  lemma {:induction false} HostnameFound(hs: seq<Host>, hostname: Hostname)
    ensures FindByHostname(hs, hostname).Some? ==>
              FindByHostname(hs, hostname).value in hs && FindByHostname(hs, hostname).value.hostname == hostname
    ensures FindByHostname(hs, hostname).None? ==> forall h | h in hs :: h.hostname != hostname
  {
    if hs != [] {
      HostnameFound(hs[1..], hostname);
      assert forall h | h in hs :: h == hs[0] || h in hs[1..];
    }
  }

  // ----- Edits -----

  datatype Edit = SetKey(key: Key) | SetOsId(osId: string) | SetLastSeen(at: Time) | SetDisplayName(name: Option<string>)

  function Edited(h: Host, e: Edit): Host {
    match e
    case SetKey(key) => h.(publicKey := Some(key))
    case SetOsId(osId) => if h.osId.None? then h.(osId := Some(osId)) else h
    case SetLastSeen(at) => h.(lastSeen := Some(at))
    case SetDisplayName(name) => h.(displayName := name)
  }

  /** The list with the first host of this id edited. */
  function WithEdit(hs: seq<Host>, id: HostId, e: Edit): seq<Host> {
    var i := IndexOfId(hs, id);
    if i < |hs| then hs[i := Edited(hs[i], e)] else hs
  }

  function Without(hs: seq<Host>, id: HostId): seq<Host> {
    if hs == [] then []
    else if hs[0].id == id then Without(hs[1..], id)
    else [hs[0]] + Without(hs[1..], id)
  }

  function NewHost(id: HostId, hostname: Hostname, key: Key, isLocal: bool, displayName: Option<string>,
                   osId: Option<string>, now: Time): Host {
    Host(id, hostname, hostname, Some(key), now, isLocal, displayName, None, osId)
  }

  /** A new host is named after its hostname and has never been seen; the rest is as given. */
  lemma NewHostFields(id: HostId, hostname: Hostname, key: Key, isLocal: bool, displayName: Option<string>,
                      osId: Option<string>, now: Time)
    ensures var h := NewHost(id, hostname, key, isLocal, displayName, osId, now);
            && h.id == id && h.hostname == hostname && h.name == hostname && h.publicKey == Some(key)
            && h.addedAt == now && h.isLocal == isLocal && h.displayName == displayName && h.osId == osId
            && h.lastSeen == None
  {
  }

  /** An edit sets its own field, an os id only where there was none, and leaves all others alone. */
  lemma EditedFields(h: Host, e: Edit)
    ensures var g := Edited(h, e);
            && g.id == h.id && g.name == h.name && g.hostname == h.hostname && g.addedAt == h.addedAt && g.isLocal == h.isLocal
            && g.publicKey == (if e.SetKey? then Some(e.key) else h.publicKey)
            && g.osId == (if e.SetOsId? && h.osId == None then Some(e.osId) else h.osId)
            && g.lastSeen == (if e.SetLastSeen? then Some(e.at) else h.lastSeen)
            && g.displayName == (if e.SetDisplayName? then e.name else h.displayName)
  {
  }

  /** With unique ids, an edit of a listed host changes it and no other, in place. */
  lemma EditedInPlace(hs: seq<Host>, i: nat, e: Edit)
    requires UniqueIds(hs) && i < |hs|
    ensures WithEdit(hs, hs[i].id, e) == hs[i := Edited(hs[i], e)]
  {
  }

  lemma {:induction false} WithoutAppend(a: seq<Host>, b: seq<Host>, id: HostId)
    ensures Without(a + b, id) == Without(a, id) + Without(b, id)
  {
    if a == [] {
      assert a + b == b;
    } else {
      WithoutAppend(a[1..], b, id);
      assert (a + b)[1..] == a[1..] + b && (a + b)[0] == a[0];
    }
  }

  /** Removing takes out the host at any place and keeps the others in order. */
  lemma WithoutAt(a: seq<Host>, h: Host, b: seq<Host>, id: HostId)
    ensures Without(a + [h] + b, id) == Without(a, id) + (if h.id == id then [] else [h]) + Without(b, id)
  {
    WithoutAppend(a + [h], b, id);
    WithoutAppend(a, [h], id);
    assert Without([h], id) == if h.id == id then [] else [h];
    hide Without;
  }

  // ----- What every list of hosts keeps -----

  ghost predicate UniqueIds(hs: seq<Host>) {
    forall i, j :: 0 <= i < j < |hs| ==> hs[i].id != hs[j].id
  }

  ghost predicate UniqueHostnames(hs: seq<Host>) {
    forall i, j :: 0 <= i < j < |hs| ==> hs[i].hostname != hs[j].hostname
  }

  ghost predicate UniqueKeys(hs: seq<Host>) {
    forall i, j :: 0 <= i < j < |hs| && hs[i].publicKey.Some? ==> hs[i].publicKey != hs[j].publicKey
  }

  /** Every host of the list has an id issued for its hostname. */
  ghost predicate NamedBy(hs: seq<Host>, names: map<HostId, Hostname>) {
    forall h | h in hs :: h.id in names && names[h.id] == h.hostname
  }

  lemma EditKeeps(hs: seq<Host>, id: HostId, e: Edit)
    ensures |WithEdit(hs, id, e)| == |hs|
    ensures forall i :: 0 <= i < |hs| ==>
              WithEdit(hs, id, e)[i].id == hs[i].id && WithEdit(hs, id, e)[i].hostname == hs[i].hostname
    ensures forall i :: 0 <= i < |hs| && (hs[i].id != id || !e.SetKey?) ==>
              WithEdit(hs, id, e)[i].publicKey == hs[i].publicKey
    ensures UniqueIds(hs) ==> UniqueIds(WithEdit(hs, id, e))
    ensures UniqueHostnames(hs) ==> UniqueHostnames(WithEdit(hs, id, e))
    ensures !e.SetKey? && UniqueKeys(hs) ==> UniqueKeys(WithEdit(hs, id, e))
  {
  }

  lemma EditKeepsNames(hs: seq<Host>, id: HostId, e: Edit, names: map<HostId, Hostname>)
    requires NamedBy(hs, names)
    ensures NamedBy(WithEdit(hs, id, e), names)
  {
    EditKeeps(hs, id, e);
    var hs' := WithEdit(hs, id, e);
    forall h | h in hs' ensures h.id in names && names[h.id] == h.hostname {
      var i :| 0 <= i < |hs'| && hs'[i] == h;
      assert hs[i] in hs;
    }
  }

  lemma {:induction false} WithoutMembers(hs: seq<Host>, id: HostId)
    ensures forall h :: h in Without(hs, id) <==> h in hs && h.id != id
  {
    if hs != [] {
      WithoutMembers(hs[1..], id);
      assert forall h :: h in hs <==> h == hs[0] || h in hs[1..];
    }
  }

  lemma {:induction false} WithoutKeeps(hs: seq<Host>, id: HostId)
    ensures UniqueIds(hs) ==> UniqueIds(Without(hs, id))
    ensures UniqueHostnames(hs) ==> UniqueHostnames(Without(hs, id))
    ensures UniqueKeys(hs) ==> UniqueKeys(Without(hs, id))
  {
    if hs != [] {
      var rest := Without(hs[1..], id);
      WithoutKeeps(hs[1..], id);
      forall i | 0 <= i < |rest| ensures exists j :: 0 < j < |hs| && hs[j] == rest[i] {
        WithoutMembers(hs[1..], id);
        assert rest[i] in hs[1..];
        var k :| 0 <= k < |hs[1..]| && hs[1..][k] == rest[i];
        assert hs[k + 1] == rest[i];
      }
    }
  }

  lemma PushKeeps(hs: seq<Host>, h: Host)
    requires forall g | g in hs :: g.id != h.id && g.hostname != h.hostname
    ensures UniqueIds(hs) ==> UniqueIds(hs + [h])
    ensures UniqueHostnames(hs) ==> UniqueHostnames(hs + [h])
    ensures UniqueKeys(hs) && (forall g | g in hs :: g.publicKey != h.publicKey) ==> UniqueKeys(hs + [h])
  {
  }

  lemma SameIdSameHost(hs: seq<Host>, g: Host, h: Host)
    requires UniqueIds(hs) && g in hs && h in hs && g.id == h.id
    ensures g == h
  {
  }

  /** Re-keying a listed host edits exactly that host. */
  lemma RekeyedAt(hs: seq<Host>, h: Host, key: Key)
    requires UniqueIds(hs) && h in hs
    ensures var hs' := WithEdit(hs, h.id, SetKey(key));
            && h.(publicKey := Some(key)) in hs'
            && forall g :: g in hs' <==> g == h.(publicKey := Some(key)) || (g in hs && g.id != h.id)
  {
    var hs', i := WithEdit(hs, h.id, SetKey(key)), IndexOfId(hs, h.id);
    assert i < |hs| && hs[i] in hs;
    SameIdSameHost(hs, hs[i], h);
    assert hs'[i] == h.(publicKey := Some(key));
    forall g | g in hs && g.id != h.id ensures g in hs' {
      var j :| 0 <= j < |hs| && hs[j] == g;
      assert hs'[j] == g;
    }
    forall g | g in hs' && g != h.(publicKey := Some(key)) ensures g in hs && g.id != h.id {
      var j :| 0 <= j < |hs'| && hs'[j] == g;
      assert hs[j] == g;
    }
  }

  // ----- The file -----

  /** hosts.json: every operation loads it, changes the list in place and saves it. */
  class HostsFile {
    var hosts: seq<Host>

    constructor ()
      ensures hosts == []
    {
      hosts := [];
    }

    method LookupByPubkey(key: Key) returns (r: Option<Host>)
      ensures r == FindByPubkey(hosts, key)
    {
      for i := 0 to |hosts|
        invariant FindByPubkey(hosts, key) == FindByPubkey(hosts[i..], key)
      {
        assert hosts[i..][1..] == hosts[i + 1..];
        if hosts[i].publicKey == Some(key) {
          return Some(hosts[i]);
        }
      }
      r := None;
    }

    method LookupByHostname(hostname: Hostname) returns (r: Option<Host>)
      ensures r == FindByHostname(hosts, hostname)
    {
      for i := 0 to |hosts|
        invariant FindByHostname(hosts, hostname) == FindByHostname(hosts[i..], hostname)
      {
        assert hosts[i..][1..] == hosts[i + 1..];
        if hosts[i].hostname == hostname {
          return Some(hosts[i]);
        }
      }
      r := None;
    }

    method FindIndex(id: HostId) returns (i: nat)
      ensures i == IndexOfId(hosts, id)
    {
      i := 0;
      assert hosts[0..] == hosts;
      while i < |hosts| && hosts[i].id != id
        invariant i <= |hosts|
        invariant IndexOfId(hosts, id) == i + IndexOfId(hosts[i..], id)
      {
        assert hosts[i..][1..] == hosts[i + 1..];
        i := i + 1;
      }
    }

    method RegisterHost(id: HostId, hostname: Hostname, key: Key, isLocal: bool, displayName: Option<string>,
                        osId: Option<string>, now: Time, saveOk: bool) returns (r: Option<Host>)
      modifies this
      ensures var h := NewHost(id, hostname, key, isLocal, displayName, osId, now);
              && hosts == (if saveOk then old(hosts) + [h] else old(hosts))
              && r == (if saveOk then Some(h) else None)
      ensures saveOk ==> hosts == old(hosts) + [Host(id, hostname, hostname, Some(key), now, isLocal, displayName, None, osId)]
    {
      if !saveOk {
        return None;
      }
      var h := NewHost(id, hostname, key, isLocal, displayName, osId, now);
      hosts := hosts + [h];
      r := Some(h);
    }

    method ReplacePubkey(id: HostId, key: Key, saveOk: bool) returns (r: Option<Host>)
      modifies this
      ensures hosts == if saveOk then WithEdit(old(hosts), id, SetKey(key)) else old(hosts)
      ensures r == if saveOk && IndexOfId(old(hosts), id) < |old(hosts)|
                   then Some(Edited(old(hosts)[IndexOfId(old(hosts), id)], SetKey(key))) else None
    {
      var i := FindIndex(id);
      if i == |hosts| || !saveOk {
        return None;
      }
      var updated := hosts[i].(publicKey := Some(key));
      hosts := hosts[i := updated];
      r := Some(updated);
    }

    /** The other in-place edits: os id, last seen, display name. */
    method EditHost(id: HostId, e: Edit, saveOk: bool) returns (found: bool)
      modifies this
      ensures hosts == if saveOk then WithEdit(old(hosts), id, e) else old(hosts)
      ensures found <==> exists h :: h in old(hosts) && h.id == id
    {
      var i := FindIndex(id);
      found := i < |hosts|;
      if found {
        assert hosts[i] in hosts;
        if saveOk {
          hosts := hosts[i := Edited(hosts[i], e)];
        }
      }
    }

    method RemoveHost(id: HostId, saveOk: bool) returns (found: bool)
      modifies this
      ensures hosts == if saveOk then Without(old(hosts), id) else old(hosts)
      ensures found <==> exists h :: h in old(hosts) && h.id == id
    {
      var kept: seq<Host> := [];
      found := false;
      for i := 0 to |hosts|
        invariant hosts == old(hosts)
        invariant Without(hosts, id) == kept + Without(hosts[i..], id)
        invariant found <==> exists j :: 0 <= j < i && hosts[j].id == id
      {
        assert hosts[i..][1..] == hosts[i + 1..];
        if hosts[i].id != id {
          kept := kept + [hosts[i]];
        } else {
          found := true;
        }
      }
      if !found {
        NothingToRemove(hosts, id);
      } else if saveOk {
        hosts := kept;
      }
      hide Without;
    }
  }

  lemma {:induction false} NothingToRemove(hs: seq<Host>, id: HostId)
    requires forall i :: 0 <= i < |hs| ==> hs[i].id != id
    ensures Without(hs, id) == hs
  {
    if hs != [] {
      NothingToRemove(hs[1..], id);
    }
  }
}
