/** Agents that proved their key but wait for an administrator. */
module Pending {
  import opened Wrappers
  import opened Octets
  import opened Challenge

  const MAX_PENDING := 100
  const MAX_PENDING_PER_IP := 5

  type Address = string
  type ConnId = nat

  /** `conn` holds the receiving end of the entry's one-shot approval channel. */
  datatype Entry = Entry(hostname: Bytes, remoteIp: Address, osId: Option<string>, conn: ConnId)

  /** Keyed by public key; the fingerprint of the API is an ideal hash of that key. */
  type Queue = map<Key, Entry>

  function From(q: Queue, ip: Address): set<Key> {
    set k | k in q && q[k].remoteIp == ip
  }

  predicate Admits(q: Queue, key: Key, ip: Address) {
    key in q || (|q| < MAX_PENDING && |From(q, ip)| < MAX_PENDING_PER_IP)
  }

  class PendingRegistry {
    var queue: Queue

    constructor ()
      ensures queue == map[]
    {
      queue := map[];
    }

    method CountFrom(ip: Address) returns (n: nat)
      ensures n == |From(queue, ip)|
    {
      n := 0;
      var todo := queue.Keys;
      ghost var counted: set<Key> := {};
      while todo != {}
        invariant todo <= queue.Keys && n == |counted|
        invariant counted == set k | k in queue && k !in todo && queue[k].remoteIp == ip
        decreases todo
      {
        var k :| k in todo;
        if queue[k].remoteIp == ip {
          n := n + 1;
          counted := counted + {k};
        }
        todo := todo - {k};
      }
      assert counted == From(queue, ip);
    }

    method Insert(key: Key, entry: Entry) returns (inserted: bool)
      modifies this
      ensures inserted <==> Admits(old(queue), key, entry.remoteIp)
      ensures inserted <==>
                key in old(queue) || (|old(queue)| < 100 && |set k | k in old(queue) && old(queue)[k].remoteIp == entry.remoteIp| < 5)
      ensures queue == if inserted then old(queue)[key := entry] else old(queue)
    {
      var isNew := key !in queue;
      if |queue| >= MAX_PENDING && isNew {
        return false;
      }
      if isNew {
        var n := CountFrom(entry.remoteIp);
        if n >= MAX_PENDING_PER_IP {
          return false;
        }
      }
      queue := queue[key := entry];
      inserted := true;
    }

    method Remove(key: Key)
      modifies this
      ensures queue == old(queue) - {key}
    {
      queue := queue - {key};
    }

    /**
     * Takes the entry out and hands the approval to its connection. The answer is whether that
     * connection still listens.
     */
    method Approve(key: Key, listening: set<ConnId>) returns (delivered: bool, conn: ConnId)
      modifies this
      ensures queue == old(queue) - {key}
      ensures delivered <==> key in old(queue) && old(queue)[key].conn in listening
      ensures delivered ==> conn == old(queue)[key].conn
    {
      delivered, conn := false, 0;
      if key in queue {
        conn := queue[key].conn;
        queue := queue - {key};
        delivered := conn in listening;
      }
    }
  }

  // ----- Bounds over whole runs -----

  datatype Op = Insert(key: Key, entry: Entry) | Remove(key: Key)

  /** Approval and disconnection both just take an entry out. */
  function Apply(q: Queue, op: Op): Queue {
    match op
    case Insert(k, e) => if Admits(q, k, e.remoteIp) then q[k := e] else q
    case Remove(k) => q - {k}
  }

  function Run(ops: seq<Op>): Queue {
    if ops == [] then map[] else Apply(Run(ops[..|ops| - 1]), ops[|ops| - 1])
  }

  ghost predicate PerAddressBound(q: Queue) {
    forall ip :: |From(q, ip)| <= MAX_PENDING_PER_IP
  }

  /** A waiting key shows up again from another address, one that has used up its places. */
  predicate CrowdsIn(q: Queue, op: Op) {
    && op.Insert? && op.key in q && q[op.key].remoteIp != op.entry.remoteIp
    && |From(q, op.entry.remoteIp)| >= MAX_PENDING_PER_IP
  }

  lemma FromInserted(q: Queue, k: Key, e: Entry, ip: Address)
    ensures From(q[k := e], ip) == if e.remoteIp == ip then From(q, ip) + {k} else From(q, ip) - {k}
  {
  }

  lemma RemoveShrinks(q: Queue, k: Key, ip: Address)
    ensures |From(q - {k}, ip)| <= |From(q, ip)|
  {
    assert From(q - {k}, ip) == From(q, ip) - {k};
    if k in From(q, ip) {
      assert |From(q, ip) - {k}| == |From(q, ip)| - 1;
    } else {
      assert From(q, ip) - {k} == From(q, ip);
    }
  }

  lemma InsertBound(q: Queue, k: Key, e: Entry, ip: Address)
    requires Admits(q, k, e.remoteIp)
    ensures |From(q[k := e], ip)| ==
            if e.remoteIp == ip && k !in From(q, ip) then |From(q, ip)| + 1
            else if e.remoteIp != ip && k in From(q, ip) then |From(q, ip)| - 1
            else |From(q, ip)|
  {
    FromInserted(q, k, e, ip);
    if k in From(q, ip) {
      assert From(q, ip) + {k} == From(q, ip);
      assert |From(q, ip) - {k}| == |From(q, ip)| - 1;
    } else {
      assert From(q, ip) - {k} == From(q, ip);
    }
  }

  /** An operation keeps the per-address bound exactly if it is not such a re-presentation. */
  lemma PerAddressBoundExactly(q: Queue, op: Op)
    requires PerAddressBound(q)
    ensures PerAddressBound(Apply(q, op)) <==> !CrowdsIn(q, op)
  {
    match op
    case Remove(k) =>
      forall ip ensures |From(Apply(q, op), ip)| <= MAX_PENDING_PER_IP {
        RemoveShrinks(q, k, ip);
      }
    case Insert(k, e) =>
      if Admits(q, k, e.remoteIp) {
        InsertBound(q, k, e, e.remoteIp);
        if !CrowdsIn(q, op) {
          forall ip ensures |From(Apply(q, op), ip)| <= MAX_PENDING_PER_IP {
            InsertBound(q, k, e, ip);
            assert |From(q, ip)| <= MAX_PENDING_PER_IP;
          }
        } else {
          assert |From(q, e.remoteIp)| == MAX_PENDING_PER_IP;
          assert |From(Apply(q, op), e.remoteIp)| > MAX_PENDING_PER_IP;
        }
      }
  }

  lemma InsertedSize(q: Queue, k: Key, e: Entry)
    ensures |q[k := e]| == if k in q then |q| else |q| + 1
  {
    if k in q {
      assert q[k := e].Keys == q.Keys;
    } else {
      assert q[k := e].Keys == q.Keys + {k};
    }
  }

  lemma RemovedSize(q: Queue, k: Key)
    ensures |q - {k}| <= |q|
  {
    assert (q - {k}).Keys == q.Keys - {k};
    if k in q {
      assert |q.Keys - {k}| == |q.Keys| - 1;
    } else {
      assert q.Keys - {k} == q.Keys;
    }
  }

  /** The queue never exceeds its cap, in any run. */
  lemma {:induction false} QueueBound(ops: seq<Op>)
    ensures |Run(ops)| <= 100
  {
    if ops != [] {
      var q := Run(ops[..|ops| - 1]);
      QueueBound(ops[..|ops| - 1]);
      match ops[|ops| - 1]
      case Insert(k, e) => InsertedSize(q, k, e);
      case Remove(k) => RemovedSize(q, k);
    }
  }

  /** Each key keeps the address it was first presented from. */
  predicate KeysKeepAddress(ops: seq<Op>) {
    forall i, j :: 0 <= i < j < |ops| && ops[i].Insert? && ops[j].Insert? && ops[i].key == ops[j].key ==>
      ops[i].entry.remoteIp == ops[j].entry.remoteIp
  }

  lemma {:induction false} QueuedWasInserted(ops: seq<Op>, k: Key)
    requires k in Run(ops)
    ensures exists i :: 0 <= i < |ops| && ops[i] == Insert(k, Run(ops)[k])
  {
    var init, op := ops[..|ops| - 1], ops[|ops| - 1];
    if op != Insert(k, Run(ops)[k]) {
      QueuedWasInserted(init, k);
      var i :| 0 <= i < |init| && init[i] == Insert(k, Run(init)[k]);
      assert ops[i] == init[i];
    }
  }

  /** At no point of the run does a waiting key show up from an address that is full. */
  ghost predicate NeverCrowdsIn(ops: seq<Op>) {
    forall n :: 0 <= n < |ops| ==> !CrowdsIn(Run(ops[..n]), ops[n])
  }

  ghost predicate BoundedThroughout(ops: seq<Op>) {
    forall n :: 0 <= n <= |ops| ==> PerAddressBound(Run(ops[..n]))
  }

  /** No address ever holds more than its places, exactly if that never happens. */
  lemma {:induction false} PerAddressBoundRun(ops: seq<Op>)
    ensures BoundedThroughout(ops) <==> NeverCrowdsIn(ops)
  {
    hide Run, CrowdsIn, PerAddressBound;
    if ops == [] {
      EmptyIsBounded();
      assert ops[..0] == [];
    } else {
      var init, op := ops[..|ops| - 1], ops[|ops| - 1];
      PerAddressBoundRun(init);
      assert forall n :: 0 <= n <= |init| ==> init[..n] == ops[..n];
      assert init[..|init|] == init && ops[..|ops|] == ops;
      RunExtends(ops);
      if PerAddressBound(Run(init)) {
        PerAddressBoundExactly(Run(init), op);
      }
    }
  }

  lemma RunExtends(ops: seq<Op>)
    requires ops != []
    ensures Run(ops) == Apply(Run(ops[..|ops| - 1]), ops[|ops| - 1])
  {
  }

  lemma EmptyIsBounded()
    ensures PerAddressBound(Run([]))
  {
    forall ip ensures |From(Run([]), ip)| <= MAX_PENDING_PER_IP {
      assert From(Run([]), ip) == {};
    }
  }

  /** In particular, the bound holds as long as keys keep their address. */
  lemma KeptAddressesNeverCrowd(ops: seq<Op>)
    requires KeysKeepAddress(ops)
    ensures NeverCrowdsIn(ops)
  {
    forall n | 0 <= n < |ops| ensures !CrowdsIn(Run(ops[..n]), ops[n]) {
      if ops[n].Insert? && ops[n].key in Run(ops[..n]) {
        QueuedWasInserted(ops[..n], ops[n].key);
        var i :| 0 <= i < n && ops[..n][i] == Insert(ops[n].key, Run(ops[..n])[ops[n].key]);
        assert ops[i] == ops[..n][i];
      }
    }
  }

  // ----- A run that crowds in -----

  function Name(i: nat): Key {
    seq(i, _ => 'k')
  }

  function Fill(n: nat, e: Entry): seq<Op> {
    if n == 0 then [] else Fill(n - 1, e) + [Insert(Name(n), e)]
  }

  /** `n` keys wait, all with the same entry. */
  ghost predicate HoldsOnly(q: Queue, n: nat, e: Entry) {
    && |q| == n && |From(q, e.remoteIp)| == n
    && forall k | k in q :: |k| <= n && q[k] == e
  }

  lemma OneMoreWaits(q: Queue, n: nat, e: Entry)
    requires HoldsOnly(q, n, e) && n < MAX_PENDING_PER_IP
    ensures HoldsOnly(Apply(q, Insert(Name(n + 1), e)), n + 1, e)
  {
    var k := Name(n + 1);
    assert |k| == n + 1 && k !in q;
    InsertBound(q, k, e, e.remoteIp);
    InsertedSize(q, k, e);
    hide From, Name;
  }

  lemma {:induction false} Filled(n: nat, e: Entry)
    requires n <= MAX_PENDING_PER_IP
    ensures HoldsOnly(Run(Fill(n, e)), n, e)
  {
    if n == 0 {
      assert From(Run([]), e.remoteIp) == {};
    } else {
      hide HoldsOnly, Apply;
      Filled(n - 1, e);
      OneMoreWaits(Run(Fill(n - 1, e)), n - 1, e);
      assert Fill(n, e)[..|Fill(n, e)| - 1] == Fill(n - 1, e);
    }
  }

  /** Five keys wait from one address, a sixth from another; then the sixth comes to the first address. */
  lemma CrowdingRun(e: Entry, other: Entry)
    requires e.remoteIp != other.remoteIp
    ensures var ops := Fill(MAX_PENDING_PER_IP, e) + [Insert(Name(6), other)] + [Insert(Name(6), e)];
            |From(Run(ops), e.remoteIp)| == 6 && !BoundedThroughout(ops)
  {
    var fill, k := Fill(MAX_PENDING_PER_IP, e), Name(6);
    var five, ops := fill + [Insert(k, other)], fill + [Insert(k, other)] + [Insert(k, e)];
    var q := Run(fill);
    Filled(MAX_PENDING_PER_IP, e);
    assert five[..|five| - 1] == fill && ops[..|ops| - 1] == five;
    assert k !in q;
    NoneFrom(q, e, other.remoteIp);
    InsertBound(q, k, other, e.remoteIp);
    InsertBound(q[k := other], k, e, e.remoteIp);
    assert ops[..|ops|] == ops && !PerAddressBound(Run(ops));
  }

  lemma NoneFrom(q: Queue, e: Entry, ip: Address)
    requires forall k | k in q :: q[k] == e
    requires e.remoteIp != ip
    ensures From(q, ip) == {}
  {
  }
}
