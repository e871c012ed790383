/** Bootstrap tokens: created by an administrator, presented by agents, counted on use. */
module Tokens {
  import opened Wrappers
  import opened Octets
  import opened Challenge

  type TokenId = string
  type Hostname = Bytes
  type Time = nat

  /** An ideal SHA-256: different values have different digests. */
  datatype Digest = Sha256(value: string)

  const U32_RANGE := 0x1_0000_0000

  datatype Token = Token(
    digest: Digest,
    singleUse: bool,
    useCount: nat,
    maxUses: Option<nat>,
    expiresAt: Time,
    boundHostname: Option<Hostname>,
    reEnroll: bool)
  {
    predicate IsExpired(now: Time) {
      now > expiresAt
    }

    predicate IsExhausted() {
      (singleUse && useCount > 0) || (maxUses.Some? && useCount >= maxUses.value)
    }

    predicate IsValidFor(hostname: Hostname, now: Time) {
      !IsExpired(now) && !IsExhausted() && (boundHostname.Some? ==> boundHostname.value == hostname)
    }

    /** One more use; the counter is a 32-bit word. */
    function Used(): Token {
      this.(useCount := (useCount + 1) % U32_RANGE)
    }

    /** How often the token may be accepted in all; None is without limit. */
    function Cap(): Option<nat> {
      if singleUse then Some(if maxUses.Some? && maxUses.value == 0 then 0 else 1) else maxUses
    }
  }

  type Registry = map<TokenId, Token>

  ghost predicate DistinctDigests(reg: Registry) {
    forall i, j :: i in reg && j in reg && reg[i].digest == reg[j].digest ==> i == j
  }

  datatype Answer = Answer(reg: Registry, reEnroll: Option<bool>, used: Option<TokenId>)

  ghost function Validate(reg: Registry, value: string, hostname: Hostname, now: Time): Answer {
    if id :| id in reg && reg[id].digest == Sha256(value) then
      if reg[id].IsValidFor(hostname, now) then
        var t := reg[id].Used();
        Answer(if t.IsExhausted() then reg - {id} else reg[id := t], Some(t.reEnroll), Some(id))
      else Answer(reg, None, None)
    else Answer(reg, None, None)
  }

  ghost function Swept(reg: Registry, now: Time): Registry {
    map id | id in reg && !reg[id].IsExpired(now) :: reg[id]
  }

  class BootstrapRegistry {
    var tokens: Registry

    ghost predicate Valid()
      reads this
    {
      DistinctDigests(tokens)
    }

    constructor ()
      ensures Valid() && tokens == map[]
    {
      tokens := map[];
    }

    /** `id` and `value` come from the random number generator. */
    method Create(id: TokenId, value: string, ttl: Time, singleUse: bool, maxUses: Option<nat>,
                  boundHostname: Option<Hostname>, reEnroll: bool, now: Time)
      requires Valid()
      requires forall i | i in tokens :: i != id && tokens[i].digest != Sha256(value)
      modifies this
      ensures Valid()
      ensures tokens == old(tokens)[id := Token(Sha256(value), singleUse, 0, maxUses, now + ttl, boundHostname, reEnroll)]
    {
      tokens := tokens[id := Token(Sha256(value), singleUse, 0, maxUses, now + ttl, boundHostname, reEnroll)];
    }

    method ValidateAndConsume(value: string, hostname: Hostname, now: Time)
      returns (reEnroll: Option<bool>, ghost used: Option<TokenId>)
      requires Valid()
      modifies this
      ensures Valid()
      ensures Answer(tokens, reEnroll, used) == Validate(old(tokens), value, hostname, now)
    {
      var todo := tokens.Keys;
      while todo != {}
        invariant todo <= tokens.Keys && tokens == old(tokens)
        invariant forall i | i in tokens && tokens[i].digest == Sha256(value) :: i in todo
        decreases todo
      {
        var id :| id in todo;
        if tokens[id].digest == Sha256(value) {
          assert forall i | i in tokens && tokens[i].digest == Sha256(value) :: i == id;
          if !tokens[id].IsValidFor(hostname, now) {
            return None, None;
          }
          var entry := tokens[id].Used();
          tokens := tokens[id := entry];
          if entry.IsExhausted() {
            tokens := tokens - {id};
            assert tokens == old(tokens) - {id};
          }
          return Some(entry.reEnroll), Some(id);
        }
        todo := todo - {id};
      }
      return None, None;
    }

    method Revoke(id: TokenId) returns (found: bool)
      requires Valid()
      modifies this
      ensures Valid() && tokens == old(tokens) - {id} && found == (id in old(tokens))
    {
      found := id in tokens;
      tokens := tokens - {id};
    }

    method Cleanup(now: Time)
      requires Valid()
      modifies this
      ensures Valid() && tokens == Swept(old(tokens), now)
      ensures forall id :: id in tokens <==> id in old(tokens) && now <= old(tokens)[id].expiresAt
      ensures forall id | id in tokens :: tokens[id] == old(tokens)[id]
    {
      tokens := map id | id in tokens && !tokens[id].IsExpired(now) :: tokens[id];
    }
  }

  // ----- Whole runs, with the books kept beside the registry -----

  /** `issued`: every token as created. `uses`: times it was accepted. `revoked`: ids withdrawn. */
  datatype Book = Book(reg: Registry, issued: Registry, uses: map<TokenId, nat>, revoked: set<TokenId>)

  const EMPTY := Book(map[], map[], map[], {})

  datatype Op =
    | Create(id: TokenId, token: Token)
    | Present(value: string, hostname: Hostname, now: Time)
    | Revoke(id: TokenId)
    | Sweep(now: Time)

  /** A new token has a fresh id and value, and its limit fits the 32-bit field it is stored in. */
  ghost predicate Creatable(b: Book, id: TokenId, t: Token) {
    && id !in b.issued && (forall i | i in b.issued :: b.issued[i].digest != t.digest)
    && t.useCount == 0 && (t.maxUses.Some? ==> t.maxUses.value < U32_RANGE)
  }

  ghost predicate Allowed(b: Book, op: Op) {
    op.Create? ==> Creatable(b, op.id, op.token)
  }

  ghost function Accepted(b: Book, a: Answer): Book {
    b.(reg := a.reg,
       uses := if a.used.Some? && a.used.value in b.uses then b.uses[a.used.value := b.uses[a.used.value] + 1] else b.uses)
  }

  ghost function Apply(b: Book, op: Op): Book {
    match op
    case Create(id, t) => b.(reg := b.reg[id := t], issued := b.issued[id := t], uses := b.uses[id := 0])
    case Present(value, hostname, now) => Accepted(b, Validate(b.reg, value, hostname, now))
    case Revoke(id) => b.(reg := b.reg - {id}, revoked := if id in b.issued then b.revoked + {id} else b.revoked)
    case Sweep(now) => b.(reg := Swept(b.reg, now))
  }

  predicate Below(n: nat, cap: Option<nat>) {
    cap.Some? ==> n < cap.value
  }

  predicate Within(n: nat, cap: Option<nat>) {
    cap.Some? ==> n <= cap.value
  }

  /** The books know every token, and nothing but issued tokens. */
  ghost predicate Kept(b: Book) {
    b.uses.Keys == b.issued.Keys && b.reg.Keys <= b.issued.Keys && b.revoked <= b.issued.Keys
  }

  /**
   * What every run keeps: the registry holds exactly the issued tokens that are not revoked, not
   * used up and not swept after expiry, each with the number of its acceptances.
   */
  ghost predicate Balanced(b: Book, now: Time) {
    && Kept(b) && DistinctDigests(b.issued)
    && forall id | id in b.issued :: Accounted(Entry(b.reg, id), b.issued[id], b.uses[id], id in b.revoked, now)
  }

  function Entry(reg: Registry, id: TokenId): Option<Token> {
    if id in reg then Some(reg[id]) else None
  }

  /** What the registry holds for an issued token agrees with what the books say about it. */
  predicate Accounted(entry: Option<Token>, issued: Token, uses: nat, revoked: bool, now: Time) {
    && SoundIssue(issued) && Within(uses, issued.Cap())
    && (entry.Some? ==> !revoked && Live(entry.value, issued, uses))
    && (entry.None? ==> revoked || issued.IsExpired(now) || !Below(uses, issued.Cap()))
  }

  /** `t` is the issued token after `uses` acceptances, and not used up unless it was born so. */
  predicate Live(t: Token, issued: Token, uses: nat) {
    && t == issued.(useCount := uses % U32_RANGE)
    && (Below(uses, issued.Cap()) || uses == 0)
  }

  predicate SoundIssue(t: Token) {
    t.useCount == 0 && (t.maxUses.Some? ==> t.maxUses.value < U32_RANGE)
  }

  /** The exact condition, in terms of the books alone, for a value to be accepted. */
  ghost predicate Redeemable(b: Book, id: TokenId, value: string, hostname: Hostname, now: Time) {
    && id in b.issued && id in b.uses && b.issued[id].digest == Sha256(value)
    && id !in b.revoked
    && now <= b.issued[id].expiresAt
    && Below(b.uses[id], b.issued[id].Cap())
    && (b.issued[id].boundHostname.Some? ==> b.issued[id].boundHostname.value == hostname)
  }

  lemma ExhaustionIsCap(t: Token, uses: nat)
    requires SoundIssue(t) && Within(uses, t.Cap())
    ensures t.(useCount := uses % U32_RANGE).IsExhausted() <==> !Below(uses, t.Cap())
  {
  }

  lemma UsedCounts(t: Token, uses: nat)
    ensures t.(useCount := uses % U32_RANGE).Used() == t.(useCount := (uses + 1) % U32_RANGE)
  {
  }

  /** With distinct digests there is only one token a value can name. */
  lemma ValidatePicks(reg: Registry, id: TokenId, value: string, hostname: Hostname, now: Time)
    requires DistinctDigests(reg) && id in reg && reg[id].digest == Sha256(value)
    ensures Validate(reg, value, hostname, now) ==
            if reg[id].IsValidFor(hostname, now) then
              var t := reg[id].Used();
              Answer(if t.IsExhausted() then reg - {id} else reg[id := t], Some(t.reEnroll), Some(id))
            else Answer(reg, None, None)
  {
  }

  lemma BalancedDigests(b: Book, now: Time)
    requires Balanced(b, now)
    ensures DistinctDigests(b.reg)
    ensures forall id | id in b.reg :: b.reg[id].digest == b.issued[id].digest
  {
    forall id | id in b.reg ensures b.reg[id].digest == b.issued[id].digest {
      assert Accounted(Entry(b.reg, id), b.issued[id], b.uses[id], id in b.revoked, now);
    }
    forall i, j | i in b.reg && j in b.reg && b.reg[i].digest == b.reg[j].digest ensures i == j {
      assert b.issued[i].digest == b.issued[j].digest;
    }
  }

  lemma ValidInRegistry(b: Book, id: TokenId, value: string, hostname: Hostname, earlier: Time, now: Time)
    requires Balanced(b, earlier) && earlier <= now && id in b.reg && b.reg[id].digest == Sha256(value)
    ensures b.reg[id].IsValidFor(hostname, now) <==> Redeemable(b, id, value, hostname, now)
  {
    assert Accounted(Entry(b.reg, id), b.issued[id], b.uses[id], id in b.revoked, earlier);
    ExhaustionIsCap(b.issued[id], b.uses[id]);
  }

  /** A value is accepted exactly when some issued token with that value is redeemable. */
  lemma AcceptedExactly(b: Book, value: string, hostname: Hostname, earlier: Time, now: Time)
    requires Balanced(b, earlier) && earlier <= now
    ensures var a := Validate(b.reg, value, hostname, now);
            && (a.reEnroll.Some? <==> a.used.Some?)
            && (a.used.Some? <==> exists id :: Redeemable(b, id, value, hostname, now))
            && (a.used.Some? ==> Redeemable(b, a.used.value, value, hostname, now)
                                 && a.used.value in b.reg
                                 && a.reEnroll == Some(b.issued[a.used.value].reEnroll))
  {
    BalancedDigests(b, earlier);
    if id :| id in b.reg && b.reg[id].digest == Sha256(value) {
      ValidatePicks(b.reg, id, value, hostname, now);
      ValidInRegistry(b, id, value, hostname, earlier, now);
    }
    if id :| Redeemable(b, id, value, hostname, now) {
      assert Accounted(Entry(b.reg, id), b.issued[id], b.uses[id], id in b.revoked, earlier);
      ValidatePicks(b.reg, id, value, hostname, now);
      ValidInRegistry(b, id, value, hostname, earlier, now);
    }
  }

  lemma PresentKeepsBalance(b: Book, value: string, hostname: Hostname, earlier: Time, now: Time)
    requires Balanced(b, earlier) && earlier <= now
    ensures Balanced(Accepted(b, Validate(b.reg, value, hostname, now)), now)
  {
    AcceptedExactly(b, value, hostname, earlier, now);
    var a := Validate(b.reg, value, hostname, now);
    if a.used.Some? {
      hide Balanced, DistinctDigests;
      CountedKeepsBalance(b, a.used.value, earlier, now);
    } else {
      BalancedLater(b, earlier, now);
      hide Balanced;
    }
  }

  lemma AccountedLater(entry: Option<Token>, issued: Token, uses: nat, revoked: bool, earlier: Time, now: Time)
    requires Accounted(entry, issued, uses, revoked, earlier) && earlier <= now
    ensures Accounted(entry, issued, uses, revoked, now)
  {
  }

  /** Using a live token once more, and dropping it if that was its last use, stays on the books. */
  lemma AccountedUse(t: Token, issued: Token, uses: nat, revoked: bool, now: Time)
    requires Accounted(Some(t), issued, uses, revoked, now) && Below(uses, issued.Cap())
    ensures Accounted(if t.Used().IsExhausted() then None else Some(t.Used()), issued, uses + 1, revoked, now)
  {
    UsedCounts(issued, uses);
    ExhaustionIsCap(issued, uses + 1);
  }

  lemma CountedKeepsBalance(b: Book, id: TokenId, earlier: Time, now: Time)
    requires Balanced(b, earlier) && earlier <= now
    requires id in b.reg && Below(b.uses[id], b.issued[id].Cap())
    ensures var t := b.reg[id].Used();
            Balanced(b.(reg := if t.IsExhausted() then b.reg - {id} else b.reg[id := t], uses := b.uses[id := b.uses[id] + 1]), now)
  {
    hide DistinctDigests, Accounted, U32_RANGE, Below;
    var t := b.reg[id].Used();
    var reg' := if t.IsExhausted() then b.reg - {id} else b.reg[id := t];
    var uses' := b.uses[id := b.uses[id] + 1];
    forall i | i in b.issued ensures Accounted(Entry(reg', i), b.issued[i], uses'[i], i in b.revoked, now) {
      AccountedLater(Entry(b.reg, i), b.issued[i], b.uses[i], i in b.revoked, earlier, now);
      if i == id {
        AccountedUse(b.reg[id], b.issued[id], b.uses[id], id in b.revoked, now);
      }
    }
  }

  /** Time passing only makes more tokens expire. */
  lemma BalancedLater(b: Book, earlier: Time, now: Time)
    requires Balanced(b, earlier) && earlier <= now
    ensures Balanced(b, now)
  {
    hide DistinctDigests, Accounted;
    forall id | id in b.issued ensures Accounted(Entry(b.reg, id), b.issued[id], b.uses[id], id in b.revoked, now) {
      AccountedLater(Entry(b.reg, id), b.issued[id], b.uses[id], id in b.revoked, earlier, now);
    }
  }

  lemma SweepKeepsBalance(b: Book, now: Time)
    requires Balanced(b, now)
    ensures Balanced(b.(reg := Swept(b.reg, now)), now)
  {
    hide DistinctDigests;
    forall id | id in b.issued
      ensures Accounted(Entry(Swept(b.reg, now), id), b.issued[id], b.uses[id], id in b.revoked, now)
    {
      assert Accounted(Entry(b.reg, id), b.issued[id], b.uses[id], id in b.revoked, now);
    }
  }

  lemma RevokeKeepsBalance(b: Book, id: TokenId, now: Time)
    requires Balanced(b, now)
    ensures Balanced(Apply(b, Revoke(id)), now)
  {
    hide DistinctDigests;
    var b' := Apply(b, Revoke(id));
    forall i | i in b.issued ensures Accounted(Entry(b'.reg, i), b.issued[i], b.uses[i], i in b'.revoked, now) {
      assert Accounted(Entry(b.reg, i), b.issued[i], b.uses[i], i in b.revoked, now);
    }
  }

  lemma CreatedIsAccounted(t: Token, now: Time)
    requires SoundIssue(t)
    ensures Accounted(Some(t), t, 0, false, now)
  {
    assert t == t.(useCount := 0 % U32_RANGE);
  }

  lemma CreateKeepsDigests(issued: Registry, id: TokenId, t: Token)
    requires DistinctDigests(issued) && forall i | i in issued :: issued[i].digest != t.digest
    ensures DistinctDigests(issued[id := t])
  {
  }

  lemma CreateKeepsEntry(b: Book, id: TokenId, t: Token, now: Time, i: TokenId)
    requires Balanced(b, now) && Creatable(b, id, t) && (i == id || i in b.issued)
    ensures Accounted(Entry(b.reg[id := t], i), b.issued[id := t][i], b.uses[id := 0][i], i in b.revoked, now)
  {
    if i == id {
      CreatedIsAccounted(t, now);
      assert id !in b.revoked;
    } else {
      assert Accounted(Entry(b.reg, i), b.issued[i], b.uses[i], i in b.revoked, now);
      hide Accounted;
      assert Entry(b.reg[id := t], i) == Entry(b.reg, i);
    }
  }

  lemma CreateKeepsBooks(b: Book, id: TokenId, t: Token)
    requires Kept(b)
    ensures Kept(Apply(b, Create(id, t)))
  {
  }

  lemma CreateKeepsBalance(b: Book, id: TokenId, t: Token, now: Time)
    requires Balanced(b, now) && Creatable(b, id, t)
    ensures Balanced(Apply(b, Create(id, t)), now)
  {
    CreateKeepsDigests(b.issued, id, t);
    CreateKeepsBooks(b, id, t);
    hide DistinctDigests, Accounted, Creatable, Entry, Kept;
    var b' := Apply(b, Create(id, t));
    forall i | i in b'.issued ensures Accounted(Entry(b'.reg, i), b'.issued[i], b'.uses[i], i in b'.revoked, now) {
      CreateKeepsEntry(b, id, t, now, i);
    }
  }

  lemma ApplyKeepsBalance(b: Book, op: Op, earlier: Time, now: Time)
    requires Balanced(b, earlier) && earlier <= now && Allowed(b, op)
    requires op.Present? || op.Sweep? ==> op.now == now
    ensures Balanced(Apply(b, op), now)
  {
    BalancedLater(b, earlier, now);
    hide Balanced, Validate, Accepted;
    match op {
      case Create(id, t) => CreateKeepsBalance(b, id, t, now);
      case Present(value, hostname, _) => PresentKeepsBalance(b, value, hostname, earlier, now);
      case Revoke(id) => RevokeKeepsBalance(b, id, now);
      case Sweep(_) => SweepKeepsBalance(b, now);
    }
  }

  datatype Stamped = Stamped(op: Op, now: Time)

  ghost function Run(ops: seq<Stamped>): Book {
    if ops == [] then EMPTY else Apply(Run(ops[..|ops| - 1]), ops[|ops| - 1].op)
  }

  ghost predicate Lawful(ops: seq<Stamped>) {
    ops == [] ||
    var init, last := ops[..|ops| - 1], ops[|ops| - 1];
    && Lawful(init) && Allowed(Run(init), last.op)
    && (init != [] ==> init[|init| - 1].now <= last.now)
    && (last.op.Present? || last.op.Sweep? ==> last.op.now == last.now)
  }

  /** In any run a token is accepted at most as often as it was issued for. */
  lemma {:induction false} RunIsBalanced(ops: seq<Stamped>)
    requires Lawful(ops)
    ensures Balanced(Run(ops), if ops == [] then 0 else ops[|ops| - 1].now)
  {
    if ops != [] {
      var init, last := ops[..|ops| - 1], ops[|ops| - 1];
      RunIsBalanced(init);
      ApplyKeepsBalance(Run(init), last.op, if init == [] then 0 else init[|init| - 1].now, last.now);
    }
  }

  /** How many presentations in the run were accepted with token `id`. */
  ghost function Acceptances(ops: seq<Stamped>, id: TokenId): nat {
    if ops == [] then 0
    else
      var init, op := ops[..|ops| - 1], ops[|ops| - 1].op;
      Acceptances(init, id)
      + if op.Present? && Validate(Run(init).reg, op.value, op.hostname, op.now).used == Some(id) then 1 else 0
  }

  /** The books count what really happened, and so the cap bounds what really happens. */
  lemma {:induction false} TokenConservation(ops: seq<Stamped>, id: TokenId)
    requires Lawful(ops)
    ensures id in Run(ops).issued ==>
              && id in Run(ops).uses && Acceptances(ops, id) == Run(ops).uses[id]
              && Within(Acceptances(ops, id), Run(ops).issued[id].Cap())
    ensures id !in Run(ops).issued ==> Acceptances(ops, id) == 0
  {
    RunIsBalanced(ops);
    if ops != [] {
      var init, last := ops[..|ops| - 1], ops[|ops| - 1];
      TokenConservation(init, id);
      RunIsBalanced(init);
      if id in Run(ops).issued {
        assert Accounted(Entry(Run(ops).reg, id), Run(ops).issued[id], Run(ops).uses[id], id in Run(ops).revoked, last.now);
      }
      hide Validate, Balanced, DistinctDigests, Lawful;
    }
  }
}
