/** The bytes an agent signs to prove that it holds its key. */
module Challenge {
  import opened Octets

  /** "tenodera-agent-auth-v1" and a zero byte. */
  const DOMAIN: Bytes :=
    [116, 101, 110, 111, 100, 101, 114, 97, 45, 97, 103, 101, 110, 116, 45, 97, 117, 116, 104, 45, 118, 49, 0]

  const NONCE_LEN := 32
  const U16_RANGE := 0x1_0000

  /** `(n as u16).to_be_bytes()`: the length is cut to sixteen bits. */
  function U16(n: nat): Bytes {
    var m := n % U16_RANGE;
    [m / 256, m % 256]
  }

  function Payload(nonce: Bytes, hostname: Bytes, gatewayId: Bytes): Bytes {
    DOMAIN + nonce + U16(|hostname|) + hostname + U16(|gatewayId|) + gatewayId
  }

  method BuildChallengePayload(nonce: Bytes, hostname: Bytes, gatewayId: Bytes) returns (payload: Bytes)
    requires |nonce| == NONCE_LEN
    ensures payload == Payload(nonce, hostname, gatewayId)
  {
    payload := [];
    payload := payload + DOMAIN;
    payload := payload + nonce;
    payload := payload + U16(|hostname|);
    payload := payload + hostname;
    payload := payload + U16(|gatewayId|);
    payload := payload + gatewayId;
  }

  /** The layout on the wire: domain, nonce, and both strings behind two bytes of length, high byte first. */
  lemma PayloadLayout(nonce: Bytes, hostname: Bytes, gatewayId: Bytes)
    requires |nonce| == NONCE_LEN && |hostname| < U16_RANGE && |gatewayId| < U16_RANGE
    ensures var p, n := Payload(nonce, hostname, gatewayId), |hostname|;
            && |p| == 59 + n + |gatewayId| && p[..23] == DOMAIN && p[22] == 0 && p[23..55] == nonce
            && p[55] as int * 256 + p[56] as int == n && p[57..57 + n] == hostname
            && p[57 + n] as int * 256 + p[58 + n] as int == |gatewayId| && p[59 + n..] == gatewayId
  {
    var p, n := Payload(nonce, hostname, gatewayId), |hostname|;
    var a := DOMAIN + nonce;
    assert |a| == 55 && p == a + (U16(n) + (hostname + (U16(|gatewayId|) + gatewayId)));
    assert p[55] == U16(n)[0] && p[56] == U16(n)[1];
    assert p[57 + n] == U16(|gatewayId|)[0] && p[58 + n] == U16(|gatewayId|)[1];
  }

  lemma U16Injective(a: nat, b: nat)
    ensures U16(a) == U16(b) <==> a % U16_RANGE == b % U16_RANGE
  {
    var m, n := a % U16_RANGE, b % U16_RANGE;
    if U16(a) == U16(b) {
      assert m / 256 == U16(a)[0] == U16(b)[0] == n / 256;
      assert m % 256 == U16(a)[1] == U16(b)[1] == n % 256;
      assert m == m / 256 * 256 + m % 256;
      assert n == n / 256 * 256 + n % 256;
    }
  }

  /** Everything after the nonce: where the two strings have to be told apart. */
  function Tail(hostname: Bytes, gatewayId: Bytes): Bytes {
    U16(|hostname|) + hostname + U16(|gatewayId|) + gatewayId
  }

  lemma PayloadSplits(n1: Bytes, h1: Bytes, g1: Bytes, n2: Bytes, h2: Bytes, g2: Bytes)
    requires |n1| == |n2|
    ensures Payload(n1, h1, g1) == Payload(n2, h2, g2) <==> n1 == n2 && Tail(h1, g1) == Tail(h2, g2)
  {
    var p1, p2, d := Payload(n1, h1, g1), Payload(n2, h2, g2), |DOMAIN|;
    assert p1 == DOMAIN + n1 + Tail(h1, g1) && p2 == DOMAIN + n2 + Tail(h2, g2);
    assert p1[d..d + |n1|] == n1 && p2[d..d + |n2|] == n2;
    assert p1[d + |n1|..] == Tail(h1, g1) && p2[d + |n2|..] == Tail(h2, g2);
  }

  /** Equal tails agree on the cut length and on the total length. */
  lemma TailLengths(h1: Bytes, g1: Bytes, h2: Bytes, g2: Bytes)
    requires Tail(h1, g1) == Tail(h2, g2)
    ensures |h1| % U16_RANGE == |h2| % U16_RANGE && |h1| + |g1| == |h2| + |g2|
    ensures |h1| == |h2| ==> h1 == h2 && g1 == g2
  {
    assert Tail(h1, g1)[..2] == U16(|h1|) && Tail(h2, g2)[..2] == U16(|h2|);
    U16Injective(|h1|, |h2|);
    if |h1| == |h2| {
      assert Tail(h1, g1)[2..2 + |h1|] == h1 && Tail(h2, g2)[2..2 + |h2|] == h2;
      assert Tail(h1, g1)[4 + |h1|..] == g1 && Tail(h2, g2)[4 + |h2|..] == g2;
    }
  }

  /**
   * The payload determines nonce, hostname and gateway id as soon as the hostnames, or else the
   * gateway ids, are short enough for their length prefix.
   */
  lemma PayloadInjective(n1: Bytes, h1: Bytes, g1: Bytes, n2: Bytes, h2: Bytes, g2: Bytes)
    requires |n1| == |n2| == NONCE_LEN
    requires (|h1| < U16_RANGE && |h2| < U16_RANGE) || (|g1| < U16_RANGE && |g2| < U16_RANGE)
    ensures Payload(n1, h1, g1) == Payload(n2, h2, g2) <==> n1 == n2 && h1 == h2 && g1 == g2
  {
    PayloadSplits(n1, h1, g1, n2, h2, g2);
    if Tail(h1, g1) == Tail(h2, g2) {
      TailLengths(h1, g1, h2, g2);
      SameResidue(|h1|, |h2|);
      assert |h1| == |h2|;
    }
  }

  lemma SameResidue(a: nat, b: nat)
    requires a % U16_RANGE == b % U16_RANGE
    ensures a == b || a >= b + U16_RANGE || b >= a + U16_RANGE
  {
    assert a == a / U16_RANGE * U16_RANGE + a % U16_RANGE;
    assert b == b / U16_RANGE * U16_RANGE + b % U16_RANGE;
  }

  /** No two different triples within these (exclusive) length bounds have the same payload. */
  ghost predicate InjectiveWithin(hostnames: nat, gatewayIds: nat) {
    forall n1: Bytes, h1: Bytes, g1: Bytes, n2: Bytes, h2: Bytes, g2: Bytes
      | |n1| == |n2| == NONCE_LEN && |h1| < hostnames && |h2| < hostnames && |g1| < gatewayIds && |g2| < gatewayIds
        && Payload(n1, h1, g1) == Payload(n2, h2, g2)
      :: n1 == n2 && h1 == h2 && g1 == g2
  }

  function Zeros(n: nat): Bytes {
    seq(n, _ => 0)
  }

  /** One bound of 65536 is enough, and without any bound of 65536 two triples collide. */
  lemma InjectiveWithinExactly(hostnames: nat, gatewayIds: nat)
    ensures InjectiveWithin(hostnames, gatewayIds) <==> hostnames <= U16_RANGE || gatewayIds <= U16_RANGE
  {
    if hostnames <= U16_RANGE || gatewayIds <= U16_RANGE {
      forall n1: Bytes, h1: Bytes, g1: Bytes, n2: Bytes, h2: Bytes, g2: Bytes
        | |n1| == |n2| == NONCE_LEN && |h1| < hostnames && |h2| < hostnames && |g1| < gatewayIds && |g2| < gatewayIds
          && Payload(n1, h1, g1) == Payload(n2, h2, g2)
        ensures n1 == n2 && h1 == h2 && g1 == g2
      {
        PayloadInjective(n1, h1, g1, n2, h2, g2);
      }
    } else {
      var nonce, long := Zeros(NONCE_LEN), Zeros(U16_RANGE);
      assert U16(U16_RANGE) == [0, 0] == U16(0);
      assert Tail(long, []) == Zeros(U16_RANGE + 4) == Tail([], long);
      PayloadSplits(nonce, long, [], nonce, [], long);
      assert Payload(nonce, long, []) == Payload(nonce, [], long);
      assert |long| == U16_RANGE;
    }
  }

  // ----- Ideal signatures -----

  type Key = string

  /** A signature names the key and the bytes it was made for; anything else never verifies. */
  datatype Signature = Signed(key: Key, payload: Bytes) | Garbage

  predicate VerifySignature(key: Key, signature: Signature, nonce: Bytes, hostname: Bytes, gatewayId: Bytes) {
    signature == Signed(key, Payload(nonce, hostname, gatewayId))
  }

  /** The gateway accepts exactly the signatures an agent made for its own nonce, hostname and id. */
  lemma ChallengeBinding(key: Key, n1: Bytes, h1: Bytes, g1: Bytes, key2: Key, n2: Bytes, h2: Bytes, g2: Bytes)
    requires |n1| == |n2| == NONCE_LEN
    requires (|h1| < U16_RANGE && |h2| < U16_RANGE) || (|g1| < U16_RANGE && |g2| < U16_RANGE)
    ensures VerifySignature(key, Signed(key2, Payload(n2, h2, g2)), n1, h1, g1)
       <==> key == key2 && n1 == n2 && h1 == h2 && g1 == g2
  {
    PayloadInjective(n1, h1, g1, n2, h2, g2);
  }
}
