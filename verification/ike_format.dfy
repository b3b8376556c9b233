/** The IKEv2 wire format as sections 3.1 to 3.3.5 and 3.10 of RFC 7296 lay it out, in the shape
    agents/network-scanner/internal/scanner/ipsec.go writes and reads it. */
module IkeFormat {
  import opened BigEndian
  import opened Wrappers

  const PAYLOAD_NONE: Byte := 0
  const PAYLOAD_SA: Byte := 33
  const PAYLOAD_KE: Byte := 34
  const PAYLOAD_NONCE: Byte := 40
  const PAYLOAD_NOTIFY: Byte := 41
  const EXCHANGE_SA_INIT: Byte := 34
  const VERSION_2: Byte := 0x20
  const FLAG_INITIATOR: Byte := 0x08
  const HEADER_LENGTH := 28
  const ENCR: Byte := 1
  const PRF: Byte := 2
  const INTEG: Byte := 3
  const DH: Byte := 4
  const KEY_LENGTH_TV := 0x800E

  // ----- transforms

  datatype Transform = Transform(last: bool, typ: Byte, id: nat, attributes: Bytes)

  function BuildTransform(t: Transform): Bytes {
    var length := 8 + |t.attributes|;
    [if t.last then 0 else 3, 0, High(length), Low(length), t.typ, 0, High(t.id), Low(t.id)] + t.attributes
  }

  function KeyLengthAttribute(bits: nat): Bytes {
    [High(KEY_LENGTH_TV), Low(KEY_LENGTH_TV), High(bits), Low(bits)]
  }

  function BuildTransforms(ts: seq<Transform>): (r: Bytes)
    ensures 8 * |ts| <= |r|
  {
    if ts == [] then [] else BuildTransform(ts[0]) + BuildTransforms(ts[1..])
  }

  // ----- proposals and SA payload bodies

  datatype Proposal = Proposal(last: Byte, length: nat, number: Byte, protocol: Byte, spi: Bytes, transforms: seq<Transform>)

  ghost predicate Encodable(p: Proposal) {
    |p.spi| < 256 && |p.transforms| < 256 && forall t | t in p.transforms :: t.id < 65536 && 8 + |t.attributes| < 65536
  }

  function BuildProposal(p: Proposal): Bytes
    requires |p.spi| < 256 && |p.transforms| < 256
  {
    [p.last, 0, High(p.length), Low(p.length), p.number, p.protocol, |p.spi|, |p.transforms|]
    + (p.spi + BuildTransforms(p.transforms))
  }

  /** Type and id of the transforms at the front of `tail`, `count` at most. */
  function TransformsIn(tail: Bytes, count: nat): seq<(Byte, nat)> {
    if count == 0 || 8 > |tail| then []
    else
      var length := U16(tail[2], tail[3]);
      if length < 8 || length > |tail| then []
      else [(tail[4], U16(tail[6], tail[7]))] + TransformsIn(tail[length..], count - 1)
  }

  /** What a reader finds in the body of an SA payload: the transforms of its first proposal. */
  function TransformsOf(body: Bytes): seq<(Byte, nat)> {
    if |body| < 8 then []
    else
      var start := 8 + (body[6] as int);
      if start > |body| then [] else TransformsIn(body[start..], body[7])
  }

  function Pairs(ts: seq<Transform>): seq<(Byte, nat)> {
    if ts == [] then [] else [(ts[0].typ, ts[0].id)] + Pairs(ts[1..])
  }

  lemma TransformFields(t: Transform, rest: Bytes)
    requires 8 + |t.attributes| < 65536 && t.id < 65536
    ensures var r := BuildTransform(t) + rest;
            && |r| == 8 + |t.attributes| + |rest|
            && U16(r[2], r[3]) == 8 + |t.attributes| && r[4] == t.typ && U16(r[6], r[7]) == t.id
            && r[8 + |t.attributes|..] == rest
  {
    U16RoundTrip(8 + |t.attributes|);
    U16RoundTrip(t.id);
    hide U16, High, Low;
  }

  lemma {:induction false} TransformsReadBack(ts: seq<Transform>, rest: Bytes)
    requires forall t | t in ts :: t.id < 65536 && 8 + |t.attributes| < 65536
    ensures TransformsIn(BuildTransforms(ts) + rest, |ts|) == Pairs(ts)
  {
    if ts != [] {
      var tail := BuildTransforms(ts[1..]) + rest;
      assert BuildTransforms(ts) + rest == BuildTransform(ts[0]) + tail;
      TransformFields(ts[0], tail);
      TransformsReadBack(ts[1..], rest);
    }
  }

  /** Reading the body of an SA payload gives the transforms its first proposal was built from,
      whatever follows that proposal. */
  lemma ProposalReadBack(p: Proposal, rest: Bytes)
    requires Encodable(p)
    ensures TransformsOf(BuildProposal(p) + rest) == Pairs(p.transforms)
  {
    var body := BuildProposal(p) + rest;
    assert body[6] == |p.spi| && body[7] == |p.transforms|;
    assert body[8 + |p.spi|..] == BuildTransforms(p.transforms) + rest;
    TransformsReadBack(p.transforms, rest);
  }

  // ----- payload chains

  datatype Payload = Payload(typ: Byte, flags: Byte, body: Bytes)

  function FirstType(ps: seq<Payload>, after: Byte): Byte {
    if ps == [] then after else ps[0].typ
  }

  function BuildPayload(p: Payload, next: Byte): Bytes {
    [next, p.flags, High(4 + |p.body|), Low(4 + |p.body|)] + p.body
  }

  /** Each payload names the type of the next one; `after` is what the last one names. */
  function BuildChain(ps: seq<Payload>, after: Byte): Bytes {
    if ps == [] then [] else BuildPayload(ps[0], FirstType(ps[1..], after)) + BuildChain(ps[1..], after)
  }

  /** What a walk over a chain found, the type and bytes it stopped at, and whether the payload there is
      malformed. */
  datatype Chain = Chain(payloads: seq<Payload>, next: Byte, rest: Bytes, malformed: bool)

  function Walk(tail: Bytes, next: Byte): (c: Chain)
    ensures |c.rest| <= |tail|
  {
    if next == PAYLOAD_NONE || 4 > |tail| then Chain([], next, tail, false)
    else
      var length := U16(tail[2], tail[3]);
      if length < 4 || length > |tail| then Chain([], next, tail, true)
      else
        var c := Walk(tail[length..], tail[0]);
        c.(payloads := [Payload(next, tail[1], tail[4..length])] + c.payloads)
  }

  ghost predicate ChainEncodable(ps: seq<Payload>) {
    forall p | p in ps :: p.typ != PAYLOAD_NONE && 4 + |p.body| < 65536
  }

  lemma PayloadFields(p: Payload, next: Byte, rest: Bytes)
    requires 4 + |p.body| < 65536
    ensures var r := BuildPayload(p, next) + rest;
            && |r| == 4 + |p.body| + |rest|
            && U16(r[2], r[3]) == 4 + |p.body| && r[0] == next && r[1] == p.flags
            && r[4..4 + |p.body|] == p.body && r[4 + |p.body|..] == rest
  {
    U16RoundTrip(4 + |p.body|);
    hide U16, High, Low;
  }

  /** A chain that ends in "no next payload" is read back payload by payload, whatever bytes follow. */
  lemma {:induction false} ChainReadBack(ps: seq<Payload>, rest: Bytes)
    requires ChainEncodable(ps)
    ensures Walk(BuildChain(ps, PAYLOAD_NONE) + rest, FirstType(ps, PAYLOAD_NONE)) == Chain(ps, PAYLOAD_NONE, rest, false)
  {
    if ps == [] {
      assert BuildChain(ps, PAYLOAD_NONE) + rest == rest;
    } else {
      var tail := BuildChain(ps[1..], PAYLOAD_NONE) + rest;
      assert BuildChain(ps, PAYLOAD_NONE) + rest == BuildPayload(ps[0], FirstType(ps[1..], PAYLOAD_NONE)) + tail;
      PayloadFields(ps[0], FirstType(ps[1..], PAYLOAD_NONE), tail);
      ChainReadBack(ps[1..], rest);
      hide BuildPayload;
      assert ps == [ps[0]] + ps[1..];
    }
  }

  /** `c` is an account of `tail`: the encoding of the payloads found, then the rest. */
  ghost predicate Accounts(c: Chain, tail: Bytes, next: Byte) {
    && tail == BuildChain(c.payloads, c.next) + c.rest && ChainEncodable(c.payloads)
    && FirstType(c.payloads, c.next) == next
    && (!c.malformed ==> c.next == PAYLOAD_NONE || |c.rest| < 4)
  }

  /** And conversely: what a walk has passed over is exactly the encoding of what it found, and it stops
      only at the end of the chain, at a cut-off header, or at a malformed payload. */
  lemma {:induction false} WalkedBytesAreTheChain(tail: Bytes, next: Byte)
    ensures Accounts(Walk(tail, next), tail, next)
  {
    if next == PAYLOAD_NONE || 4 > |tail| {
      assert tail == [] + tail;
    } else {
      var length := U16(tail[2], tail[3]);
      if length < 4 || length > |tail| {
        assert tail == [] + tail;
      } else {
        WalkedBytesAreTheChain(tail[length..], tail[0]);
        AccountsStep(tail, next, length, Walk(tail[length..], tail[0]));
      }
    }
  }

  lemma AccountsStep(tail: Bytes, next: Byte, length: nat, c: Chain)
    requires next != PAYLOAD_NONE && 4 <= |tail| && length == U16(tail[2], tail[3]) && 4 <= length <= |tail|
    requires Accounts(c, tail[length..], tail[0])
    ensures Accounts(c.(payloads := [Payload(next, tail[1], tail[4..length])] + c.payloads), tail, next)
  {
    var p := Payload(next, tail[1], tail[4..length]);
    PayloadBytes(tail, next, length);
    ChainCons(p, c.payloads, c.next);
    hide BuildPayload, BuildChain, U16;
    var front, middle := BuildPayload(p, tail[0]), BuildChain(c.payloads, c.next);
    assert (front + middle) + c.rest == front + (middle + c.rest);
  }

  lemma ChainCons(p: Payload, ps: seq<Payload>, after: Byte)
    ensures BuildChain([p] + ps, after) == BuildPayload(p, FirstType(ps, after)) + BuildChain(ps, after)
  {
    assert ([p] + ps)[1..] == ps;
  }

  lemma PayloadBytes(tail: Bytes, next: Byte, length: nat)
    requires 4 <= |tail| && length == U16(tail[2], tail[3]) && 4 <= length <= |tail|
    ensures BuildPayload(Payload(next, tail[1], tail[4..length]), tail[0]) + tail[length..] == tail
  {
    U16Bytes(tail[2], tail[3]);
    hide U16, High, Low;
  }

  // ----- the message header

  /** Initiator SPI, responder SPI, first payload type, version, exchange, flags, then message id and
      length as eight bytes. */
  function BuildHeader(initSpi: Bytes, respSpi: Bytes, first: Byte, version: Byte, exchange: Byte, flags: Byte, tail: Bytes): Bytes {
    initSpi + (respSpi + ([first, version, exchange, flags] + tail))
  }

  // ----- notify payload bodies

  /** Section 3.10 of RFC 7296: protocol id, SPI size, message type, SPI, notification data. */
  function BuildNotify(protocol: Byte, messageType: nat, spi: Bytes, data: Bytes): Bytes
    requires |spi| < 256
  {
    [protocol, |spi|, High(messageType), Low(messageType)] + (spi + data)
  }
}
