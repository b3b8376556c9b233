/** Building the IKE_SA_INIT request, and the round trip from an encoded response back to the names the
    scanner reports (agents/network-scanner/internal/scanner/ipsec.go). */
module IkeExchange {
  import opened BigEndian
  import opened Wrappers
  import opened IkeFormat
  import opened IkeScanner

  // ----- the request

  const KE_PUBLIC_BYTES := 256
  const NONCE_BYTES := 32
  const DEFAULT_DH_GROUP := 14

  /** The transforms offered, modern and legacy ones. */
  const OFFERED: seq<Transform> := [
    Transform(false, ENCR, 12, KeyLengthAttribute(256)),
    Transform(false, ENCR, 12, KeyLengthAttribute(128)),
    Transform(false, ENCR, 3, []),
    Transform(false, PRF, 5, []),
    Transform(false, PRF, 2, []),
    Transform(false, INTEG, 12, []),
    Transform(false, INTEG, 2, []),
    Transform(false, DH, 14, []),
    Transform(true, DH, 2, [])]

  ghost function OfferedProposal(): Proposal {
    Proposal(0, 8 + |BuildTransforms(OFFERED)|, 1, 1, [], OFFERED)
  }

  ghost function RequestPayloads(kePublic: Bytes, nonce: Bytes): seq<Payload> {
    [Payload(PAYLOAD_SA, 0, BuildProposal(OfferedProposal())),
     Payload(PAYLOAD_KE, 0, [High(DEFAULT_DH_GROUP), Low(DEFAULT_DH_GROUP), 0, 0] + kePublic),
     Payload(PAYLOAD_NONCE, 0, nonce)]
  }

  lemma BuildTransformsSnoc(ts: seq<Transform>, t: Transform)
    ensures BuildTransforms(ts + [t]) == BuildTransforms(ts) + BuildTransform(t)
    decreases |ts|
  {
    hide BuildTransform;
    if ts == [] {
      assert [] + [t] == [t] && [t][1..] == [];
    } else {
      assert (ts + [t])[1..] == ts[1..] + [t];
      BuildTransformsSnoc(ts[1..], t);
      assert BuildTransform(ts[0]) + (BuildTransforms(ts[1..]) + BuildTransform(t)) == BuildTransforms(ts) + BuildTransform(t);
    }
  }

  method JoinTransforms(offered: seq<Transform>) returns (transformBytes: Bytes)
    ensures transformBytes == BuildTransforms(offered)
  {
    hide BuildTransform;
    transformBytes := [];
    for i := 0 to |offered|
      invariant transformBytes == BuildTransforms(offered[..i])
    {
      BuildTransformsSnoc(offered[..i], offered[i]);
      assert offered[..i] + [offered[i]] == offered[..i + 1];
      transformBytes := transformBytes + BuildTransform(offered[i]);
    }
    assert offered[..|offered|] == offered;
  }

  method BuildRequestHeader(initSPI: Bytes, bodyLength: nat) returns (header: array<Byte>)
    requires |initSPI| == 8
    ensures fresh(header)
    ensures header[..] == BuildHeader(initSPI, seq(8, _ => 0), PAYLOAD_SA, VERSION_2, EXCHANGE_SA_INIT, FLAG_INITIATOR, [0, 0, 0, 0] + U32Bytes(HEADER_LENGTH + bodyLength))
  {
    header := new Byte[HEADER_LENGTH](_ => 0);
    forall i | 0 <= i < 8 {
      header[i] := initSPI[i];
    }
    header[16] := PAYLOAD_SA;
    header[17] := VERSION_2;
    header[18] := EXCHANGE_SA_INIT;
    header[19] := FLAG_INITIATOR;
    var length := U32Bytes(HEADER_LENGTH + bodyLength);
    forall i | 0 <= i < 4 {
      header[24 + i] := length[i];
    }
    hide U32Bytes;
  }

  method BuildOfferedProposal() returns (proposal: Bytes)
    ensures proposal == BuildProposal(OfferedProposal())
  {
    var transformBytes := JoinTransforms(OFFERED);
    hide High, Low, BuildTransforms;
    assert [] + transformBytes == transformBytes;
    proposal := [0, 0, High(8 + |transformBytes|), Low(8 + |transformBytes|), 1, 1, 0, |OFFERED|] + transformBytes;
  }

  method BuildIKESAInitRequest(kePublic: Bytes, nonce: Bytes, initSPI: Bytes) returns (request: Bytes)
    requires |kePublic| == KE_PUBLIC_BYTES && |nonce| == NONCE_BYTES && |initSPI| == 8
    ensures RequestIs(request, RequestPayloads(kePublic, nonce), initSPI)
  {
    hide High, Low, BuildTransforms, BuildHeader, OfferedProposal, BuildProposal;
    var proposal := BuildOfferedProposal();
    var keBody: Bytes := [High(DEFAULT_DH_GROUP), Low(DEFAULT_DH_GROUP), 0, 0] + kePublic;
    var saPayload: Bytes := [PAYLOAD_KE, 0, High(4 + |proposal|), Low(4 + |proposal|)] + proposal;
    var kePayload: Bytes := [PAYLOAD_NONCE, 0, High(4 + |keBody|), Low(4 + |keBody|)] + keBody;
    var noncePayload: Bytes := [PAYLOAD_NONE, 0, High(4 + |nonce|), Low(4 + |nonce|)] + nonce;
    ThreePayloads(proposal, keBody, nonce);
    var body := saPayload + kePayload + noncePayload;
    assert RequestPayloads(kePublic, nonce) == [Payload(PAYLOAD_SA, 0, proposal), Payload(PAYLOAD_KE, 0, keBody), Payload(PAYLOAD_NONCE, 0, nonce)];
    assert body == BuildChain(RequestPayloads(kePublic, nonce), PAYLOAD_NONE);
    var header := BuildRequestHeader(initSPI, |body|);
    hide BuildChain, BuildPayload, RequestPayloads;
    request := header[..] + body;
  }

  lemma ThreePayloads(proposal: Bytes, keBody: Bytes, nonce: Bytes)
    ensures var ps := [Payload(PAYLOAD_SA, 0, proposal), Payload(PAYLOAD_KE, 0, keBody), Payload(PAYLOAD_NONCE, 0, nonce)];
            BuildChain(ps, PAYLOAD_NONE) ==
            BuildPayload(ps[0], PAYLOAD_KE) + BuildPayload(ps[1], PAYLOAD_NONCE) + BuildPayload(ps[2], PAYLOAD_NONE)
  {
    var sa, ke, n := Payload(PAYLOAD_SA, 0, proposal), Payload(PAYLOAD_KE, 0, keBody), Payload(PAYLOAD_NONCE, 0, nonce);
    ChainCons(n, [], PAYLOAD_NONE);
    ChainCons(ke, [n], PAYLOAD_NONE);
    ChainCons(sa, [ke, n], PAYLOAD_NONE);
    assert [sa] + [ke, n] == [sa, ke, n] && [ke] + [n] == [ke, n] && [n] + [] == [n];
    hide BuildPayload;
  }

  ghost predicate RequestIs(request: Bytes, ps: seq<Payload>, initSPI: Bytes) {
    var body := BuildChain(ps, PAYLOAD_NONE);
    request == BuildHeader(initSPI, seq(8, _ => 0), FirstType(ps, PAYLOAD_NONE), VERSION_2, EXCHANGE_SA_INIT, FLAG_INITIATOR,
                           [0, 0, 0, 0] + U32Bytes(HEADER_LENGTH + |body|)) + body
  }

  lemma HeaderFields(initSpi: Bytes, respSpi: Bytes, first: Byte, version: Byte, exchange: Byte, flags: Byte, tail: Bytes, body: Bytes)
    requires |initSpi| == 8 && |respSpi| == 8 && |tail| == 8
    ensures var data := BuildHeader(initSpi, respSpi, first, version, exchange, flags, tail) + body;
            && |data| == HEADER_LENGTH + |body| && data[..8] == initSpi
            && data[16] == first && data[17] == version && data[18] == exchange && data[19] == flags
            && data[24..28] == tail[4..] && data[28..] == body
  {
  }

  lemma {:induction false} TransformsLength(ts: seq<Transform>)
    ensures |BuildTransforms(ts)| == 8 * |ts| + AttributeBytes(ts)
  {
    if ts != [] {
      TransformsLength(ts[1..]);
    }
  }

  ghost function AttributeBytes(ts: seq<Transform>): nat {
    if ts == [] then 0 else |ts[0].attributes| + AttributeBytes(ts[1..])
  }

  lemma NoAttributes(ts: seq<Transform>)
    requires forall t | t in ts :: t.attributes == []
    ensures AttributeBytes(ts) == 0
  {
  }

  lemma OfferedLength()
    ensures |BuildTransforms(OFFERED)| == 80
  {
    TransformsLength(OFFERED);
    hide BuildTransforms;
    var tail := OFFERED[2..];
    assert OFFERED[1..][1..] == tail;
    NoAttributes(tail);
  }

  lemma OfferedFits()
    ensures Encodable(OfferedProposal()) && |BuildProposal(OfferedProposal())| == 88 && OfferedProposal().transforms == OFFERED
  {
    OfferedLength();
    hide High, Low, BuildTransforms;
  }

  lemma OneSa(sa: Payload, others: seq<Payload>)
    requires sa.typ == PAYLOAD_SA && forall p | p in others :: p.typ != PAYLOAD_SA
    ensures SaTransforms([sa] + others) == TransformsOf(sa.body)
    decreases |others|
  {
    hide TransformsOf;
    if others == [] {
      assert [sa] + [] == [sa];
      assert SaTransforms([]) == [];
    } else {
      var front := others[..|others| - 1];
      OneSa(sa, front);
      assert ([sa] + others)[..|others|] == [sa] + front;
    }
  }

  lemma RequestHeaderFields(initSPI: Bytes, first: Byte, body: Bytes)
    requires |initSPI| == 8 && |body| == 392
    ensures var request := BuildHeader(initSPI, seq(8, _ => 0), first, VERSION_2, EXCHANGE_SA_INIT, FLAG_INITIATOR,
                                       [0, 0, 0, 0] + U32Bytes(HEADER_LENGTH + |body|)) + body;
            && |request| == 420 && request[24..28] == U32Bytes(420) && Payloads(request) == Walk(body, first)
            && HeaderError(request, initSPI) == Some(NotAResponse)
  {
    HeaderFields(initSPI, seq(8, _ => 0), first, VERSION_2, EXCHANGE_SA_INIT, FLAG_INITIATOR, [0, 0, 0, 0] + U32Bytes(420), body);
    hide Walk, BuildHeader, U32Bytes;
  }

  /** The request is a chain of SA, KE and Nonce that any reader of the format takes apart without rest, its
      proposal offers the nine transforms, its length field is its length, and the scanner would not mistake
      it for a response. */
  lemma RequestIsWellFormed(kePublic: Bytes, nonce: Bytes, initSPI: Bytes, request: Bytes)
    requires |kePublic| == KE_PUBLIC_BYTES && |nonce| == NONCE_BYTES && |initSPI| == 8
    requires RequestIs(request, RequestPayloads(kePublic, nonce), initSPI)
    ensures |request| == 420 && U32(request[24..28]) == |request|
    ensures Payloads(request) == Chain(RequestPayloads(kePublic, nonce), PAYLOAD_NONE, [], false)
    ensures SaTransforms(Payloads(request).payloads) == Pairs(OFFERED)
    ensures HeaderError(request, initSPI) == Some(NotAResponse)
  {
    var ps := RequestPayloads(kePublic, nonce);
    var body := BuildChain(ps, PAYLOAD_NONE);
    RequestReadBack(kePublic, nonce);
    hide *;
    U32Of420();
    RequestHeaderFields(initSPI, FirstType(ps, PAYLOAD_NONE), body);
    RequestIsMeans(request, ps, initSPI);
  }

  lemma U32Of420()
    ensures U32(U32Bytes(420)) == 420
  {
    assert U32Bytes(420) == [0, 0, 1, 164];
  }

  lemma RequestIsMeans(request: Bytes, ps: seq<Payload>, initSPI: Bytes)
    requires RequestIs(request, ps, initSPI)
    ensures var body := BuildChain(ps, PAYLOAD_NONE);
            request == BuildHeader(initSPI, seq(8, _ => 0), FirstType(ps, PAYLOAD_NONE), VERSION_2, EXCHANGE_SA_INIT, FLAG_INITIATOR,
                                   [0, 0, 0, 0] + U32Bytes(HEADER_LENGTH + |body|)) + body
  {
  }

  lemma ThreeReadBack(sa: Payload, ke: Payload, n: Payload)
    requires sa.typ == PAYLOAD_SA && ke.typ == PAYLOAD_KE && n.typ == PAYLOAD_NONCE
    requires 4 + |sa.body| < 65536 && 4 + |ke.body| < 65536 && 4 + |n.body| < 65536
    ensures var ps := [sa, ke, n];
            && |BuildChain(ps, PAYLOAD_NONE)| == 12 + |sa.body| + |ke.body| + |n.body|
            && Walk(BuildChain(ps, PAYLOAD_NONE), FirstType(ps, PAYLOAD_NONE)) == Chain(ps, PAYLOAD_NONE, [], false)
            && SaTransforms(ps) == TransformsOf(sa.body)
  {
    var ps := [sa, ke, n];
    assert ChainEncodable(ps);
    hide *;
    RequestLength(sa, ke, n);
    ChainReadBack(ps, []);
    assert BuildChain(ps, PAYLOAD_NONE) + [] == BuildChain(ps, PAYLOAD_NONE);
    OneSa(sa, [ke, n]);
    assert [sa] + [ke, n] == ps;
  }

  lemma RequestReadBack(kePublic: Bytes, nonce: Bytes)
    requires |kePublic| == KE_PUBLIC_BYTES && |nonce| == NONCE_BYTES
    ensures var ps := RequestPayloads(kePublic, nonce);
            && |BuildChain(ps, PAYLOAD_NONE)| == 392
            && Walk(BuildChain(ps, PAYLOAD_NONE), FirstType(ps, PAYLOAD_NONE)) == Chain(ps, PAYLOAD_NONE, [], false)
            && SaTransforms(ps) == Pairs(OFFERED)
  {
    var group: nat := DEFAULT_DH_GROUP;
    var keBody: Bytes := [High(group), Low(group), 0, 0] + kePublic;
    assert |keBody| == 260 && |nonce| == 32;
    OfferedFits();
    OfferedCounts();
    hide *;
    var proposal := BuildProposal(OfferedProposal());
    ProposalReadBack(OfferedProposal(), []);
    assert proposal + [] == proposal;
    ThreeReadBack(Payload(PAYLOAD_SA, 0, proposal), Payload(PAYLOAD_KE, 0, keBody), Payload(PAYLOAD_NONCE, 0, nonce));
    RequestPayloadsAre(kePublic, nonce);
  }

  lemma OfferedCounts()
    ensures |OfferedProposal().spi| == 0 && |OfferedProposal().transforms| == 9
  {
  }

  lemma RequestPayloadsAre(kePublic: Bytes, nonce: Bytes)
    ensures RequestPayloads(kePublic, nonce) ==
            [Payload(PAYLOAD_SA, 0, BuildProposal(OfferedProposal())),
             Payload(PAYLOAD_KE, 0, [High(DEFAULT_DH_GROUP), Low(DEFAULT_DH_GROUP), 0, 0] + kePublic),
             Payload(PAYLOAD_NONCE, 0, nonce)]
  {
  }

  lemma RequestLength(sa: Payload, ke: Payload, n: Payload)
    ensures |BuildChain([sa, ke, n], PAYLOAD_NONE)| == 12 + |sa.body| + |ke.body| + |n.body|
  {
    ChainCons(n, [], PAYLOAD_NONE);
    ChainCons(ke, [n], PAYLOAD_NONE);
    ChainCons(sa, [ke, n], PAYLOAD_NONE);
    assert [sa] + [ke, n] == [sa, ke, n] && [ke] + [n] == [ke, n] && [n] + [] == [n];
    hide High, Low, BuildChain;
  }

  // ----- a response and what the scanner reports for it

  /** What a responder may put in the chain: the selected proposal, followed by any bytes; a notify as section
      3.10 of RFC 7296 lays it out; or some other payload. */
  datatype Item =
    | Selection(flags: Byte, proposal: Proposal, trailing: Bytes)
    | Notification(flags: Byte, protocol: Byte, messageType: nat, spi: Bytes, data: Bytes)
    | Other(payload: Payload)

  ghost predicate ItemEncodable(item: Item) {
    match item
    case Selection(_, proposal, trailing) => Encodable(proposal) && 4 + |BuildProposal(proposal)| + |trailing| < 65536
    case Notification(_, _, messageType, spi, data) => messageType < 65536 && |spi| < 256 && 8 + |spi| + |data| < 65536
    case Other(payload) => payload.typ != PAYLOAD_SA && payload.typ != PAYLOAD_NONE && 4 + |payload.body| < 65536
  }

  ghost function ToPayload(item: Item): Payload
    requires ItemEncodable(item)
  {
    match item
    case Selection(flags, proposal, trailing) => Payload(PAYLOAD_SA, flags, BuildProposal(proposal) + trailing)
    case Notification(flags, protocol, messageType, spi, data) => Payload(PAYLOAD_NOTIFY, flags, BuildNotify(protocol, messageType, spi, data))
    case Other(payload) => payload
  }

  ghost function ToPayloads(items: seq<Item>): (ps: seq<Payload>)
    requires forall item | item in items :: ItemEncodable(item)
    ensures ChainEncodable(ps)
  {
    if items == [] then [] else ToPayloads(items[..|items| - 1]) + [ToPayload(items[|items| - 1])]
  }

  /** All transforms of all selections, in order. */
  ghost function Selections(items: seq<Item>): seq<(Byte, nat)> {
    if items == [] then []
    else
      var last := items[|items| - 1];
      Selections(items[..|items| - 1]) + (if last.Selection? then Pairs(last.proposal.transforms) else [])
  }

  lemma {:induction false} SelectionsReadBack(items: seq<Item>)
    requires forall item | item in items :: ItemEncodable(item)
    ensures SaTransforms(ToPayloads(items)) == Selections(items)
  {
    if items != [] {
      var front, last := items[..|items| - 1], items[|items| - 1];
      SelectionsReadBack(front);
      OneMorePayload(ToPayloads(front), ToPayload(last));
      if last.Selection? {
        ProposalReadBack(last.proposal, last.trailing);
      }
      hide TransformsOf, BuildProposal, Pairs, SaTransforms;
      assert Selections(front) + [] == Selections(front);
    }
  }

  /** The message types of all notifications, in order. */
  ghost function MessageTypes(items: seq<Item>): seq<nat> {
    if items == [] then []
    else
      var last := items[|items| - 1];
      MessageTypes(items[..|items| - 1]) + (if last.Notification? then [last.messageType] else [])
  }

  /** Notifies come without an SPI, as they do in this exchange, and nothing else can be read as one. */
  ghost predicate PlainNotify(item: Item) {
    && (item.Notification? ==> item.spi == [])
    && (item.Other? && item.payload.typ == PAYLOAD_NOTIFY ==> ReadNotifyType(item.payload.body) == None)
  }

  lemma {:induction false} NotificationsReadBack(items: seq<Item>)
    requires forall item | item in items :: ItemEncodable(item) && PlainNotify(item)
    ensures Notifies(ToPayloads(items)) == MessageTypes(items)
  {
    if items != [] {
      var front, last := items[..|items| - 1], items[|items| - 1];
      NotificationsReadBack(front);
      OneMorePayload(ToPayloads(front), ToPayload(last));
      if last.Notification? {
        NotifyWithoutSpi(last.protocol, last.messageType, last.data);
      }
      hide ReadNotifyType, BuildNotify, BuildProposal, Notifies;
      assert MessageTypes(front) + [] == MessageTypes(front);
    }
  }

  datatype Header = Header(initSpi: Bytes, respSpi: Bytes, version: Byte, flags: Byte, tail: Bytes)

  /** A response header that echoes the SPI, with `items` encoded behind it and any bytes after those. */
  ghost function BuildResponse(h: Header, items: seq<Item>, rest: Bytes): Bytes
    requires forall item | item in items :: ItemEncodable(item)
  {
    BuildHeader(h.initSpi, h.respSpi, FirstType(ToPayloads(items), PAYLOAD_NONE), h.version, EXCHANGE_SA_INIT, h.flags, h.tail)
    + (BuildChain(ToPayloads(items), PAYLOAD_NONE) + rest)
  }

  ghost predicate ResponseHeader(h: Header) {
    |h.initSpi| == 8 && |h.respSpi| == 8 && |h.tail| == 8 && h.flags % 64 >= 32
  }

  lemma ResponseReadBack(h: Header, items: seq<Item>, rest: Bytes)
    requires ResponseHeader(h) && forall item | item in items :: ItemEncodable(item)
    ensures var data := BuildResponse(h, items, rest);
            && HeaderError(data, h.initSpi) == None && data[17] == h.version
            && Payloads(data) == Chain(ToPayloads(items), PAYLOAD_NONE, rest, false)
            && SaTransforms(Payloads(data).payloads) == Selections(items)
  {
    var ps := ToPayloads(items);
    HeaderFields(h.initSpi, h.respSpi, FirstType(ps, PAYLOAD_NONE), h.version, EXCHANGE_SA_INIT, h.flags, h.tail, BuildChain(ps, PAYLOAD_NONE) + rest);
    ChainReadBack(ps, rest);
    SelectionsReadBack(items);
    hide BuildHeader, BuildChain, Walk, SaTransforms, ToPayloads, Selections;
  }

  /** The round trip: parsing an encoded response succeeds and reports, for each transform type, the name of
      the last transform of that type; a rejection only when no encryption transform was selected. */
  method ParseEncodedResponse(h: Header, ghost items: seq<Item>, ghost rest: Bytes, data: Bytes) returns (result: IkeResult)
    requires ResponseHeader(h) && forall item | item in items :: ItemEncodable(item)
    requires data == BuildResponse(h, items, rest)
    ensures fresh(result) && result.ikeVersion == Version(h.version)
    ensures result.selectedEncryption == NameOf(ENCRYPTION_NAMES, LastId(Selections(items), ENCR))
    ensures result.selectedPRF == NameOf(PRF_NAMES, LastId(Selections(items), PRF))
    ensures result.selectedIntegrity == NameOf(INTEGRITY_NAMES, LastId(Selections(items), INTEG))
    ensures result.selectedDHGroup == NameOf(DH_GROUP_NAMES, LastId(Selections(items), DH))
    ensures result.rejectedNotify != "" <==> LastId(Selections(items), ENCR) == None && Notifies(ToPayloads(items)) != []
    ensures result.rejectedNotify != "" ==> result.rejectedNotify == LookupOrNumeric(NOTIFY_NAMES, Notifies(ToPayloads(items))[0])
    ensures (forall item | item in items :: PlainNotify(item)) ==>
              result.rejectedNotify == if LastId(Selections(items), ENCR) == None && MessageTypes(items) != []
                                       then LookupOrNumeric(NOTIFY_NAMES, MessageTypes(items)[0]) else ""
  {
    ResponseReadBack(h, items, rest);
    if forall item | item in items :: PlainNotify(item) {
      NotificationsReadBack(items);
    }
    hide *;
    var r := ParseIKESAInitResponse(data, h.initSpi);
    result := r.value;
    ReportedMeans(Selections(items), Notifies(ToPayloads(items)), result.Names(), result.rejectedNotify);
    NamesOf(result);
  }

  lemma NamesOf(result: IkeResult)
    ensures result.Names() == Selected(result.selectedEncryption, result.selectedPRF, result.selectedIntegrity, result.selectedDHGroup)
  {
  }

  lemma ReportedMeans(ts: seq<(Byte, nat)>, notifies: seq<nat>, names: Selected, rejected: string)
    requires names == Reported(ts) && RejectionRule(names.encryption, notifies, rejected)
    ensures names == Selected(NameOf(ENCRYPTION_NAMES, LastId(ts, ENCR)), NameOf(PRF_NAMES, LastId(ts, PRF)),
                              NameOf(INTEGRITY_NAMES, LastId(ts, INTEG)), NameOf(DH_GROUP_NAMES, LastId(ts, DH)))
    ensures rejected != "" <==> LastId(ts, ENCR) == None && notifies != []
    ensures rejected != "" ==> rejected == LookupOrNumeric(NOTIFY_NAMES, notifies[0])
  {
    if LastId(ts, ENCR).Some? {
      NamesAreNotEmpty(LastId(ts, ENCR).value);
    }
    if notifies != [] {
      NamesAreNotEmpty(notifies[0]);
    }
    hide LookupOrNumeric, LastId;
  }
}
