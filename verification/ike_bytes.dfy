/** The IKE_SA_INIT probe byte by byte: the request as it goes out, and what is reported for two ordinary
    answers (agents/network-scanner/internal/scanner/ipsec.go). */
module IkeBytes {
  import opened BigEndian
  import opened Wrappers
  import opened IkeFormat
  import opened IkeScanner
  import opened IkeExchange

  const ZEROS: Bytes := [0, 0, 0, 0, 0, 0, 0, 0]

  // ----- the request

  /** AES-CBC with 256 and 128 bits, 3DES; HMAC-SHA2-256, HMAC-SHA1; HMAC-SHA2-256-128, HMAC-SHA1-96; 2048-bit
      and 1024-bit MODP. */
  const OFFERED_BYTES: Bytes :=
    [3, 0, 0, 12, 1, 0, 0, 12, 0x80, 0x0E, 1, 0]
    + ([3, 0, 0, 12, 1, 0, 0, 12, 0x80, 0x0E, 0, 128]
    + ([3, 0, 0, 8, 1, 0, 0, 3]
    + ([3, 0, 0, 8, 2, 0, 0, 5]
    + ([3, 0, 0, 8, 2, 0, 0, 2]
    + ([3, 0, 0, 8, 3, 0, 0, 12]
    + ([3, 0, 0, 8, 3, 0, 0, 2]
    + ([3, 0, 0, 8, 4, 0, 0, 14]
    + ([0, 0, 0, 8, 4, 0, 0, 2] + []))))))))

  lemma SmallTransform(t: Transform)
    requires t.id < 256 && |t.attributes| < 248
    ensures BuildTransform(t) == [if t.last then 0 else 3, 0, 0, 8 + |t.attributes|, t.typ, 0, 0, t.id] + t.attributes
  {
  }

  lemma ShortTransform(t: Transform)
    requires t.id < 256 && t.attributes == []
    ensures BuildTransform(t) == [if t.last then 0 else 3, 0, 0, 8, t.typ, 0, 0, t.id]
  {
    SmallTransform(t);
    hide BuildTransform;
  }

  lemma KeyLengthTransform(t: Transform, bits: nat)
    requires t.id < 256 && t.attributes == KeyLengthAttribute(bits) && bits < 65536
    ensures BuildTransform(t) == [if t.last then 0 else 3, 0, 0, 12, t.typ, 0, 0, t.id, 0x80, 0x0E, bits / 256, bits % 256]
  {
    assert KeyLengthAttribute(bits) == [0x80, 0x0E, bits / 256, bits % 256];
    hide KeyLengthAttribute;
    SmallTransform(t);
    hide BuildTransform;
  }

  lemma TransformsCons(t: Transform, ts: seq<Transform>, front: Bytes, bytes: Bytes)
    requires BuildTransform(t) == front && BuildTransforms(ts) == bytes
    ensures BuildTransforms([t] + ts) == front + bytes
  {
    assert ([t] + ts)[1..] == ts;
    hide BuildTransform;
  }

  lemma OneShort(last: bool, typ: Byte, id: Byte, ts: seq<Transform>, bytes: Bytes)
    requires BuildTransforms(ts) == bytes
    ensures BuildTransforms([Transform(last, typ, id, [])] + ts) == [if last then 0 else 3, 0, 0, 8, typ, 0, 0, id] + bytes
  {
    var t := Transform(last, typ, id, []);
    ShortTransform(t);
    TransformsCons(t, ts, [if last then 0 else 3, 0, 0, 8, typ, 0, 0, id], bytes);
    hide BuildTransform, BuildTransforms;
  }

  lemma OneKeyLength(typ: Byte, id: Byte, bits: nat, ts: seq<Transform>, bytes: Bytes)
    requires BuildTransforms(ts) == bytes && bits < 65536
    ensures BuildTransforms([Transform(false, typ, id, KeyLengthAttribute(bits))] + ts)
            == [3, 0, 0, 12, typ, 0, 0, id, 0x80, 0x0E, bits / 256, bits % 256] + bytes
  {
    var t := Transform(false, typ, id, KeyLengthAttribute(bits));
    KeyLengthTransform(t, bits);
    TransformsCons(t, ts, [3, 0, 0, 12, typ, 0, 0, id, 0x80, 0x0E, bits / 256, bits % 256], bytes);
    hide BuildTransform, BuildTransforms, KeyLengthAttribute;
  }

  const WEAK_AND_OTHERS: seq<Transform> :=
    [Transform(false, 1, 3, [])] + ([Transform(false, 2, 5, [])] + ([Transform(false, 2, 2, [])] + ([Transform(false, 3, 12, [])]
    + ([Transform(false, 3, 2, [])] + ([Transform(false, 4, 14, [])] + ([Transform(true, 4, 2, [])] + []))))))

  lemma WeakAndOthersBytes()
    ensures BuildTransforms(WEAK_AND_OTHERS) ==
            [3, 0, 0, 8, 1, 0, 0, 3] + ([3, 0, 0, 8, 2, 0, 0, 5] + ([3, 0, 0, 8, 2, 0, 0, 2] + ([3, 0, 0, 8, 3, 0, 0, 12]
            + ([3, 0, 0, 8, 3, 0, 0, 2] + ([3, 0, 0, 8, 4, 0, 0, 14] + ([0, 0, 0, 8, 4, 0, 0, 2] + []))))))
  {
    assert BuildTransforms([]) == [];
    hide BuildTransforms;
    OneShort(true, 4, 2, [], []);
    var s8, b8 := [Transform(true, 4, 2, [])] + [], [0, 0, 0, 8, 4, 0, 0, 2] + [];
    OneShort(false, 4, 14, s8, b8);
    var s7, b7 := [Transform(false, 4, 14, [])] + s8, [3, 0, 0, 8, 4, 0, 0, 14] + b8;
    OneShort(false, 3, 2, s7, b7);
    var s6, b6 := [Transform(false, 3, 2, [])] + s7, [3, 0, 0, 8, 3, 0, 0, 2] + b7;
    OneShort(false, 3, 12, s6, b6);
    var s5, b5 := [Transform(false, 3, 12, [])] + s6, [3, 0, 0, 8, 3, 0, 0, 12] + b6;
    OneShort(false, 2, 2, s5, b5);
    var s4, b4 := [Transform(false, 2, 2, [])] + s5, [3, 0, 0, 8, 2, 0, 0, 2] + b5;
    OneShort(false, 2, 5, s4, b4);
    OneShort(false, 1, 3, [Transform(false, 2, 5, [])] + s4, [3, 0, 0, 8, 2, 0, 0, 5] + b4);
  }

  lemma OfferedBytes()
    ensures BuildTransforms(OFFERED) == OFFERED_BYTES
  {
    WeakAndOthersBytes();
    hide BuildTransforms;
    OneKeyLength(1, 12, 128, WEAK_AND_OTHERS, BuildTransforms(WEAK_AND_OTHERS));
    var s1, b1 := [Transform(false, 1, 12, KeyLengthAttribute(128))] + WEAK_AND_OTHERS,
                  [3, 0, 0, 12, 1, 0, 0, 12, 0x80, 0x0E, 0, 128] + BuildTransforms(WEAK_AND_OTHERS);
    OneKeyLength(1, 12, 256, s1, b1);
    assert OFFERED == [Transform(false, 1, 12, KeyLengthAttribute(256))] + s1;
  }

  lemma PayloadInBytes(p: Payload, next: Byte, high: Byte, low: Byte)
    requires 4 + |p.body| == 256 * high + low
    ensures BuildPayload(p, next) == [next, p.flags, high, low] + p.body
  {
    TwoBytes(high, low);
    hide High, Low;
  }

  lemma TwoBytes(high: Byte, low: Byte)
    ensures High(256 * high + low) == high && Low(256 * high + low) == low
  {
  }

  lemma ProposalInBytes()
    ensures BuildProposal(OfferedProposal()) == [0, 0, 0, 88, 1, 1, 0, 9] + OFFERED_BYTES
  {
    OfferedBytes();
    OfferedLength();
    OfferedCounts();
    assert |BuildTransforms(OFFERED)| == 80;
    assert OfferedProposal() == Proposal(0, 88, 1, 1, [], OFFERED);
    hide BuildTransforms, OfferedProposal;
    assert [] + BuildTransforms(OFFERED) == BuildTransforms(OFFERED);
  }

  lemma RequestPayloadsInBytes(kePublic: Bytes, nonce: Bytes)
    requires |kePublic| == 256 && |nonce| == 32
    ensures BuildChain(RequestPayloads(kePublic, nonce), PAYLOAD_NONE) ==
            ([34, 0, 0, 92] + ([0, 0, 0, 88, 1, 1, 0, 9] + OFFERED_BYTES)) + ([40, 0, 1, 8] + ([0, 14, 0, 0] + kePublic)) + ([0, 0, 0, 36] + nonce)
  {
    hide *;
    OfferedFits();
    OfferedCounts();
    GroupInBytes();
    ProposalInBytes();
    RequestPayloadsAre(kePublic, nonce);
    ThreeInBytes(BuildProposal(OfferedProposal()), [0, 14, 0, 0] + kePublic, nonce);
  }

  lemma GroupInBytes()
    ensures [High(DEFAULT_DH_GROUP), Low(DEFAULT_DH_GROUP), 0, 0] == [0, 14, 0, 0]
  {
    TwoBytes(0, 14);
    assert 256 * 0 + 14 == DEFAULT_DH_GROUP;
    hide High, Low;
  }

  lemma ThreeInBytes(proposal: Bytes, keBody: Bytes, nonce: Bytes)
    requires |proposal| == 88 && |keBody| == 260 && |nonce| == 32
    ensures BuildChain([Payload(PAYLOAD_SA, 0, proposal), Payload(PAYLOAD_KE, 0, keBody), Payload(PAYLOAD_NONCE, 0, nonce)], PAYLOAD_NONE)
            == ([34, 0, 0, 92] + proposal) + ([40, 0, 1, 8] + keBody) + ([0, 0, 0, 36] + nonce)
  {
    hide BuildPayload, BuildChain;
    ThreePayloads(proposal, keBody, nonce);
    PayloadInBytes(Payload(33, 0, proposal), 34, 0, 92);
    PayloadInBytes(Payload(34, 0, keBody), 40, 1, 8);
    PayloadInBytes(Payload(40, 0, nonce), 0, 0, 36);
  }

  lemma HeaderInBytes(initSPI: Bytes)
    ensures BuildHeader(initSPI, seq(8, _ => 0), 33, VERSION_2, EXCHANGE_SA_INIT, FLAG_INITIATOR, [0, 0, 0, 0] + U32Bytes(HEADER_LENGTH + 392))
            == initSPI + (ZEROS + ([33, 0x20, 34, 0x08] + [0, 0, 0, 0, 0, 0, 1, 164]))
  {
    assert U32Bytes(420) == [0, 0, 1, 164];
    assert seq(8, _ => 0) == ZEROS;
    hide U32Bytes;
    assert [0, 0, 0, 0] + [0, 0, 1, 164] == [0, 0, 0, 0, 0, 0, 1, 164];
  }

  /** Every byte of the request: the header with a zero responder SPI, version 2.0, exchange 34, the initiator
      flag and length 420; the SA payload with its one proposal; the KE payload for group 14; the nonce. */
  lemma RequestInBytes(kePublic: Bytes, nonce: Bytes, initSPI: Bytes, request: Bytes)
    requires |kePublic| == 256 && |nonce| == 32 && |initSPI| == 8 && RequestIs(request, RequestPayloads(kePublic, nonce), initSPI)
    ensures request == (initSPI + (ZEROS + ([33, 0x20, 34, 0x08] + [0, 0, 0, 0, 0, 0, 1, 164])))
                       + (([34, 0, 0, 92] + ([0, 0, 0, 88, 1, 1, 0, 9] + OFFERED_BYTES)) + ([40, 0, 1, 8] + ([0, 14, 0, 0] + kePublic)) + ([0, 0, 0, 36] + nonce))
  {
    var ps := RequestPayloads(kePublic, nonce);
    assert FirstType(ps, PAYLOAD_NONE) == 33 by { hide BuildProposal, OfferedProposal; }
    hide *;
    RequestPayloadsInBytes(kePublic, nonce);
    RequestReadBack(kePublic, nonce);
    RequestIsMeans(request, ps, initSPI);
    HeaderInBytes(initSPI);
  }

  // ----- two ordinary answers

  /** The AES-CBC proposal with 256 bits, HMAC-SHA2-256, HMAC-SHA2-256-128 and the 2048-bit group. */
  const SELECTED_BYTES: Bytes :=
    [3, 0, 0, 12, 1, 0, 0, 12, 0x80, 0x0E, 1, 0] + ([3, 0, 0, 8, 2, 0, 0, 5] + ([3, 0, 0, 8, 3, 0, 0, 12] + ([0, 0, 0, 8, 4, 0, 0, 14] + [])))

  const SELECTED: seq<Transform> :=
    [Transform(false, 1, 12, KeyLengthAttribute(256))] + ([Transform(false, 2, 5, [])] + ([Transform(false, 3, 12, [])] + ([Transform(true, 4, 14, [])] + [])))

  lemma SelectedBytes()
    ensures BuildTransforms(SELECTED) == SELECTED_BYTES && |SELECTED| == 4
  {
    assert BuildTransforms([]) == [];
    hide BuildTransforms;
    OneShort(true, 4, 14, [], []);
    var s3, b3 := [Transform(true, 4, 14, [])] + [], [0, 0, 0, 8, 4, 0, 0, 14] + [];
    OneShort(false, 3, 12, s3, b3);
    var s2, b2 := [Transform(false, 3, 12, [])] + s3, [3, 0, 0, 8, 3, 0, 0, 12] + b3;
    OneShort(false, 2, 5, s2, b2);
    OneKeyLength(1, 12, 256, [Transform(false, 2, 5, [])] + s2, [3, 0, 0, 8, 2, 0, 0, 5] + b2);
  }

  ghost function SelectedProposal(): Proposal {
    Proposal(0, 44, 1, 1, [], SELECTED)
  }

  lemma SelectedProposalInBytes()
    ensures Encodable(SelectedProposal()) && BuildProposal(SelectedProposal()) == [0, 0, 0, 44, 1, 1, 0, 4] + SELECTED_BYTES
    ensures |SELECTED_BYTES| == 36
  {
    SelectedBytes();
    TwoBytes(0, 44);
    assert 256 * 0 + 44 == 44;
    hide BuildTransforms, High, Low;
    assert [] + SELECTED_BYTES == SELECTED_BYTES;
  }

  lemma SelectedPairs()
    ensures Pairs(SELECTED) == [(1, 12), (2, 5), (3, 12), (4, 14)]
  {
    hide KeyLengthAttribute;
    PairsCons(Transform(true, 4, 14, []), []);
    PairsCons(Transform(false, 3, 12, []), [Transform(true, 4, 14, [])] + []);
    PairsCons(Transform(false, 2, 5, []), [Transform(false, 3, 12, [])] + ([Transform(true, 4, 14, [])] + []));
    PairsCons(Transform(false, 1, 12, KeyLengthAttribute(256)), [Transform(false, 2, 5, [])] + ([Transform(false, 3, 12, [])] + ([Transform(true, 4, 14, [])] + [])));
  }

  lemma PairsCons(t: Transform, ts: seq<Transform>)
    ensures Pairs([t] + ts) == [(t.typ, t.id)] + Pairs(ts)
  {
    assert ([t] + ts)[1..] == ts;
  }

  lemma LastIdSnoc(ts: seq<(Byte, nat)>, t: (Byte, nat), typ: Byte)
    ensures LastId(ts + [t], typ) == if t.0 == typ then Some(t.1) else LastId(ts, typ)
  {
    assert (ts + [t])[..|ts|] == ts;
  }

  lemma LastOfFour(a: nat, b: nat, c: nat, d: nat)
    ensures var ts := [(1, a), (2, b), (3, c), (4, d)];
            && LastId(ts, 1) == Some(a) && LastId(ts, 2) == Some(b) && LastId(ts, 3) == Some(c) && LastId(ts, 4) == Some(d)
  {
    LastOfFourAt(a, b, c, d, 1);
    LastOfFourAt(a, b, c, d, 2);
    LastOfFourAt(a, b, c, d, 3);
    LastOfFourAt(a, b, c, d, 4);
    hide LastId;
  }

  lemma LastOfFourAt(a: nat, b: nat, c: nat, d: nat, typ: Byte)
    ensures LastId([(1, a), (2, b), (3, c), (4, d)], typ) ==
            if typ == 4 then Some(d) else if typ == 3 then Some(c) else if typ == 2 then Some(b) else if typ == 1 then Some(a) else None
  {
    var t1: (Byte, nat), t2: (Byte, nat), t3: (Byte, nat), t4: (Byte, nat) := (1, a), (2, b), (3, c), (4, d);
    assert LastId([], typ) == None;
    hide LastId;
    assert [] + [t1] == [t1] && [t1] + [t2] == [t1, t2] && [t1, t2] + [t3] == [t1, t2, t3] && [t1, t2, t3] + [t4] == [t1, t2, t3, t4];
    LastIdSnoc([], t1, typ);
    LastIdSnoc([t1], t2, typ);
    LastIdSnoc([t1, t2], t3, typ);
    LastIdSnoc([t1, t2, t3], t4, typ);
  }

  lemma OneItem(item: Item)
    requires ItemEncodable(item)
    ensures ToPayloads([item]) == [ToPayload(item)] && ToPayload(item).typ == FirstType(ToPayloads([item]), PAYLOAD_NONE)
    ensures BuildChain(ToPayloads([item]), PAYLOAD_NONE) == BuildPayload(ToPayload(item), PAYLOAD_NONE)
    ensures Selections([item]) == if item.Selection? then Pairs(item.proposal.transforms) else []
    ensures MessageTypes([item]) == if item.Notification? then [item.messageType] else []
  {
    assert [item][..0] == [];
    assert ToPayloads([]) == [] && Selections([]) == [] && MessageTypes([]) == [];
    ChainCons(ToPayload(item), [], PAYLOAD_NONE);
    hide ToPayload, BuildPayload;
    assert [ToPayload(item)] + [] == [ToPayload(item)];
  }

  /** What `ParseIKESAInitResponse` is given for one item under a header with the response flag. */
  lemma ParsedItem(initSpi: Bytes, respSpi: Bytes, tail: Bytes, item: Item, data: Bytes)
    requires |initSpi| == 8 && |respSpi| == 8 && |tail| == 8 && ItemEncodable(item) && PlainNotify(item)
    requires data == (initSpi + (respSpi + ([ToPayload(item).typ, 0x20, 34, 0x20] + tail))) + BuildPayload(ToPayload(item), PAYLOAD_NONE)
    ensures HeaderError(data, initSpi) == None && data[17] == 0x20 && !Payloads(data).malformed
    ensures SaTransforms(Payloads(data).payloads) == Selections([item]) && Notifies(Payloads(data).payloads) == MessageTypes([item])
  {
    var h := Header(initSpi, respSpi, 0x20, 0x20, tail);
    OneItem(item);
    assert BuildHeader(initSpi, respSpi, ToPayload(item).typ, 0x20, EXCHANGE_SA_INIT, 0x20, tail)
           == initSpi + (respSpi + ([ToPayload(item).typ, 0x20, 34, 0x20] + tail));
    hide BuildPayload, BuildChain, ToPayload, ToPayloads, Selections, MessageTypes, BuildHeader, PlainNotify, ItemEncodable;
    assert BuildChain(ToPayloads([item]), PAYLOAD_NONE) + [] == BuildPayload(ToPayload(item), PAYLOAD_NONE);
    assert data == BuildResponse(h, [item], []);
    ResponseReadBack(h, [item], []);
    NotificationsReadBack([item]);
  }

  lemma VersionTwo()
    ensures Version(0x20) == "2.0"
  {
    assert Decimal(2) == "2" && Decimal(0) == "0";
  }

  /** Bytes in, names out: an answer that selects the first offer of each kind. */
  lemma SelectionIsReported(initSpi: Bytes, respSpi: Bytes, tail: Bytes, data: Bytes)
    requires |initSpi| == 8 && |respSpi| == 8 && |tail| == 8
    requires data == (initSpi + (respSpi + ([33, 0x20, 34, 0x20] + tail))) + ([0, 0, 0, 48] + ([0, 0, 0, 44, 1, 1, 0, 4] + SELECTED_BYTES))
    ensures HeaderError(data, initSpi) == None && !Payloads(data).malformed && Version(data[17]) == "2.0"
    ensures Reported(SaTransforms(Payloads(data).payloads)) == Selected("AES-CBC", "HMAC-SHA2-256", "HMAC-SHA2-256-128", "2048-bit MODP")
  {
    var item := Selection(0, SelectedProposal(), []);
    SelectedProposalInBytes();
    var proposal := BuildProposal(SelectedProposal());
    assert |proposal| == 44;
    assert ToPayload(item) == Payload(33, 0, proposal) by { assert proposal + [] == proposal; hide BuildProposal; }
    PayloadInBytes(Payload(33, 0, proposal), 0, 0, 48);
    assert ItemEncodable(item) && PlainNotify(item) by { hide BuildProposal; }
    assert Selections([item]) == Pairs(SELECTED) by { OneItem(item); }
    hide *;
    ParsedItem(initSpi, respSpi, tail, item, data);
    SelectedPairs();
    LastOfFour(12, 5, 12, 14);
    VersionTwo();
    NamesOfSelected(SaTransforms(Payloads(data).payloads));
  }

  lemma NamesOfSelected(ts: seq<(Byte, nat)>)
    requires LastId(ts, 1) == Some(12) && LastId(ts, 2) == Some(5) && LastId(ts, 3) == Some(12) && LastId(ts, 4) == Some(14)
    ensures Reported(ts) == Selected("AES-CBC", "HMAC-SHA2-256", "HMAC-SHA2-256-128", "2048-bit MODP")
  {
    hide LastId;
  }

  /** And one that refuses every offer. */
  lemma RefusalIsReported(initSpi: Bytes, respSpi: Bytes, tail: Bytes, data: Bytes, rejected: string)
    requires |initSpi| == 8 && |respSpi| == 8 && |tail| == 8
    requires data == (initSpi + (respSpi + ([41, 0x20, 34, 0x20] + tail))) + ([0, 0, 0, 8] + [0, 0, 0, 14])
    ensures HeaderError(data, initSpi) == None && !Payloads(data).malformed
    ensures var names := Reported(SaTransforms(Payloads(data).payloads));
            && names == Selected("", "", "", "")
            && (RejectionRule(names.encryption, Notifies(Payloads(data).payloads), rejected) <==> rejected == "NO_PROPOSAL_CHOSEN")
  {
    var item := Notification(0, 0, 14, [], []);
    TwoBytes(0, 14);
    assert 256 * 0 + 14 == 14;
    assert BuildNotify(0, 14, [], []) == [0, 0, 0, 14] by { hide High, Low; }
    assert ToPayload(item) == Payload(41, 0, [0, 0, 0, 14]) by { hide BuildNotify; }
    PayloadInBytes(Payload(41, 0, [0, 0, 0, 14]), 0, 0, 8);
    assert ItemEncodable(item) && PlainNotify(item) by { hide BuildNotify; }
    assert Selections([item]) == [] && MessageTypes([item]) == [14] by { OneItem(item); }
    hide *;
    ParsedItem(initSpi, respSpi, tail, item, data);
    NothingReported(Notifies(Payloads(data).payloads), rejected);
  }

  lemma NothingReported(notifies: seq<nat>, rejected: string)
    requires notifies == [14]
    ensures Reported([]) == Selected("", "", "", "")
    ensures RejectionRule("", notifies, rejected) <==> rejected == "NO_PROPOSAL_CHOSEN"
  {
  }
}
