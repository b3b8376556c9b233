/** Reading a server's first binary packet and taking its SSH_MSG_KEXINIT apart
    (agents/network-scanner/internal/scanner/ssh.go). */
module SshScanner {
  import opened BigEndian
  import opened SshFormat
  import opened Wrappers

  datatype PacketError =
    | UnexpectedEnd
    | ImplausibleLength(length: nat)
    | InvalidPadding(padding: nat, length: nat)
    | EmptyPayload

  /** An `io.Reader` over the bytes the peer will send. */
  class Reader {
    var remaining: Bytes

    constructor (stream: Bytes)
      ensures remaining == stream
    {
      remaining := stream;
    }

    /** `io.ReadFull`: all of the buffer, or an error with the stream used up. */
    method ReadFull(n: nat) returns (r: Result<Bytes, PacketError>)
      modifies this
      ensures n <= |old(remaining)| ==> r == Ok(old(remaining)[..n]) && remaining == old(remaining)[n..]
      ensures n > |old(remaining)| ==> r == Err(UnexpectedEnd) && remaining == []
    {
      if n <= |remaining| {
        r := Ok(remaining[..n]);
        remaining := remaining[n..];
      } else {
        r := Err(UnexpectedEnd);
        remaining := [];
      }
    }
  }

  /** The payload of a packet whose length field has been read. */
  function PayloadOf(packet: Bytes): Result<Bytes, PacketError>
    requires packet != []
  {
    if |packet| <= packet[0] then Err(InvalidPadding(packet[0], |packet|))
    else if |packet| - packet[0] == 1 then Err(EmptyPayload)
    else Ok(packet[1..|packet| - packet[0]])
  }

  /** The result of reading one packet off the front of a stream, and what is left of the stream. */
  function ReadPacket(stream: Bytes): (Result<Bytes, PacketError>, Bytes) {
    if |stream| < 4 then (Err(UnexpectedEnd), [])
    else
      var n := U32(stream[..4]);
      if n == 0 || n > MAX_PACKET_LENGTH then (Err(ImplausibleLength(n)), stream[4..])
      else if |stream| < 4 + n then (Err(UnexpectedEnd), [])
      else (PayloadOf(stream[4..4 + n]), stream[4 + n..])
  }

  lemma Slices(data: Bytes, offset: nat, length: nat)
    requires offset + length <= |data|
    ensures data[offset..][..length] == data[offset..offset + length]
    ensures data[offset..][length..] == data[offset + length..]
  {
  }

  method ReadSSHBinaryPacket(reader: Reader) returns (r: Result<Bytes, PacketError>)
    modifies reader
    ensures (r, reader.remaining) == ReadPacket(old(reader.remaining))
  {
    ghost var stream := reader.remaining;
    var lengthBuf := reader.ReadFull(4);
    if lengthBuf.Err? {
      return lengthBuf;
    }
    var packetLength := U32(lengthBuf.value);
    if packetLength == 0 || packetLength > MAX_PACKET_LENGTH {
      return Err(ImplausibleLength(packetLength));
    }
    hide U32, MAX_PACKET_LENGTH;
    var rest := reader.ReadFull(packetLength);
    if rest.Err? {
      return rest;
    }
    Slices(stream, 4, packetLength);
    var paddingLength := rest.value[0] as int;
    var payloadEnd := packetLength - paddingLength;
    if payloadEnd < 1 {
      return Err(InvalidPadding(paddingLength, packetLength));
    }
    if payloadEnd == 1 {
      return Err(EmptyPayload);
    }
    return Ok(rest.value[1..payloadEnd]);
  }

  /** The stream starts with a packet holding `payload`, and `rest` follows. */
  ghost predicate Framed(stream: Bytes, payload: Bytes, padding: Bytes, rest: Bytes) {
    FitsInPacket(payload, padding) && stream == Frame(payload, padding) + rest
  }

  lemma PayloadInPacket(payload: Bytes, padding: Bytes)
    requires payload != [] && |padding| < 256
    ensures PayloadOf([|padding|] + (payload + padding)) == Ok(payload)
  {
    var packet: Bytes := [|padding|] + (payload + padding);
    assert packet[1..|packet| - |padding|] == payload;
  }

  /** A packet framed as the standard says is read back, and the bytes behind it are still there. */
  lemma PacketRoundTrip(payload: Bytes, padding: Bytes, rest: Bytes)
    requires FitsInPacket(payload, padding)
    ensures ReadPacket(Frame(payload, padding) + rest) == (Ok(payload), rest)
  {
    FrameFields(payload, padding, rest);
    PayloadInPacket(payload, padding);
    hide Frame, U32, PayloadOf;
  }

  /** Every payload that leaves room for padding can be framed as the standard requires, and is then read
      back. */
  lemma StandardPacketRoundTrip(payload: Bytes, rest: Bytes) returns (padding: Bytes)
    requires payload != [] && |payload| + 12 <= MAX_PACKET_LENGTH
    ensures PaddedAsRequired(payload, padding)
    ensures ReadPacket(Frame(payload, padding) + rest) == (Ok(payload), rest)
  {
    PaddingExists(payload);
    padding :| PaddedAsRequired(payload, padding) && |padding| < 12;
    assert FitsInPacket(payload, padding);
    hide ReadPacket, Frame, PaddedAsRequired;
    PacketRoundTrip(payload, padding, rest);
  }

  /** Reading succeeds with `payload` and `rest` only on the bytes of such a packet, though padding shorter
      than the standard's four bytes is let through. */
  lemma PacketReadIff(stream: Bytes, payload: Bytes, rest: Bytes)
    ensures ReadPacket(stream) == (Ok(payload), rest)
            <==> exists padding: Bytes :: Framed(stream, payload, padding, rest)
  {
    if ReadPacket(stream) == (Ok(payload), rest) {
      var padding := PacketReadInverse(stream, payload, rest);
    }
    if padding: Bytes :| Framed(stream, payload, padding, rest) {
      PacketRoundTrip(payload, padding, rest);
    }
    hide *;
  }

  /** What success says about the bytes: the length field, the packet it announces, and how that is divided. */
  lemma ReadMeans(stream: Bytes, payload: Bytes, rest: Bytes) returns (packet: Bytes, end: nat)
    requires ReadPacket(stream) == (Ok(payload), rest)
    ensures |stream| >= 4 && |packet| == U32(stream[..4]) && 0 < |packet| <= MAX_PACKET_LENGTH
    ensures 4 + |packet| <= |stream| && packet == stream[4..4 + |packet|] && rest == stream[4 + |packet|..]
    ensures end == |packet| - packet[0] as int && 1 < end <= |packet| && payload == packet[1..end]
  {
    packet := stream[4..4 + U32(stream[..4])];
    hide U32;
    end := |packet| - packet[0] as int;
  }

  lemma PacketReadInverse(stream: Bytes, payload: Bytes, rest: Bytes) returns (padding: Bytes)
    requires ReadPacket(stream) == (Ok(payload), rest)
    ensures Framed(stream, payload, padding, rest)
  {
    var packet, end := ReadMeans(stream, payload, rest);
    hide ReadPacket, U32;
    FrameBytes(stream[..4], packet, end);
    padding := packet[end..];
    FitsBack(packet, end);
    hide *;
    ThreePieces(stream, 0, 4, 4 + |packet|);
    assert stream[0..] == stream && stream[0..4] == stream[..4];
    FramedFrom(stream, payload, padding, rest);
  }

  lemma FitsBack(packet: Bytes, end: nat)
    requires 1 < end <= |packet| <= MAX_PACKET_LENGTH && |packet[end..]| < 256
    ensures FitsInPacket(packet[1..end], packet[end..])
  {
  }

  lemma FramedFrom(stream: Bytes, payload: Bytes, padding: Bytes, rest: Bytes)
    requires FitsInPacket(payload, padding) && stream == Frame(payload, padding) + rest
    ensures Framed(stream, payload, padding, rest)
  {
  }

  // ----- name-lists and SSH_MSG_KEXINIT

  datatype ListError = PrefixTruncated | BodyTruncated(length: nat)

  datatype KexError =
    | UnexpectedMessage(first: int)
    | ShortCookie
    | BadNameList(index: nat, error: ListError)

  datatype KexInit = KexInit(
    kexAlgorithms: seq<Name>,
    serverHostKeyAlgorithms: seq<Name>,
    encryptionClientToServer: seq<Name>,
    encryptionServerToClient: seq<Name>,
    macClientToServer: seq<Name>,
    macServerToClient: seq<Name>)

  function FirstSix(lists: seq<seq<Name>>): KexInit
    requires |lists| == NAME_LISTS
  {
    KexInit(lists[0], lists[1], lists[2], lists[3], lists[4], lists[5])
  }

  function FirstByteOrNegative(payload: Bytes): int {
    if payload == [] then -1 else payload[0]
  }

  function ReadNameList(payload: Bytes, offset: nat): Result<(seq<Name>, nat), ListError> {
    if offset + 4 > |payload| then Err(PrefixTruncated)
    else
      var length := U32(payload[offset..offset + 4]);
      var start := offset + 4;
      if start + length > |payload| then Err(BodyTruncated(length))
      else Ok((NamesIn(payload[start..start + length]), start + length))
  }

  lemma NameListPieces(tail: Bytes, length: Bytes, raw: Bytes, rest: Bytes)
    requires tail == (length + raw) + rest && |length| == 4
    ensures tail[..4] == length && tail[4..][..|raw|] == raw && |tail| == 4 + |raw| + |rest|
  {
  }

  lemma Canonicals(names: seq<Name>)
    requires Encodable(names)
    ensures CommaFree(names) && names != [[]] && |Join(names)| < 0x1_0000_0000
  {
  }

  lemma ReadNameListRoundTrip(payload: Bytes, offset: nat, names: seq<Name>, rest: Bytes)
    requires offset <= |payload| && payload[offset..] == BuildNameList(names) + rest && Encodable(names)
    ensures ReadNameList(payload, offset) == Ok((names, |payload| - |rest|))
  {
    var raw := Join(names);
    U32RoundTrip(|raw|);
    NameListReadBackIff(names);
    Canonicals(names);
    Slices(payload, offset, 4);
    Slices(payload, offset + 4, |raw|);
    Slices(payload, offset, 4 + |raw|);
    NameListPieces(payload[offset..], U32Bytes(|raw|), raw, rest);
    hide U32, U32Bytes, NamesIn, Join, Encodable;
  }

  /** Whatever is read is the encoding of the result, and the new offset is in bounds and at least four
      bytes further on. */
  lemma ReadNameListInverse(payload: Bytes, offset: nat)
    requires ReadNameList(payload, offset).Ok?
    ensures var (names, next) := ReadNameList(payload, offset).value;
            && offset + 4 <= next <= |payload| && Encodable(names)
            && payload[offset..] == BuildNameList(names) + payload[next..]
  {
    var prefix, start := payload[offset..offset + 4], offset + 4;
    var raw := payload[start..start + U32(prefix)];
    U32OfBytes(prefix);
    NamesInAreCanonical(raw);
    ThreePieces(payload, offset, start, start + U32(prefix));
    assert |raw| == U32(prefix) && |prefix| == 4;
    hide U32, U32Bytes, NamesIn, Join, Canonical;
  }

  /** `n` name-lists one after the other, the first of them number `index`. */
  function ReadNameLists(payload: Bytes, offset: nat, index: nat, n: nat): (r: Result<seq<seq<Name>>, KexError>)
    ensures r.Ok? ==> |r.value| == n
    decreases n
  {
    if n == 0 then Ok([])
    else
      match ReadNameList(payload, offset)
      case Err(e) => Err(BadNameList(index, e))
      case Ok((names, next)) => Prepend([names], ReadNameLists(payload, next, index + 1, n - 1))
  }

  function Prepend(front: seq<seq<Name>>, r: Result<seq<seq<Name>>, KexError>): Result<seq<seq<Name>>, KexError> {
    match r
    case Ok(lists) => Ok(front + lists)
    case Err(e) => Err(e)
  }

  lemma FirstNameList(payload: Bytes, offset: nat, lists: seq<seq<Name>>, rest: Bytes) returns (next: nat)
    requires offset <= |payload| && payload[offset..] == BuildNameLists(lists) + rest && lists != [] && Encodable(lists[0])
    ensures next <= |payload| && payload[next..] == BuildNameLists(lists[1..]) + rest
    ensures ReadNameList(payload, offset) == Ok((lists[0], next))
  {
    var tail := BuildNameLists(lists[1..]) + rest;
    BuildNameListsCons(lists, rest);
    hide *;
    ReadNameListRoundTrip(payload, offset, lists[0], tail);
    SuffixBehind(payload[offset..], BuildNameList(lists[0]), tail);
    next := |payload| - |tail|;
    SuffixOf(payload, offset, next);
  }

  lemma {:induction false} ReadNameListsRoundTrip(payload: Bytes, offset: nat, index: nat, lists: seq<seq<Name>>, rest: Bytes)
    requires offset <= |payload| && payload[offset..] == BuildNameLists(lists) + rest
    requires forall names | names in lists :: Encodable(names)
    ensures ReadNameLists(payload, offset, index, |lists|) == Ok(lists)
    decreases |lists|
  {
    if lists != [] {
      hide ReadNameList, BuildNameLists, Encodable;
      var next := FirstNameList(payload, offset, lists, rest);
      ReadNameListsRoundTrip(payload, next, index + 1, lists[1..], rest);
      assert lists == [lists[0]] + lists[1..];
    }
  }

  lemma ThreePieces(payload: Bytes, a: nat, b: nat, c: nat)
    requires a <= b <= c <= |payload|
    ensures payload[a..] == payload[a..b] + payload[b..c] + payload[c..]
  {
  }

  lemma SuffixBehind(whole: Bytes, front: Bytes, tail: Bytes)
    requires whole == front + tail
    ensures whole[|whole| - |tail|..] == tail
  {
  }

  lemma BuildNameListsCons(lists: seq<seq<Name>>, rest: Bytes)
    requires lists != []
    ensures BuildNameLists(lists) + rest == BuildNameList(lists[0]) + (BuildNameLists(lists[1..]) + rest)
  {
    hide BuildNameList;
  }

  lemma SuffixOf(payload: Bytes, offset: nat, next: nat)
    requires offset <= next <= |payload|
    ensures payload[next..] == payload[offset..][next - offset..]
  {
  }

  lemma {:induction false} ReadNameListsInverse(payload: Bytes, offset: nat, index: nat, n: nat) returns (rest: Bytes)
    requires offset <= |payload| && ReadNameLists(payload, offset, index, n).Ok?
    ensures var lists := ReadNameLists(payload, offset, index, n).value;
            && |lists| == n && payload[offset..] == BuildNameLists(lists) + rest
            && forall names | names in lists :: Encodable(names)
    decreases n
  {
    if n == 0 {
      rest := payload[offset..];
      assert [] + rest == rest;
    } else {
      ReadNameListInverse(payload, offset);
      var (names, next) := ReadNameList(payload, offset).value;
      rest := ReadNameListsInverse(payload, next, index + 1, n - 1);
      var lists := ReadNameLists(payload, next, index + 1, n - 1).value;
      assert ([names] + lists)[1..] == lists;
      BuildNameListsCons([names] + lists, rest);
      hide ReadNameList, BuildNameList, BuildNameLists, Encodable;
    }
  }

  /** What parsing a payload comes to. */
  function ParsedKexInit(payload: Bytes): Result<KexInit, KexError> {
    if payload == [] || payload[0] != SSH_MSG_KEXINIT then Err(UnexpectedMessage(FirstByteOrNegative(payload)))
    else if 1 + COOKIE_LENGTH > |payload| then Err(ShortCookie)
    else
      match ReadNameLists(payload, 1 + COOKIE_LENGTH, 0, NAME_LISTS)
      case Ok(lists) => Ok(FirstSix(lists))
      case Err(e) => Err(e)
  }

  lemma PrependPrepend(a: seq<seq<Name>>, b: seq<seq<Name>>, r: Result<seq<seq<Name>>, KexError>)
    ensures Prepend(a, Prepend(b, r)) == Prepend(a + b, r)
  {
    if r.Ok? {
      assert a + (b + r.value) == (a + b) + r.value;
    }
  }

  /** The lists read so far, followed by what is read from `offset` on, are the whole result. */
  ghost predicate Pending(whole: Result<seq<seq<Name>>, KexError>, front: seq<seq<Name>>, payload: Bytes, offset: nat) {
    |front| <= NAME_LISTS && whole == Prepend(front, ReadNameLists(payload, offset, |front|, NAME_LISTS - |front|))
  }

  lemma PendingStarts(payload: Bytes, offset: nat)
    ensures Pending(ReadNameLists(payload, offset, 0, NAME_LISTS), [], payload, offset)
  {
    var whole := ReadNameLists(payload, offset, 0, NAME_LISTS);
    assert whole.Ok? ==> [] + whole.value == whole.value;
    hide ReadNameLists;
  }

  lemma PendingStep(whole: Result<seq<seq<Name>>, KexError>, front: seq<seq<Name>>, payload: Bytes, offset: nat)
    requires Pending(whole, front, payload, offset) && |front| < NAME_LISTS
    ensures var list := ReadNameList(payload, offset);
            if list.Err? then whole == Err(BadNameList(|front|, list.error))
            else Pending(whole, front + [list.value.0], payload, list.value.1)
  {
    var list := ReadNameList(payload, offset);
    if list.Err? {
      PrependError(front, BadNameList(|front|, list.error));
    } else {
      PrependPrepend(front, [list.value.0], ReadNameLists(payload, list.value.1, |front| + 1, NAME_LISTS - |front| - 1));
    }
    hide ReadNameList, Prepend;
  }

  lemma PendingEnds(whole: Result<seq<seq<Name>>, KexError>, front: seq<seq<Name>>, payload: Bytes, offset: nat)
    requires Pending(whole, front, payload, offset) && |front| == NAME_LISTS
    ensures whole == Ok(front)
  {
    PrependNothing(front);
  }

  /** The loop: one name-list into each slot, or the first error. */
  method ReadSlots(payload: Bytes, start: nat, nameLists: array<seq<Name>>) returns (error: Option<KexError>)
    requires nameLists.Length == NAME_LISTS
    modifies nameLists
    ensures ReadNameLists(payload, start, 0, NAME_LISTS) == if error.Some? then Err(error.value) else Ok(nameLists[..])
  {
    ghost var whole := ReadNameLists(payload, start, 0, NAME_LISTS);
    PendingStarts(payload, start);
    hide ReadNameList, ReadNameLists, Pending;
    var offset := start;
    assert nameLists[..0] == [];
    for i := 0 to NAME_LISTS
      invariant Pending(whole, nameLists[..i], payload, offset)
    {
      PendingStep(whole, nameLists[..i], payload, offset);
      var list := ReadNameList(payload, offset);
      if list.Err? {
        return Some(BadNameList(i, list.error));
      }
      nameLists[i] := list.value.0;
      offset := list.value.1;
      assert nameLists[..i + 1] == nameLists[..i] + [list.value.0];
    }
    assert nameLists[..NAME_LISTS] == nameLists[..];
    PendingEnds(whole, nameLists[..], payload, offset);
    return None;
  }

  lemma {:induction false} ListErrors(payload: Bytes, offset: nat, index: nat, n: nat)
    ensures var r := ReadNameLists(payload, offset, index, n); r.Err? ==> r.error.BadNameList? && index <= r.error.index < index + n
    decreases n
  {
    hide ReadNameList;
    if n > 0 && ReadNameList(payload, offset).Ok? {
      ListErrors(payload, ReadNameList(payload, offset).value.1, index + 1, n - 1);
    }
  }

  /** Ten name-lists in a fixed order; the first six are kept. */
  method ParseKexInit(payload: Bytes) returns (r: Result<KexInit, KexError>)
    ensures r == ParsedKexInit(payload)
    ensures payload == [] ==> r == Err(UnexpectedMessage(-1))
    ensures payload != [] && payload[0] != 20 ==> r == Err(UnexpectedMessage(payload[0]))
    ensures payload != [] && payload[0] == 20 ==> (|payload| < 17 <==> r == Err(ShortCookie))
  {
    ListErrors(payload, 1 + COOKIE_LENGTH, 0, NAME_LISTS);
    hide ReadNameLists;
    if |payload| < 1 || payload[0] != SSH_MSG_KEXINIT {
      return Err(UnexpectedMessage(FirstByteOrNegative(payload)));
    }
    var offset: nat := 1 + COOKIE_LENGTH;
    if offset > |payload| {
      return Err(ShortCookie);
    }
    var nameLists := new seq<Name>[NAME_LISTS](_ => []);
    var error := ReadSlots(payload, offset, nameLists);
    if error.Some? {
      return Err(error.value);
    }
    return Ok(KexInit(nameLists[0], nameLists[1], nameLists[2], nameLists[3], nameLists[4], nameLists[5]));
  }

  lemma PrependError(front: seq<seq<Name>>, e: KexError)
    ensures Prepend(front, Err(e)) == Err(e)
  {
  }

  lemma PrependNothing(front: seq<seq<Name>>)
    ensures Prepend(front, Ok([])) == Ok(front)
  {
    assert front + [] == front;
  }

  /** Ten encodable name-lists are read back, whatever bytes follow them. */
  lemma KexInitRoundTrip(cookie: Bytes, lists: seq<seq<Name>>, rest: Bytes)
    requires KexInitEncodable(cookie, lists)
    ensures ParsedKexInit(BuildKexInit(cookie, lists, rest)) == Ok(FirstSix(lists))
  {
    var payload := BuildKexInit(cookie, lists, rest);
    assert payload[17..] == BuildNameLists(lists) + rest;
    ReadNameListsRoundTrip(payload, 17, 0, lists, rest);
    hide BuildNameLists, ReadNameLists, Encodable;
  }

  /** The payload encodes ten name-lists, of which `k` holds the first six. */
  ghost predicate Encodes(payload: Bytes, cookie: Bytes, lists: seq<seq<Name>>, rest: Bytes, k: KexInit) {
    KexInitEncodable(cookie, lists) && payload == BuildKexInit(cookie, lists, rest) && k == FirstSix(lists)
  }

  /** Exactly the encodings of ten name-lists are accepted, and what is reported is the first six of them. */
  lemma KexInitParsesIff(payload: Bytes, k: KexInit)
    ensures ParsedKexInit(payload) == Ok(k)
            <==> exists cookie: Bytes, lists: seq<seq<Name>>, rest: Bytes :: Encodes(payload, cookie, lists, rest, k)
  {
    if ParsedKexInit(payload) == Ok(k) {
      var cookie, lists, rest := KexInitInverse(payload, k);
    }
    if cookie: Bytes, lists: seq<seq<Name>>, rest: Bytes :| Encodes(payload, cookie, lists, rest, k) {
      KexInitRoundTrip(cookie, lists, rest);
    }
    hide *;
  }

  lemma KexInitInverse(payload: Bytes, k: KexInit) returns (cookie: Bytes, lists: seq<seq<Name>>, rest: Bytes)
    requires ParsedKexInit(payload) == Ok(k)
    ensures Encodes(payload, cookie, lists, rest, k)
  {
    rest := ReadNameListsInverse(payload, 17, 0, NAME_LISTS);
    lists := ReadNameLists(payload, 17, 0, NAME_LISTS).value;
    cookie := payload[1..17];
    hide ReadNameLists, BuildNameLists, Encodable;
    AfterCookie(payload);
  }

  lemma AfterCookie(payload: Bytes)
    requires |payload| >= 17
    ensures payload == [payload[0]] + (payload[1..17] + payload[17..])
  {
  }

  // ----- the first packet of a connection

  datatype ScanError = PacketFailed(packet: PacketError) | KexInitFailed(kexInit: KexError)

  /** One frame holding ten encodable name-lists, then `more`. */
  ghost predicate StreamIs(stream: Bytes, cookie: Bytes, lists: seq<seq<Name>>, rest: Bytes, padding: Bytes, k: KexInit, more: Bytes) {
    var payload := BuildKexInit(cookie, lists, rest);
    Encodes(payload, cookie, lists, rest, k) && Framed(stream, payload, padding, more)
  }

  ghost predicate Offers(stream: Bytes, k: KexInit, more: Bytes) {
    exists cookie: Bytes, lists: seq<seq<Name>>, rest: Bytes, padding: Bytes :: StreamIs(stream, cookie, lists, rest, padding, k, more)
  }

  /** What a server offers in its first packet is what is reported, and nothing else is. */
  lemma OffersIff(stream: Bytes, k: KexInit, more: Bytes)
    ensures Offers(stream, k, more)
            <==> ReadPacket(stream).0.Ok? && ReadPacket(stream).1 == more && ParsedKexInit(ReadPacket(stream).0.value) == Ok(k)
  {
    hide ReadPacket, ParsedKexInit, Encodes, Framed;
    if cookie: Bytes, lists: seq<seq<Name>>, rest: Bytes, padding: Bytes :| StreamIs(stream, cookie, lists, rest, padding, k, more) {
      var payload := BuildKexInit(cookie, lists, rest);
      PacketReadIff(stream, payload, more);
      KexInitParsesIff(payload, k);
    }
    if ReadPacket(stream).0.Ok? && ReadPacket(stream).1 == more && ParsedKexInit(ReadPacket(stream).0.value) == Ok(k) {
      var payload := ReadPacket(stream).0.value;
      PacketReadIff(stream, payload, more);
      KexInitParsesIff(payload, k);
      var padding: Bytes :| Framed(stream, payload, padding, more);
      var cookie: Bytes, lists: seq<seq<Name>>, rest: Bytes :| Encodes(payload, cookie, lists, rest, k);
      EncodesIsBuild(payload, cookie, lists, rest, k);
      assert StreamIs(stream, cookie, lists, rest, padding, k, more);
    }
  }

  lemma EncodesIsBuild(payload: Bytes, cookie: Bytes, lists: seq<seq<Name>>, rest: Bytes, k: KexInit)
    requires Encodes(payload, cookie, lists, rest, k)
    ensures payload == BuildKexInit(cookie, lists, rest)
  {
  }

  lemma OffersAre(stream: Bytes, r: Result<KexInit, ScanError>, left: Bytes)
    requires r.Ok? ==> ReadPacket(stream).0.Ok? && ReadPacket(stream).1 == left && ParsedKexInit(ReadPacket(stream).0.value) == Ok(r.value)
    requires r.Err? ==> ReadPacket(stream).0.Err? || ParsedKexInit(ReadPacket(stream).0.value).Err?
    ensures forall k, more :: Offers(stream, k, more) <==> r == Ok(k) && more == left
  {
    hide *;
    forall k, more ensures Offers(stream, k, more) <==> r == Ok(k) && more == left {
      OffersIff(stream, k, more);
    }
  }

  /** The reading half of a scan once the banner has been seen. */
  method ReadKexInit(reader: Reader) returns (r: Result<KexInit, ScanError>)
    modifies reader
    ensures forall k, more :: Offers(old(reader.remaining), k, more) <==> r == Ok(k) && reader.remaining == more
  {
    hide *;
    ghost var stream := reader.remaining;
    var payload := ReadSSHBinaryPacket(reader);
    if payload.Err? {
      OffersAre(stream, Err(PacketFailed(payload.error)), reader.remaining);
      return Err(PacketFailed(payload.error));
    }
    var kexInit := ParseKexInit(payload.value);
    r := if kexInit.Ok? then Ok(kexInit.value) else Err(KexInitFailed(kexInit.error));
    OffersAre(stream, r, reader.remaining);
  }
}
