/** The IKE_SA_INIT probe: building the request and parsing the response
    (agents/network-scanner/internal/scanner/ipsec.go). */
module IkeScanner {
  import opened BigEndian
  import opened Wrappers
  import opened IkeFormat

  // ----- names

  const ENCRYPTION_NAMES: map<nat, string> := map[
    1 := "DES-IV64", 2 := "DES", 3 := "3DES", 5 := "CAST", 6 := "BLOWFISH", 11 := "NULL", 12 := "AES-CBC", 13 := "AES-CTR",
    18 := "AES-GCM-16", 19 := "AES-GCM-12", 20 := "AES-GCM-8", 23 := "CHACHA20-POLY1305"]

  const PRF_NAMES: map<nat, string> := map[
    1 := "HMAC-MD5", 2 := "HMAC-SHA1", 4 := "AES128-XCBC", 5 := "HMAC-SHA2-256", 6 := "HMAC-SHA2-384", 7 := "HMAC-SHA2-512"]

  const INTEGRITY_NAMES: map<nat, string> := map[
    0 := "NONE", 1 := "HMAC-MD5-96", 2 := "HMAC-SHA1-96", 3 := "DES-MAC", 4 := "KPDK-MD5", 5 := "AES-XCBC-96",
    12 := "HMAC-SHA2-256-128", 13 := "HMAC-SHA2-384-192", 14 := "HMAC-SHA2-512-256"]

  const DH_GROUP_NAMES: map<nat, string> := map[
    1 := "768-bit MODP", 2 := "1024-bit MODP", 5 := "1536-bit MODP", 14 := "2048-bit MODP", 15 := "3072-bit MODP",
    16 := "4096-bit MODP", 19 := "256-bit random ECP", 20 := "384-bit random ECP", 21 := "521-bit random ECP", 31 := "Curve25519"]

  const NOTIFY_NAMES: map<nat, string> := map[
    14 := "NO_PROPOSAL_CHOSEN", 17 := "INVALID_KE_PAYLOAD", 24 := "AUTHENTICATION_FAILED", 34 := "TEMPORARY_FAILURE"]

  function Decimal(n: nat): (s: string)
    ensures s != ""
  {
    if n < 10 then [('0' as int + n) as char] else Decimal(n / 10) + Decimal(n % 10)
  }

  function LookupOrNumeric(names: map<nat, string>, id: nat): string {
    if id in names then names[id] else "unknown(" + Decimal(id) + ")"
  }

  /** The number a string of decimal digits stands for. */
  ghost function ValueOf(digits: string): int {
    if digits == [] then 0 else 10 * ValueOf(digits[..|digits| - 1]) + (digits[|digits| - 1] as int - '0' as int)
  }

  lemma {:induction false} DecimalReadsBack(n: nat)
    ensures ValueOf(Decimal(n)) == n && forall c | c in Decimal(n) :: '0' <= c <= '9'
  {
    if n < 10 {
      assert Decimal(n)[..0] == [];
    } else {
      DecimalReadsBack(n / 10);
      var front, last := Decimal(n / 10), Decimal(n % 10);
      assert |last| == 1 && Decimal(n)[..|Decimal(n)| - 1] == front;
    }
  }

  /** An id without a name is still told apart from every other such id. */
  lemma UnknownIdsDiffer(names: map<nat, string>, id: nat, id': nat)
    requires id !in names && id' !in names && LookupOrNumeric(names, id) == LookupOrNumeric(names, id')
    ensures id == id'
  {
    DecimalReadsBack(id);
    DecimalReadsBack(id');
    var name := LookupOrNumeric(names, id);
    assert name == "unknown(" + Decimal(id) + ")" == "unknown(" + Decimal(id') + ")";
    assert name[8..|name| - 1] == Decimal(id) == Decimal(id');
  }

  lemma NamesAreNotEmpty(id: nat)
    ensures LookupOrNumeric(ENCRYPTION_NAMES, id) != "" && LookupOrNumeric(NOTIFY_NAMES, id) != ""
  {
  }

  // ----- the result record

  class IkeResult {
    var ikeVersion: string
    var selectedEncryption: string
    var selectedPRF: string
    var selectedIntegrity: string
    var selectedDHGroup: string
    var rejectedNotify: string

    constructor (version: string)
      ensures ikeVersion == version && Names() == NO_NAMES && rejectedNotify == ""
    {
      ikeVersion, rejectedNotify := version, "";
      selectedEncryption, selectedPRF, selectedIntegrity, selectedDHGroup := "", "", "", "";
    }

    ghost function Names(): Selected
      reads this
    {
      Selected(selectedEncryption, selectedPRF, selectedIntegrity, selectedDHGroup)
    }
  }

  datatype Selected = Selected(encryption: string, prf: string, integrity: string, dhGroup: string)

  const NO_NAMES := Selected("", "", "", "")

  function Select(s: Selected, t: (Byte, nat)): Selected {
    if t.0 == ENCR then s.(encryption := LookupOrNumeric(ENCRYPTION_NAMES, t.1))
    else if t.0 == PRF then s.(prf := LookupOrNumeric(PRF_NAMES, t.1))
    else if t.0 == INTEG then s.(integrity := LookupOrNumeric(INTEGRITY_NAMES, t.1))
    else if t.0 == DH then s.(dhGroup := LookupOrNumeric(DH_GROUP_NAMES, t.1))
    else s
  }

  function SelectAll(s: Selected, ts: seq<(Byte, nat)>): Selected
    decreases |ts|
  {
    if ts == [] then s else SelectAll(Select(s, ts[0]), ts[1..])
  }

  // ----- what a list of transforms means, independently of the order of assignments

  /** The id of the last transform of type `typ`. */
  function LastId(ts: seq<(Byte, nat)>, typ: Byte): Option<nat> {
    if ts == [] then None
    else if ts[|ts| - 1].0 == typ then Some(ts[|ts| - 1].1)
    else LastId(ts[..|ts| - 1], typ)
  }

  function NameOf(names: map<nat, string>, id: Option<nat>): string {
    if id == None then "" else LookupOrNumeric(names, id.value)
  }

  function Reported(ts: seq<(Byte, nat)>): Selected {
    Selected(NameOf(ENCRYPTION_NAMES, LastId(ts, ENCR)), NameOf(PRF_NAMES, LastId(ts, PRF)),
             NameOf(INTEGRITY_NAMES, LastId(ts, INTEG)), NameOf(DH_GROUP_NAMES, LastId(ts, DH)))
  }

  lemma {:induction false} SelectAllSplits(s: Selected, ts: seq<(Byte, nat)>, us: seq<(Byte, nat)>)
    ensures SelectAll(s, ts + us) == SelectAll(SelectAll(s, ts), us)
    decreases |ts|
  {
    if ts == [] {
      assert ts + us == us;
    } else {
      assert (ts + us)[1..] == ts[1..] + us;
      SelectAllSplits(Select(s, ts[0]), ts[1..], us);
    }
  }

  lemma OneMoreReported(ts: seq<(Byte, nat)>, t: (Byte, nat))
    ensures Reported(ts + [t]) == Select(Reported(ts), t)
  {
    hide LookupOrNumeric;
    assert (ts + [t])[..|ts|] == ts;
  }

  /** Assigning name after name leaves the name of the last transform of each type. */
  lemma {:induction false} LastTransformWins(ts: seq<(Byte, nat)>)
    ensures SelectAll(NO_NAMES, ts) == Reported(ts)
  {
    if ts != [] {
      var front, last := ts[..|ts| - 1], ts[|ts| - 1];
      LastTransformWins(front);
      OneMoreReported(front, last);
      SelectAllSplits(NO_NAMES, front, [last]);
      assert ts == front + [last];
      SelectCons(Reported(front), last, []);
      SelectNone(Select(Reported(front), last));
      assert [last] + [] == [last];
      hide Select, Reported, SelectAll;
    }
  }

  method SelectOne(transformType: Byte, transformID: nat, result: IkeResult)
    modifies result
    ensures result.Names() == Select(old(result.Names()), (transformType, transformID))
    ensures result.ikeVersion == old(result.ikeVersion) && result.rejectedNotify == old(result.rejectedNotify)
  {
    hide LookupOrNumeric;
    if transformType == ENCR {
      result.selectedEncryption := LookupOrNumeric(ENCRYPTION_NAMES, transformID);
    } else if transformType == PRF {
      result.selectedPRF := LookupOrNumeric(PRF_NAMES, transformID);
    } else if transformType == INTEG {
      result.selectedIntegrity := LookupOrNumeric(INTEGRITY_NAMES, transformID);
    } else if transformType == DH {
      result.selectedDHGroup := LookupOrNumeric(DH_GROUP_NAMES, transformID);
    }
  }

  /** Selecting, on top of `names`, the transforms still to be read at `offset` gives `goal`. */
  ghost predicate Pending(goal: Selected, names: Selected, body: Bytes, offset: nat, count: nat) {
    goal == SelectAll(names, if offset <= |body| then TransformsIn(body[offset..], count) else [])
  }

  lemma NothingPending(goal: Selected, names: Selected, body: Bytes, offset: nat, count: nat)
    requires Pending(goal, names, body, offset, count)
    requires count == 0 || offset + 8 > |body| || var l := U16(body[offset + 2], body[offset + 3]); l < 8 || offset + l > |body|
    ensures goal == names
  {
    hide Select;
  }

  lemma OneAccountedFor(goal: Selected, names: Selected, body: Bytes, offset: nat, count: nat, length: nat)
    requires count > 0 && offset + 8 <= |body| && length == U16(body[offset + 2], body[offset + 3])
    requires 8 <= length && offset + length <= |body| && Pending(goal, names, body, offset, count)
    ensures Pending(goal, Select(names, (body[offset + 4], U16(body[offset + 6], body[offset + 7]))), body, offset + length, count - 1)
  {
    var tail := body[offset..];
    assert body[offset + length..] == tail[length..];
    SelectCons(names, (body[offset + 4], U16(body[offset + 6], body[offset + 7])), TransformsIn(tail[length..], count - 1));
    hide U16, Select, SelectAll;
  }

  lemma AllPending(names: Selected, body: Bytes)
    ensures |body| < 8 ==> SelectAll(names, TransformsOf(body)) == names
    ensures |body| >= 8 ==> Pending(SelectAll(names, TransformsOf(body)), names, body, 8 + (body[6] as int), body[7])
  {
    hide Select;
  }

  /** One round of the loop over the transforms; a malformed transform ends it. */
  method ApplyTransformAt(saBody: Bytes, offset: nat, count: nat, result: IkeResult, ghost goal: Selected) returns (length: Option<nat>)
    requires count > 0 && offset + 8 <= |saBody| && Pending(goal, result.Names(), saBody, offset, count)
    modifies result
    ensures length.None? ==> result.Names() == goal
    ensures length.Some? ==> length.value >= 8 && Pending(goal, result.Names(), saBody, offset + length.value, count - 1)
    ensures result.ikeVersion == old(result.ikeVersion) && result.rejectedNotify == old(result.rejectedNotify)
  {
    hide Pending, Select, SelectAll;
    var transformType := saBody[offset + 4];
    var transformID := U16(saBody[offset + 6], saBody[offset + 7]);
    var transformLength := U16(saBody[offset + 2], saBody[offset + 3]);
    if transformLength < 8 || offset + transformLength > |saBody| {
      NothingPending(goal, result.Names(), saBody, offset, count);
      return None;
    }
    OneAccountedFor(goal, result.Names(), saBody, offset, count, transformLength);
    SelectOne(transformType, transformID, result);
    return Some(transformLength);
  }

  method ApplySelectedTransforms(saBody: Bytes, result: IkeResult)
    modifies result
    ensures result.Names() == SelectAll(old(result.Names()), TransformsOf(saBody))
    ensures result.ikeVersion == old(result.ikeVersion) && result.rejectedNotify == old(result.rejectedNotify)
  {
    ghost var goal := SelectAll(result.Names(), TransformsOf(saBody));
    AllPending(result.Names(), saBody);
    hide *;
    if |saBody| < 8 {
      return;
    }
    var numTransforms := saBody[7] as int;
    var offset: nat := 8 + (saBody[6] as int);
    var i := 0;
    while i < numTransforms && offset + 8 <= |saBody|
      invariant 0 <= i <= numTransforms
      invariant Pending(goal, result.Names(), saBody, offset, numTransforms - i)
      invariant result.ikeVersion == old(result.ikeVersion) && result.rejectedNotify == old(result.rejectedNotify)
      decreases numTransforms - i
    {
      var length := ApplyTransformAt(saBody, offset, numTransforms - i, result, goal);
      if length.None? {
        return;
      }
      offset := offset + length.value;
      i := i + 1;
    }
    NothingPending(goal, result.Names(), saBody, offset, numTransforms - i);
  }

  lemma SelectNone(s: Selected)
    ensures SelectAll(s, []) == s
  {
  }

  lemma SelectCons(s: Selected, t: (Byte, nat), ts: seq<(Byte, nat)>)
    ensures SelectAll(s, [t] + ts) == SelectAll(Select(s, t), ts)
  {
    assert ([t] + ts)[1..] == ts;
  }

  // ----- notify payloads

  function ReadNotifyType(body: Bytes): Option<nat> {
    if |body| < 4 then None
    else
      var spiSize := body[1] as int;
      if 4 + spiSize > |body| then None else Some(U16(body[2 + spiSize], body[3 + spiSize]))
  }

  lemma NotifyWithoutSpi(protocol: Byte, messageType: nat, data: Bytes)
    requires messageType < 65536
    ensures ReadNotifyType(BuildNotify(protocol, messageType, [], data)) == Some(messageType)
  {
    var body := BuildNotify(protocol, messageType, [], data);
    U16RoundTrip(messageType);
    assert body[2] == High(messageType) && body[3] == Low(messageType);
    hide High, Low, U16;
  }

  /** A message of type 0 whose SPI is all ones is read as another type. */
  lemma NotifyWithSpi(protocol: Byte, spi: Bytes)
    requires 0 < |spi| < 256 && forall i | 0 <= i < |spi| :: spi[i] == 1
    ensures ReadNotifyType(BuildNotify(protocol, 0, spi, [])) != Some(0)
  {
    var body := BuildNotify(protocol, 0, spi, []);
    assert |body| == 4 + |spi| && body[1] == |spi| && body[3 + |spi|] == 1;
  }

  /** The code looks for the message type behind the SPI, section 3.10 of RFC 7296 puts it in front: for a
      given SPI size every message is read correctly iff that size is zero. */
  lemma NotifyReadCorrectlyIff(protocol: Byte, spiSize: Byte)
    ensures (forall messageType: nat, spi: Bytes, data: Bytes | messageType < 65536 && |spi| == spiSize as int ::
               ReadNotifyType(BuildNotify(protocol, messageType, spi, data)) == Some(messageType))
            <==> spiSize == 0
  {
    hide ReadNotifyType, BuildNotify;
    if spiSize == 0 {
      forall messageType: nat, spi: Bytes, data: Bytes | messageType < 65536 && |spi| == spiSize as int
        ensures ReadNotifyType(BuildNotify(protocol, messageType, spi, data)) == Some(messageType)
      {
        assert spi == [];
        NotifyWithoutSpi(protocol, messageType, data);
      }
    } else {
      var spi: Bytes := seq(spiSize as int, _ => 1);
      NotifyWithSpi(protocol, spi);
    }
  }

  /** What is read instead: the two bytes `spiSize` further on. */
  lemma NotifyReadAt(protocol: Byte, messageType: nat, spi: Bytes, data: Bytes)
    requires |spi| < 256
    ensures var fields := [High(messageType), Low(messageType)] + (spi + data);
            ReadNotifyType(BuildNotify(protocol, messageType, spi, data)) == Some(U16(fields[|spi|], fields[|spi| + 1]))
  {
    var body := BuildNotify(protocol, messageType, spi, data);
    assert body[2 + |spi|..] == ([High(messageType), Low(messageType)] + (spi + data))[|spi|..];
  }

  // ----- the response

  datatype ParseError =
    | TooShort(length: nat)
    | SpiMismatch
    | UnexpectedExchange(exchange: Byte)
    | NotAResponse
    | Malformed(offset: nat, length: nat)

  function SaTransforms(ps: seq<Payload>): seq<(Byte, nat)> {
    if ps == [] then []
    else SaTransforms(ps[..|ps| - 1]) + (if ps[|ps| - 1].typ == PAYLOAD_SA then TransformsOf(ps[|ps| - 1].body) else [])
  }

  function Notifies(ps: seq<Payload>): seq<nat> {
    if ps == [] then []
    else
      var last := ps[|ps| - 1];
      Notifies(ps[..|ps| - 1]) +
      (if last.typ == PAYLOAD_NOTIFY && ReadNotifyType(last.body).Some? then [ReadNotifyType(last.body).value] else [])
  }

  function Version(b: Byte): string {
    Decimal(b / 16) + "." + Decimal(b % 16)
  }

  predicate IsResponse(flags: Byte) {
    flags / 32 % 2 == 1
  }

  lemma VersionOf(major: nat, minor: nat)
    requires major < 16 && minor < 16
    ensures Version(16 * major + minor) == Decimal(major) + "." + Decimal(minor)
  {
  }

  /** The checks on the header, in the order they are made. */
  function HeaderError(data: Bytes, initSpi: Bytes): Option<ParseError>
    requires |initSpi| <= HEADER_LENGTH
  {
    if |data| < HEADER_LENGTH then Some(TooShort(|data|))
    else if data[..|initSpi|] != initSpi then Some(SpiMismatch)
    else if data[18] != EXCHANGE_SA_INIT then Some(UnexpectedExchange(data[18]))
    else if !IsResponse(data[19]) then Some(NotAResponse)
    else None
  }

  /** On the bits: whatever the two bits above and the five bits below it are, bit 0x20 of the flags decides. */
  lemma ResponseBit(data: Bytes, initSpi: Bytes, high: nat, low: nat)
    requires |initSpi| <= HEADER_LENGTH <= |data| && data[..|initSpi|] == initSpi && data[18] == 34 && high < 4 && low < 32
    ensures data[19] == 64 * high + low ==> HeaderError(data, initSpi) == Some(NotAResponse)
    ensures data[19] == 64 * high + 32 + low ==> HeaderError(data, initSpi) == None
  {
  }

  function Payloads(data: Bytes): Chain
    requires |data| >= HEADER_LENGTH
  {
    Walk(data[HEADER_LENGTH..], data[16])
  }

  lemma OneMorePayload(before: seq<Payload>, p: Payload)
    ensures SaTransforms(before + [p]) == if p.typ == PAYLOAD_SA then SaTransforms(before) + TransformsOf(p.body) else SaTransforms(before)
    ensures Notifies(before + [p]) ==
            if p.typ == PAYLOAD_NOTIFY && ReadNotifyType(p.body).Some? then Notifies(before) + [ReadNotifyType(p.body).value]
            else Notifies(before)
  {
    assert (before + [p])[..|before|] == before;
  }

  /** A rejection is reported exactly when no encryption transform was selected and some notify could be
      read, and it names the first one. */
  ghost predicate RejectionRule(encryption: string, notifies: seq<nat>, rejected: string) {
    rejected == if encryption == "" && notifies != [] then LookupOrNumeric(NOTIFY_NAMES, notifies[0]) else ""
  }

  /** Total on every byte string: each index is in bounds, each payload moves the offset by at least 4 and
      each transform by at least 8. */
  method ParseIKESAInitResponse(data: Bytes, initSpi: Bytes) returns (r: Result<IkeResult, ParseError>)
    requires |initSpi| <= HEADER_LENGTH
    ensures r.Ok? <==> HeaderError(data, initSpi) == None && !Payloads(data).malformed
    ensures |data| < 28 <==> r == Err(TooShort(|data|))
    ensures |data| >= 28 ==> (data[..|initSpi|] != initSpi <==> r == Err(SpiMismatch))
    ensures |data| >= 28 && data[..|initSpi|] == initSpi ==> (data[18] != 34 <==> r == Err(UnexpectedExchange(data[18])))
    ensures |data| >= 28 && data[..|initSpi|] == initSpi && data[18] == 34 ==> (data[19] % 64 < 32 <==> r == Err(NotAResponse))
    ensures HeaderError(data, initSpi) == None && r.Err? ==>
              r.error.Malformed? && r.error.offset == |data| - |Payloads(data).rest|
    ensures r.Ok? ==>
              && fresh(r.value)
              && r.value.ikeVersion == Version(data[17])
              && r.value.Names() == Reported(SaTransforms(Payloads(data).payloads))
              && RejectionRule(r.value.selectedEncryption, Notifies(Payloads(data).payloads), r.value.rejectedNotify)
  {
    if |data| < HEADER_LENGTH {
      return Err(TooShort(|data|));
    }
    for i := 0 to |initSpi|
      invariant data[..i] == initSpi[..i]
    {
      if data[i] != initSpi[i] {
        assert data[..|initSpi|][i] != initSpi[i];
        return Err(SpiMismatch);
      }
    }
    assert initSpi[..|initSpi|] == initSpi;
    if data[18] != EXCHANGE_SA_INIT {
      return Err(UnexpectedExchange(data[18]));
    }
    if data[19] / 32 % 2 == 0 {
      return Err(NotAResponse);
    }
    var result := new IkeResult(Version(data[17]));
    r := ParsePayloads(data, result);
  }

  /** What one payload changes in the names selected so far and in the notify types seen so far. */
  ghost predicate Handled(p: Payload, names: Selected, notifies: seq<nat>, names': Selected, notifies': seq<nat>) {
    && names' == (if p.typ == PAYLOAD_SA then SelectAll(names, TransformsOf(p.body)) else names)
    && notifies' == (if p.typ == PAYLOAD_NOTIFY && ReadNotifyType(p.body).Some? then notifies + [ReadNotifyType(p.body).value] else notifies)
  }

  /** The switch on the payload type. */
  method HandlePayload(payloadType: Byte, body: Bytes, result: IkeResult, notifyTypes: seq<nat>, ghost p: Payload) returns (notifies: seq<nat>)
    requires p.typ == payloadType && p.body == body
    modifies result
    ensures Handled(p, old(result.Names()), notifyTypes, result.Names(), notifies)
    ensures result.ikeVersion == old(result.ikeVersion) && result.rejectedNotify == old(result.rejectedNotify)
  {
    hide TransformsOf, ReadNotifyType, SelectAll;
    notifies := notifyTypes;
    if payloadType == PAYLOAD_SA {
      ApplySelectedTransforms(body, result);
    } else if payloadType == PAYLOAD_NOTIFY {
      var notifyType := ReadNotifyType(body);
      if notifyType.Some? {
        notifies := notifies + [notifyType.value];
      }
    }
  }

  /** The loop over the payloads: those in `found` have been dealt with, and the walk over the rest is what
      is left of the whole walk. */
  ghost predicate Parsed(whole: Chain, found: seq<Payload>, tail: Bytes, next: Byte, names: Selected, notifies: seq<nat>) {
    && names == SelectAll(NO_NAMES, SaTransforms(found)) && notifies == Notifies(found)
    && PartlyWalked(whole, found, tail, next)
  }

  ghost predicate PartlyWalked(whole: Chain, found: seq<Payload>, tail: Bytes, next: Byte) {
    var c := Walk(tail, next);
    whole == c.(payloads := found + c.payloads)
  }

  lemma NothingParsed(tail: Bytes, next: Byte)
    ensures Parsed(Walk(tail, next), [], tail, next, NO_NAMES, [])
  {
    var c := Walk(tail, next);
    assert [] + c.payloads == c.payloads;
    hide Walk;
  }

  lemma HandledOneMore(found: seq<Payload>, p: Payload, names: Selected, notifies: seq<nat>)
    requires Handled(p, SelectAll(NO_NAMES, SaTransforms(found)), Notifies(found), names, notifies)
    ensures names == SelectAll(NO_NAMES, SaTransforms(found + [p])) && notifies == Notifies(found + [p])
  {
    OneMorePayload(found, p);
    SelectAllSplits(NO_NAMES, SaTransforms(found), TransformsOf(p.body));
    hide SelectAll, SaTransforms, TransformsOf, Notifies, ReadNotifyType;
  }

  lemma WalksOn(whole: Chain, found: seq<Payload>, tail: Bytes, next: Byte, length: nat)
    requires PartlyWalked(whole, found, tail, next) && next != PAYLOAD_NONE && 4 <= |tail|
    requires length == U16(tail[2], tail[3]) && 4 <= length <= |tail|
    ensures PartlyWalked(whole, found + [Payload(next, tail[1], tail[4..length])], tail[length..], tail[0])
  {
    var p, c := Payload(next, tail[1], tail[4..length]), Walk(tail[length..], tail[0]);
    assert found + ([p] + c.payloads) == found + [p] + c.payloads;
  }

  lemma StopsMalformed(whole: Chain, found: seq<Payload>, tail: Bytes, next: Byte)
    requires PartlyWalked(whole, found, tail, next) && next != PAYLOAD_NONE && 4 <= |tail|
    requires U16(tail[2], tail[3]) < 4 || U16(tail[2], tail[3]) > |tail|
    ensures whole == Chain(found, next, tail, true)
  {
    assert found + [] == found;
  }

  lemma StopsAtEnd(whole: Chain, found: seq<Payload>, tail: Bytes, next: Byte)
    requires PartlyWalked(whole, found, tail, next) && (next == PAYLOAD_NONE || |tail| < 4)
    ensures whole == Chain(found, next, tail, false)
  {
    assert found + [] == found;
  }

  /** The bytes still to be walked over. */
  ghost function From(data: Bytes, offset: nat): Bytes
    requires offset <= |data|
  {
    data[offset..]
  }

  lemma FromHeader(data: Bytes, offset: nat)
    requires offset + 4 <= |data|
    ensures var tail := From(data, offset);
            |tail| == |data| - offset && tail[0] == data[offset] && tail[2] == data[offset + 2] && tail[3] == data[offset + 3]
  {
  }

  lemma FromSlices(data: Bytes, offset: nat, length: nat)
    requires 4 <= length && offset + length <= |data|
    ensures data[offset + 4..offset + length] == From(data, offset)[4..length]
    ensures From(data, offset + length) == From(data, offset)[length..]
  {
  }

  lemma OneMoreParsed(whole: Chain, found: seq<Payload>, tail: Bytes, length: nat, p: Payload, names: Selected, notifies: seq<nat>, names': Selected, notifies': seq<nat>)
    requires 4 <= |tail| && length == U16(tail[2], tail[3]) && 4 <= length <= |tail|
    requires p.typ != PAYLOAD_NONE && p.flags == tail[1] && p.body == tail[4..length]
    requires Parsed(whole, found, tail, p.typ, names, notifies) && Handled(p, names, notifies, names', notifies')
    ensures Parsed(whole, found + [p], tail[length..], tail[0], names', notifies')
  {
    WalksOn(whole, found, tail, p.typ, length);
    HandledOneMore(found, p, names', notifies');
    hide U16, SelectAll, SaTransforms, Notifies, PartlyWalked, Handled;
  }

  function MalformedAt(length: nat, rest: Bytes): ParseError
    requires |rest| <= length
  {
    Malformed(length - |rest|, if |rest| < 4 then 0 else U16(rest[2], rest[3]))
  }

  lemma ParsedMalformed(whole: Chain, found: seq<Payload>, tail: Bytes, next: Byte, names: Selected, notifies: seq<nat>)
    requires Parsed(whole, found, tail, next, names, notifies) && next != PAYLOAD_NONE && 4 <= |tail|
    requires !(4 <= U16(tail[2], tail[3]) <= |tail|)
    ensures whole.malformed && whole.rest == tail && names == Reported(SaTransforms(whole.payloads))
  {
    StopsMalformed(whole, found, tail, next);
    LastTransformWins(SaTransforms(found));
    hide U16, Reported, SelectAll, SaTransforms, Notifies, PartlyWalked;
  }

  lemma ParsedAll(whole: Chain, found: seq<Payload>, tail: Bytes, next: Byte, names: Selected, notifies: seq<nat>)
    requires Parsed(whole, found, tail, next, names, notifies) && (next == PAYLOAD_NONE || |tail| < 4)
    ensures !whole.malformed && names == Reported(SaTransforms(whole.payloads)) && notifies == Notifies(whole.payloads)
  {
    StopsAtEnd(whole, found, tail, next);
    LastTransformWins(SaTransforms(found));
    hide Reported, SelectAll, SaTransforms, Notifies, PartlyWalked;
  }

  lemma MalformedHere(data: Bytes, whole: Chain, found: seq<Payload>, offset: nat, next: Byte, names: Selected, notifies: seq<nat>)
    requires offset + 4 <= |data| && Parsed(whole, found, From(data, offset), next, names, notifies) && next != PAYLOAD_NONE
    requires !(4 <= U16(data[offset + 2], data[offset + 3]) <= |data| - offset)
    ensures whole.malformed && |whole.rest| <= |data|
    ensures MalformedAt(|data|, whole.rest) == Malformed(offset, U16(data[offset + 2], data[offset + 3]))
    ensures names == Reported(SaTransforms(whole.payloads))
  {
    FromHeader(data, offset);
    ParsedMalformed(whole, found, From(data, offset), next, names, notifies);
    hide U16, Reported, SaTransforms, Parsed, From;
  }

  /** One well-formed payload. */
  method ParsePayloadAt(data: Bytes, offset: nat, length: nat, payloadType: Byte, result: IkeResult, notifyTypes: seq<nat>, ghost whole: Chain, ghost found: seq<Payload>)
    returns (notifies: seq<nat>, ghost p: Payload)
    requires payloadType != PAYLOAD_NONE && offset + 4 <= offset + length <= |data| && length == U16(data[offset + 2], data[offset + 3])
    requires Parsed(whole, found, From(data, offset), payloadType, result.Names(), notifyTypes)
    modifies result
    ensures result.ikeVersion == old(result.ikeVersion) && result.rejectedNotify == old(result.rejectedNotify)
    ensures Parsed(whole, found + [p], From(data, offset + length), data[offset], result.Names(), notifies)
  {
    FromHeader(data, offset);
    FromSlices(data, offset, length);
    hide *;
    var payloadBody := data[offset + 4..offset + length];
    p := Payload(payloadType, From(data, offset)[1], payloadBody);
    ghost var names := result.Names();
    notifies := HandlePayload(payloadType, payloadBody, result, notifyTypes, p);
    OneMoreParsed(whole, found, From(data, offset), length, p, names, notifyTypes, result.Names(), notifies);
  }

  method ParsePayloads(data: Bytes, result: IkeResult) returns (r: Result<IkeResult, ParseError>)
    requires |data| >= HEADER_LENGTH && result.Names() == NO_NAMES && result.rejectedNotify == ""
    modifies result
    ensures r == if Payloads(data).malformed then Err(MalformedAt(|data|, Payloads(data).rest)) else Ok(result)
    ensures result.ikeVersion == old(result.ikeVersion)
    ensures result.Names() == Reported(SaTransforms(Payloads(data).payloads))
    ensures r.Ok? ==> RejectionRule(result.selectedEncryption, Notifies(Payloads(data).payloads), result.rejectedNotify)
  {
    var nextPayload := data[16];
    var offset: nat := HEADER_LENGTH;
    var notifyTypes: seq<nat> := [];
    ghost var found: seq<Payload> := [];
    ghost var whole := Payloads(data);
    NothingParsed(From(data, offset), nextPayload);
    hide U16, Reported, SaTransforms, Notifies, Parsed, Payloads, LookupOrNumeric, MalformedAt, From;
    while nextPayload != PAYLOAD_NONE && offset + 4 <= |data|
      invariant offset <= |data|
      invariant Parsed(whole, found, From(data, offset), nextPayload, result.Names(), notifyTypes)
      invariant result.ikeVersion == old(result.ikeVersion) && result.rejectedNotify == ""
      decreases |data| - offset
    {
      var payloadLength := U16(data[offset + 2], data[offset + 3]);
      if payloadLength < 4 || offset + payloadLength > |data| {
        MalformedHere(data, whole, found, offset, nextPayload, result.Names(), notifyTypes);
        return Err(Malformed(offset, payloadLength));
      }
      ghost var p;
      notifyTypes, p := ParsePayloadAt(data, offset, payloadLength, nextPayload, result, notifyTypes, whole, found);
      nextPayload := data[offset];
      found := found + [p];
      offset := offset + payloadLength;
    }
    FromLength(data, offset);
    ParsedAll(whole, found, From(data, offset), nextPayload, result.Names(), notifyTypes);
    if result.selectedEncryption == "" && |notifyTypes| > 0 {
      result.rejectedNotify := LookupOrNumeric(NOTIFY_NAMES, notifyTypes[0]);
    }
    return Ok(result);
  }

  lemma FromLength(data: Bytes, offset: nat)
    requires offset <= |data|
    ensures |From(data, offset)| == |data| - offset
  {
  }
}
