/** The SSH wire formats the scanner reads, written as encoders: the binary packet of section 6 of RFC 4253,
    the name-list of section 5 of RFC 4251, and SSH_MSG_KEXINIT of section 7.1 of RFC 4253. */
module SshFormat {
  import opened BigEndian
  import opened Wrappers

  const SSH_MSG_KEXINIT: Byte := 20
  const MAX_PACKET_LENGTH := 256 * 1024
  const COOKIE_LENGTH := 16
  const COMMA: Byte := 44

  // ----- binary packets

  /** Packet length, padding length, payload, padding; no MAC before the keys are exchanged. */
  function Frame(payload: Bytes, padding: Bytes): Bytes
    requires |padding| < 256
  {
    U32Bytes(1 + |payload| + |padding|) + ([|padding|] + (payload + padding))
  }

  /** At least four bytes of padding, and enough to make the whole a multiple of eight. */
  ghost predicate PaddedAsRequired(payload: Bytes, padding: Bytes) {
    4 <= |padding| < 256 && (5 + |payload| + |padding|) % 8 == 0
  }

  lemma PaddingExists(payload: Bytes)
    ensures exists padding: Bytes :: PaddedAsRequired(payload, padding) && |padding| < 12
  {
    var n := 4 + (8 - (9 + |payload|) % 8) % 8;
    var padding: Bytes := seq(n, _ => 0);
    assert PaddedAsRequired(payload, padding);
  }

  ghost predicate FitsInPacket(payload: Bytes, padding: Bytes) {
    payload != [] && |padding| < 256 && 1 + |payload| + |padding| <= MAX_PACKET_LENGTH
  }

  lemma FrameFields(payload: Bytes, padding: Bytes, rest: Bytes)
    requires FitsInPacket(payload, padding)
    ensures var s := Frame(payload, padding) + rest;
            var n := 1 + |payload| + |padding|;
            && |s| == 4 + n + |rest| && U32(s[..4]) == n && s[4..4 + n] == [|padding|] + (payload + padding)
            && s[4 + n..] == rest
  {
    var n := 1 + |payload| + |padding|;
    var body: Bytes := [|padding|] + (payload + padding);
    assert n < 0x1_0000_0000;
    hide *;
    U32RoundTrip(n);
    FrameIs(payload, padding);
    ThreeParts(U32Bytes(n), body, rest);
  }

  lemma FrameIs(payload: Bytes, padding: Bytes)
    requires |padding| < 256
    ensures var length := U32Bytes(1 + |payload| + |padding|);
            |length| == 4 && Frame(payload, padding) == length + ([|padding|] + (payload + padding))
  {
  }

  lemma ThreeParts(a: Bytes, b: Bytes, c: Bytes)
    ensures var s := (a + b) + c;
            && |s| == |a| + |b| + |c| && s[..|a|] == a && s[|a|..|a| + |b|] == b && s[|a| + |b|..] == c
  {
  }

  lemma PacketSplits(packet: Bytes, payload: Bytes, padding: Bytes)
    requires packet != [] && packet[0] as int == |padding| && packet[1..] == payload + padding
    ensures |packet| == 1 + |payload| + |padding| && U32Bytes(|packet|) + packet == Frame(payload, padding)
  {
    var length := U32Bytes(|packet|);
    assert packet == [packet[0]] + packet[1..];
    hide U32Bytes;
  }

  /** Conversely, a length followed by that many bytes is a frame. */
  lemma FrameBytes(length: Bytes, packet: Bytes, end: nat)
    requires |length| == 4 && packet != [] && |packet| == U32(length) && end == |packet| - packet[0] as int && 1 <= end
    ensures |packet[end..]| == packet[0] as int && length + packet == Frame(packet[1..end], packet[end..])
  {
    U32OfBytes(length);
    hide *;
    PacketSplits(packet, packet[1..end], packet[end..]);
  }

  // ----- name-lists

  type Name = Bytes

  function Join(names: seq<Name>): Bytes {
    if names == [] then []
    else if |names| == 1 then names[0]
    else names[0] + ([COMMA] + Join(names[1..]))
  }

  /** Everything between commas; one piece more than there are commas. */
  function Split(raw: Bytes): (pieces: seq<Name>)
    ensures |pieces| >= 1
  {
    if raw == [] then [[]]
    else
      var pieces := Split(raw[1..]);
      if raw[0] == COMMA then [[]] + pieces else [[raw[0]] + pieces[0]] + pieces[1..]
  }

  ghost predicate CommaFree(names: seq<Name>) {
    forall name | name in names :: COMMA !in name
  }

  lemma {:induction false} JoinOfSplit(raw: Bytes)
    ensures Join(Split(raw)) == raw && CommaFree(Split(raw))
  {
    if raw != [] {
      JoinOfSplit(raw[1..]);
      var pieces := Split(raw[1..]);
      if raw[0] == COMMA {
        assert ([[]] + pieces)[1..] == pieces;
        assert raw == [] + ([COMMA] + raw[1..]);
      } else {
        JoinFirst([raw[0]], pieces[0], pieces[1..]);
        assert [pieces[0]] + pieces[1..] == pieces;
        assert raw == [raw[0]] + raw[1..];
      }
    }
  }

  lemma JoinFirst(front: Bytes, name: Name, names: seq<Name>)
    ensures Join([front + name] + names) == front + Join([name] + names)
  {
    assert ([front + name] + names)[1..] == names && ([name] + names)[1..] == names;
    if names != [] {
      assert (front + name) + ([COMMA] + Join(names)) == front + (name + ([COMMA] + Join(names)));
    }
  }

  lemma {:induction false} SplitOneName(name: Name)
    requires COMMA !in name
    ensures Split(name) == [name]
  {
    if name != [] {
      SplitOneName(name[1..]);
      assert [name[0]] + name[1..] == name;
    }
  }

  lemma {:induction false} SplitFirstName(name: Name, raw: Bytes)
    requires COMMA !in name
    ensures Split(name + ([COMMA] + raw)) == [name] + Split(raw)
  {
    if name == [] {
      assert name + ([COMMA] + raw) == [COMMA] + raw;
      assert ([COMMA] + raw)[1..] == raw;
    } else {
      SplitFirstName(name[1..], raw);
      assert (name + ([COMMA] + raw))[1..] == name[1..] + ([COMMA] + raw);
      assert [name[0]] + name[1..] == name;
    }
  }

  lemma {:induction false} SplitOfJoin(names: seq<Name>)
    requires CommaFree(names) && names != []
    ensures Split(Join(names)) == names
  {
    if |names| == 1 {
      SplitOneName(names[0]);
      assert names == [names[0]];
    } else {
      SplitOfJoin(names[1..]);
      SplitFirstName(names[0], Join(names[1..]));
      assert names == [names[0]] + names[1..];
    }
  }

  /** What a reader makes of the body of a name-list: the empty body is the empty list. */
  function NamesIn(raw: Bytes): seq<Name> {
    if raw == [] then [] else Split(raw)
  }

  /** Lists that stand for themselves on the wire. */
  ghost predicate Canonical(names: seq<Name>) {
    CommaFree(names) && names != [[]]
  }

  /** Comma-free names are read back iff they are not the one list the encoding confuses with another. */
  lemma NameListReadBackIff(names: seq<Name>)
    requires CommaFree(names)
    ensures NamesIn(Join(names)) == names <==> names != [[]]
  {
    if names == [] {
    } else {
      SplitOfJoin(names);
      assert Join([[]]) == [] && Split([]) == [[]];
      hide Join, Split;
    }
  }

  lemma NamesInAreCanonical(raw: Bytes)
    ensures Canonical(NamesIn(raw)) && Join(NamesIn(raw)) == raw
  {
    JoinOfSplit(raw);
    assert Join([[]]) == [];
    hide Split;
  }

  /** Section 5 of RFC 4251: a length and the names separated by commas. */
  function BuildNameList(names: seq<Name>): Bytes {
    U32Bytes(|Join(names)|) + Join(names)
  }

  function BuildNameLists(lists: seq<seq<Name>>): Bytes {
    if lists == [] then [] else BuildNameList(lists[0]) + BuildNameLists(lists[1..])
  }

  ghost predicate Encodable(names: seq<Name>) {
    Canonical(names) && |Join(names)| < 0x1_0000_0000
  }

  // ----- SSH_MSG_KEXINIT

  const NAME_LISTS := 10

  function BuildKexInit(cookie: Bytes, lists: seq<seq<Name>>, rest: Bytes): Bytes {
    [SSH_MSG_KEXINIT] + (cookie + (BuildNameLists(lists) + rest))
  }

  ghost predicate KexInitEncodable(cookie: Bytes, lists: seq<seq<Name>>) {
    |cookie| == COOKIE_LENGTH && |lists| == NAME_LISTS && forall names | names in lists :: Encodable(names)
  }
}
