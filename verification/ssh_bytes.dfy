/** A server's first packet byte by byte, and what is reported for it
    (agents/network-scanner/internal/scanner/ssh.go). */
module SshBytes {
  import opened BigEndian
  import opened SshFormat
  import opened SshScanner
  import opened Wrappers

  /** The length field is refused exactly when it is zero or above 256 KiB. */
  lemma ImplausibleIff(stream: Bytes)
    requires |stream| >= 4
    ensures var a: int, b: int, c: int, d: int := stream[0], stream[1], stream[2], stream[3];
            var n := ((a * 256 + b) * 256 + c) * 256 + d;
            n >= 0 && (ReadPacket(stream).0 == Err(ImplausibleLength(n)) <==> n == 0 || n > 262144)
  {
    assert stream[..4] == [stream[0], stream[1], stream[2], stream[3]];
    MostSignificantFirst(stream[0], stream[1], stream[2], stream[3]);
    hide U32, U32Bytes, PayloadOf;
  }

  lemma NameListInBytes(names: seq<Name>, length: Byte, body: Bytes)
    requires Join(names) == body && |body| == length
    ensures BuildNameList(names) == [0, 0, 0, length] + body
  {
    MostSignificantFirst(0, 0, 0, length);
    hide U32, Join;
  }

  lemma OneName(a: Byte)
    requires a != 44
    ensures BuildNameList([[a]]) == [0, 0, 0, 1, a] && Encodable([[a]])
  {
    assert Join([[a]]) == [a];
    NameListInBytes([[a]], 1, [a]);
    hide BuildNameList, Join;
  }

  lemma NoNames()
    ensures BuildNameList([]) == [0, 0, 0, 0] && Encodable([])
  {
    assert Join([]) == [];
    NameListInBytes([], 0, []);
    hide BuildNameList, Join;
  }

  lemma TwoNames(a: Byte, b: Byte)
    requires a != 44 && b != 44
    ensures BuildNameList([[a], [b]]) == [0, 0, 0, 3, a, 44, b] && Encodable([[a], [b]])
  {
    assert [[a], [b]][1..] == [[b]];
    assert Join([[b]]) == [b];
    assert Join([[a], [b]]) == [a, 44, b];
    NameListInBytes([[a], [b]], 3, [a, 44, b]);
    hide BuildNameList, Join;
  }

  lemma ListsCons(names: seq<Name>, lists: seq<seq<Name>>, front: Bytes, bytes: Bytes)
    requires BuildNameList(names) == front && BuildNameLists(lists) == bytes
    ensures BuildNameLists([names] + lists) == front + bytes
  {
    assert ([names] + lists)[1..] == lists;
    hide BuildNameList;
  }

  const NO_LISTS: seq<seq<Name>> := [[]] + ([[]] + ([[]] + ([[]] + [])))

  const NO_LISTS_BYTES: Bytes := [0, 0, 0, 0] + ([0, 0, 0, 0] + ([0, 0, 0, 0] + ([0, 0, 0, 0] + [])))

  lemma NoListsInBytes()
    ensures BuildNameLists(NO_LISTS) == NO_LISTS_BYTES
  {
    NoNames();
    assert BuildNameLists([]) == [];
    hide BuildNameList, BuildNameLists;
    ListsCons([], [], [0, 0, 0, 0], []);
    ListsCons([], [[]] + [], [0, 0, 0, 0], [0, 0, 0, 0] + []);
    ListsCons([], [[]] + ([[]] + []), [0, 0, 0, 0], [0, 0, 0, 0] + ([0, 0, 0, 0] + []));
    ListsCons([], [[]] + ([[]] + ([[]] + [])), [0, 0, 0, 0], [0, 0, 0, 0] + ([0, 0, 0, 0] + ([0, 0, 0, 0] + [])));
  }

  function Lists(a: Byte, b: Byte, c: Byte, d: Byte, e: Byte, f: Byte, g: Byte): (lists: seq<seq<Name>>)
    ensures |lists| == 10
  {
    [[[a], [b]]] + ([[[c]]] + ([[[d]]] + ([[[e]]] + ([[[f]]] + ([[[g]]] + NO_LISTS)))))
  }

  function ListBytes(a: Byte, b: Byte, c: Byte, d: Byte, e: Byte, f: Byte, g: Byte): (bytes: Bytes)
    ensures |bytes| == 48
  {
    [0, 0, 0, 3, a, 44, b] + ([0, 0, 0, 1, c] + ([0, 0, 0, 1, d] + ([0, 0, 0, 1, e] + ([0, 0, 0, 1, f] + ([0, 0, 0, 1, g] + NO_LISTS_BYTES)))))
  }

  lemma ListsInBytes(a: Byte, b: Byte, c: Byte, d: Byte, e: Byte, f: Byte, g: Byte)
    requires 44 !in [a, b, c, d, e, f, g]
    ensures BuildNameLists(Lists(a, b, c, d, e, f, g)) == ListBytes(a, b, c, d, e, f, g)
  {
    NoListsInBytes();
    TwoNames(a, b);
    OneName(c);
    OneName(d);
    OneName(e);
    OneName(f);
    OneName(g);
    hide BuildNameList, BuildNameLists, NO_LISTS, NO_LISTS_BYTES, Encodable;
    ListsCons([[g]], NO_LISTS, [0, 0, 0, 1, g], NO_LISTS_BYTES);
    var l6, b6 := [[[g]]] + NO_LISTS, [0, 0, 0, 1, g] + NO_LISTS_BYTES;
    ListsCons([[f]], l6, [0, 0, 0, 1, f], b6);
    var l5, b5 := [[[f]]] + l6, [0, 0, 0, 1, f] + b6;
    ListsCons([[e]], l5, [0, 0, 0, 1, e], b5);
    var l4, b4 := [[[e]]] + l5, [0, 0, 0, 1, e] + b5;
    ListsCons([[d]], l4, [0, 0, 0, 1, d], b4);
    var l3, b3 := [[[d]]] + l4, [0, 0, 0, 1, d] + b4;
    ListsCons([[c]], l3, [0, 0, 0, 1, c], b3);
    ListsCons([[a], [b]], [[[c]]] + l3, [0, 0, 0, 3, a, 44, b], [0, 0, 0, 1, c] + b3);
  }

  lemma ListsEncodable(a: Byte, b: Byte, c: Byte, d: Byte, e: Byte, f: Byte, g: Byte)
    requires 44 !in [a, b, c, d, e, f, g]
    ensures forall names | names in Lists(a, b, c, d, e, f, g) :: Encodable(names)
    ensures FirstSix(Lists(a, b, c, d, e, f, g)) == KexInit([[a], [b]], [[c]], [[d]], [[e]], [[f]], [[g]])
  {
    TwoNames(a, b);
    OneName(c);
    OneName(d);
    OneName(e);
    OneName(f);
    OneName(g);
    NoNames();
    hide BuildNameList, Encodable;
  }

  /** Two key exchange algorithms, one each of the other five kinds, nothing for languages and compression,
      no guess following: 76 bytes after the length field, five of them padding. */
  lemma OfferIsReported(a: Byte, b: Byte, c: Byte, d: Byte, e: Byte, f: Byte, g: Byte, cookie: Bytes, padding: Bytes, more: Bytes, stream: Bytes)
    requires 44 !in [a, b, c, d, e, f, g] && |cookie| == 16 && |padding| == 5
    requires stream == ([0, 0, 0, 76] + ([5] + (([20] + (cookie + (ListBytes(a, b, c, d, e, f, g) + [0, 0, 0, 0, 0]))) + padding))) + more
    ensures Offers(stream, KexInit([[a], [b]], [[c]], [[d]], [[e]], [[f]], [[g]]), more)
  {
    var lists, rest: Bytes := Lists(a, b, c, d, e, f, g), [0, 0, 0, 0, 0];
    ListsInBytes(a, b, c, d, e, f, g);
    ListsEncodable(a, b, c, d, e, f, g);
    var payload := BuildKexInit(cookie, lists, rest);
    assert payload == [20] + (cookie + (ListBytes(a, b, c, d, e, f, g) + rest)) && |payload| == 70 by { hide BuildNameLists, ListBytes, Lists; }
    MostSignificantFirst(0, 0, 0, 76);
    assert Frame(payload, padding) == [0, 0, 0, 76] + ([5] + (payload + padding)) by { hide U32Bytes, U32, BuildKexInit, ListBytes; }
    assert Encodes(payload, cookie, lists, rest, KexInit([[a], [b]], [[c]], [[d]], [[e]], [[f]], [[g]])) by { hide FirstSix, Encodable, Lists, BuildKexInit; }
    assert FitsInPacket(payload, padding);
    hide Lists, ListBytes, Frame, BuildKexInit, Encodes, FitsInPacket;
    assert Framed(stream, payload, padding, more);
    assert StreamIs(stream, cookie, lists, rest, padding, KexInit([[a], [b]], [[c]], [[d]], [[e]], [[f]], [[g]]), more);
  }
}
