/** Splitting a document into chunks (`chunk_text` in agents/doc-ingestion/ingest.py). */
module DocChunks {

  // ----- paragraphs

  /** What `str.strip` removes. */
  predicate IsSpace(c: char) {
    var n := c as int;
    || 9 <= n <= 13 || 28 <= n <= 32 || n == 0x85 || n == 0xA0 || n == 0x1680 || 0x2000 <= n <= 0x200A
    || n == 0x2028 || n == 0x2029 || n == 0x202F || n == 0x205F || n == 0x3000
  }

  function TrimLeft(s: string): string {
    if s != "" && IsSpace(s[0]) then TrimLeft(s[1..]) else s
  }

  function TrimRight(s: string): string {
    if s != "" && IsSpace(s[|s| - 1]) then TrimRight(s[..|s| - 1]) else s
  }

  function Strip(s: string): string {
    TrimRight(TrimLeft(s))
  }

  predicate BreakAt(s: string, i: int) {
    0 <= i < |s| - 1 && s[i] == '\n' && s[i + 1] == '\n'
  }

  /** `text.split("\n\n")`: the pieces between blank lines, found from the left. */
  function Pieces(s: string): (pieces: seq<string>)
    ensures |pieces| >= 1
  {
    if s == "" then [""]
    else if BreakAt(s, 0) then [""] + Pieces(s[2..])
    else
      var pieces := Pieces(s[1..]);
      [[s[0]] + pieces[0]] + pieces[1..]
  }

  function Stripped(pieces: seq<string>): seq<string> {
    if pieces == [] then []
    else (if Strip(pieces[0]) != "" then [Strip(pieces[0])] else []) + Stripped(pieces[1..])
  }

  function Paragraphs(text: string): seq<string> {
    Stripped(Pieces(text))
  }

  ghost predicate NoBreak(s: string) {
    forall i :: !BreakAt(s, i)
  }

  ghost predicate IsParagraph(p: string) {
    p != "" && !IsSpace(p[0]) && !IsSpace(p[|p| - 1]) && NoBreak(p)
  }

  lemma {:induction false} TrimLeftIsSuffix(s: string) returns (i: nat)
    ensures i <= |s| && TrimLeft(s) == s[i..] && (i < |s| ==> !IsSpace(s[i]))
  {
    if s != "" && IsSpace(s[0]) {
      i := TrimLeftIsSuffix(s[1..]);
      assert s[1..][i..] == s[i + 1..];
      i := i + 1;
    } else {
      i := 0;
    }
  }

  lemma {:induction false} TrimRightIsPrefix(s: string) returns (j: nat)
    ensures j <= |s| && TrimRight(s) == s[..j] && (j > 0 ==> !IsSpace(s[j - 1]))
  {
    if s != "" && IsSpace(s[|s| - 1]) {
      j := TrimRightIsPrefix(s[..|s| - 1]);
      assert s[..|s| - 1][..j] == s[..j];
    } else {
      j := |s|;
      assert s[..j] == s;
    }
  }

  lemma StripGivesParagraph(s: string)
    requires NoBreak(s) && Strip(s) != ""
    ensures IsParagraph(Strip(s))
  {
    var i := TrimLeftIsSuffix(s);
    var t := s[i..];
    var j := TrimRightIsPrefix(t);
    var p := t[..j];
    forall k ensures !BreakAt(p, k) {
      assert !BreakAt(s, i + k);
    }
  }

  lemma StripOfParagraph(p: string)
    requires IsParagraph(p)
    ensures Strip(p) == p
  {
  }

  lemma {:induction false} FirstPieceIsPrefix(s: string)
    ensures Pieces(s)[0] <= s
  {
    if s != "" && !BreakAt(s, 0) {
      FirstPieceIsPrefix(s[1..]);
    }
  }

  lemma {:induction false} PiecesHaveNoBreak(s: string)
    ensures forall piece | piece in Pieces(s) :: NoBreak(piece)
  {
    if s == "" {
    } else if BreakAt(s, 0) {
      PiecesHaveNoBreak(s[2..]);
    } else {
      PiecesHaveNoBreak(s[1..]);
      FirstPieceIsPrefix(s[1..]);
      var pieces := Pieces(s[1..]);
      ConsHasNoBreak(s, pieces[0]);
    }
  }

  lemma ConsHasNoBreak(s: string, piece: string)
    requires s != "" && !BreakAt(s, 0) && piece <= s[1..] && NoBreak(piece)
    ensures NoBreak([s[0]] + piece)
  {
    var p := [s[0]] + piece;
    forall i ensures !BreakAt(p, i) {
      assert !BreakAt(piece, i - 1);
      assert piece != "" ==> piece[0] == s[1];
    }
  }

  lemma {:induction false} StrippedAreParagraphs(pieces: seq<string>)
    requires forall piece | piece in pieces :: NoBreak(piece)
    ensures forall p | p in Stripped(pieces) :: IsParagraph(p)
  {
    hide NoBreak, IsParagraph, Strip;
    if pieces != [] {
      StrippedAreParagraphs(pieces[1..]);
      if Strip(pieces[0]) != "" {
        StripGivesParagraph(pieces[0]);
      }
    }
  }

  lemma ParagraphsAreParagraphs(text: string)
    ensures forall p | p in Paragraphs(text) :: IsParagraph(p)
  {
    PiecesHaveNoBreak(text);
    StrippedAreParagraphs(Pieces(text));
  }

  // ----- joining

  function Join(ps: seq<string>): string {
    if ps == [] then ""
    else if |ps| == 1 then ps[0]
    else ps[0] + ("\n\n" + Join(ps[1..]))
  }

  lemma {:induction false} PieceBeforeBreak(p: string, rest: string)
    requires NoBreak(p) && (p == "" || p[|p| - 1] != '\n')
    ensures Pieces(p + ("\n\n" + rest)) == [p] + Pieces(rest)
  {
    var s := p + ("\n\n" + rest);
    if p == "" {
      assert s == "\n\n" + rest && s[2..] == rest;
    } else {
      assert s[1..] == p[1..] + ("\n\n" + rest);
      assert !BreakAt(s, 0) by { assert !BreakAt(p, 0); }
      forall i ensures !BreakAt(p[1..], i) { assert !BreakAt(p, i + 1); }
      PieceBeforeBreak(p[1..], rest);
      assert [p[0]] + p[1..] == p;
    }
  }

  lemma {:induction false} OnlyPiece(p: string)
    requires NoBreak(p)
    ensures Pieces(p) == [p]
  {
    if p != "" {
      assert !BreakAt(p, 0);
      forall i ensures !BreakAt(p[1..], i) { assert !BreakAt(p, i + 1); }
      OnlyPiece(p[1..]);
      assert [p[0]] + p[1..] == p;
    }
  }

  /** Joining paragraphs with blank lines and splitting again gives the same paragraphs. */
  lemma {:induction false} ParagraphsOfJoin(ps: seq<string>)
    requires forall p | p in ps :: IsParagraph(p)
    ensures Paragraphs(Join(ps)) == ps
  {
    if ps == [] {
      assert Pieces("") == [""] && Strip("") == "";
      assert Stripped([""]) == Stripped([]) by { assert [""][1..] == []; }
    } else {
      assert IsParagraph(ps[0]);
      StripOfParagraph(ps[0]);
      assert ps == [ps[0]] + ps[1..];
      if |ps| == 1 {
        OnlyPiece(ps[0]);
        StrippedCons(ps[0], []);
      } else {
        PieceBeforeBreak(ps[0], Join(ps[1..]));
        ParagraphsOfJoin(ps[1..]);
        StrippedCons(ps[0], Pieces(Join(ps[1..])));
      }
    }
  }

  lemma StrippedCons(p: string, pieces: seq<string>)
    requires Strip(p) == p != ""
    ensures Stripped([p] + pieces) == [p] + Stripped(pieces)
  {
    assert ([p] + pieces)[1..] == pieces;
  }
  // ----- nothing but space is lost

  ghost predicate AllSpace(s: string) {
    forall c | c in s :: IsSpace(c)
  }

  /** Stripping takes away spaces at both ends, and nothing else. */
  lemma StripTakesSpaces(s: string) returns (left: string, right: string)
    ensures s == left + Strip(s) + right && AllSpace(left) && AllSpace(right)
  {
    left := TrimmedLeft(s);
    right := TrimmedRight(TrimLeft(s));
    assert left + (Strip(s) + right) == left + Strip(s) + right;
  }

  lemma {:induction false} TrimmedLeft(s: string) returns (left: string)
    ensures s == left + TrimLeft(s) && AllSpace(left)
  {
    if s != "" && IsSpace(s[0]) {
      var rest := TrimmedLeft(s[1..]);
      left := [s[0]] + rest;
    } else {
      left := "";
    }
  }

  lemma {:induction false} TrimmedRight(s: string) returns (right: string)
    ensures s == TrimRight(s) + right && AllSpace(right)
  {
    if s != "" && IsSpace(s[|s| - 1]) {
      var rest := TrimmedRight(s[..|s| - 1]);
      right := rest + [s[|s| - 1]];
    } else {
      right := "";
    }
  }

  lemma JoinFirstLonger(c: char, pieces: seq<string>)
    requires pieces != []
    ensures Join([[c] + pieces[0]] + pieces[1..]) == [c] + Join(pieces)
  {
    var all := [[c] + pieces[0]] + pieces[1..];
    assert all[1..] == pieces[1..];
    if |pieces| > 1 {
      assert ([c] + pieces[0]) + ("\n\n" + Join(pieces[1..])) == [c] + (pieces[0] + ("\n\n" + Join(pieces[1..])));
    }
  }

  lemma JoinAfterBreak(pieces: seq<string>)
    requires pieces != []
    ensures Join([""] + pieces) == "\n\n" + Join(pieces)
  {
    assert ([""] + pieces)[1..] == pieces;
  }

  /** Joining the pieces gives the text back. */
  lemma {:induction false} JoinOfPieces(text: string)
    ensures Join(Pieces(text)) == text
  {
    if text == "" {
    } else if BreakAt(text, 0) {
      JoinOfPieces(text[2..]);
      JoinAfterBreak(Pieces(text[2..]));
      assert text == "\n\n" + text[2..];
    } else {
      JoinOfPieces(text[1..]);
      JoinFirstLonger(text[0], Pieces(text[1..]));
      assert text == [text[0]] + text[1..];
    }
  }

  ghost predicate EndsInBreak(piece: string) {
    piece != "" && piece[|piece| - 1] == '\n'
  }

  /** Each piece but the last ends where the first blank line starts: not in a line break. */
  lemma {:induction false} PiecesEndBeforeBreaks(text: string)
    ensures forall i | 0 <= i < |Pieces(text)| - 1 :: !EndsInBreak(Pieces(text)[i])
  {
    if text == "" {
    } else if BreakAt(text, 0) {
      PiecesEndBeforeBreaks(text[2..]);
    } else {
      PiecesEndBeforeBreaks(text[1..]);
      var pieces := Pieces(text[1..]);
      if |pieces| > 1 {
        assert pieces[0] == "" ==> BreakAt(text[1..], 0);
        assert !EndsInBreak([text[0]] + pieces[0]);
      }
    }
  }

  /** One paragraph for each piece that is not all space, in order. */
  ghost predicate CoresOf(pieces: seq<string>, ps: seq<string>) {
    if pieces == [] then ps == []
    else if AllSpace(pieces[0]) then CoresOf(pieces[1..], ps)
    else
      && ps != [] && CoresOf(pieces[1..], ps[1..])
      && exists left, right :: Around(pieces[0], left, ps[0], right)
  }

  ghost predicate Around(piece: string, left: string, core: string, right: string) {
    && piece == left + core + right && AllSpace(left) && AllSpace(right)
    && core != "" && !IsSpace(core[0]) && !IsSpace(core[|core| - 1])
  }

  lemma CoreOf(piece: string)
    ensures Strip(piece) == "" <==> AllSpace(piece)
    ensures Strip(piece) != "" ==> exists left, right :: Around(piece, left, Strip(piece), right)
  {
    var left, right := StripTakesSpaces(piece);
    var i := TrimLeftIsSuffix(piece);
    var j := TrimRightIsPrefix(piece[i..]);
    var core := Strip(piece);
    if core != "" {
      assert core[0] == piece[i] && core[0] in piece;
      assert Around(piece, left, core, right);
    }
  }

  lemma {:induction false} StrippedAreCores(pieces: seq<string>)
    ensures CoresOf(pieces, Stripped(pieces))
  {
    if pieces != [] {
      StrippedAreCores(pieces[1..]);
      CoreOf(pieces[0]);
      var rest, all := Stripped(pieces[1..]), Stripped(pieces);
      assert Strip(pieces[0]) == "" ==> all == rest;
      assert Strip(pieces[0]) != "" ==> all[0] == Strip(pieces[0]) && all[1..] == rest;
      hide Strip, AllSpace, Around, Stripped;
    }
  }

  /** The paragraphs of a text are the cores of the stretches between its blank lines. */
  lemma ParagraphsOfText(text: string)
    ensures CoresOf(Pieces(text), Paragraphs(text)) && Join(Pieces(text)) == text
    ensures forall i | 0 <= i < |Pieces(text)| :: NoBreak(Pieces(text)[i]) && (i < |Pieces(text)| - 1 ==> !EndsInBreak(Pieces(text)[i]))
  {
    StrippedAreCores(Pieces(text));
    JoinOfPieces(text);
    PiecesHaveNoBreak(text);
    PiecesEndBeforeBreaks(text);
  }
}
