/** The greedy packing of paragraphs into chunks, and why no contiguous split does better
    (`chunk_text` in agents/doc-ingestion/ingest.py). */
module ChunkPacking {
  import opened DocChunks

  type Group = seq<string>

  function Flatten(groups: seq<Group>): seq<string> {
    if groups == [] then [] else groups[0] + Flatten(groups[1..])
  }

  function Joined(groups: seq<Group>): seq<string> {
    if groups == [] then [] else [Join(groups[0])] + Joined(groups[1..])
  }

  /** What may be a chunk: a single paragraph of any length, or several that fit together. */
  ghost predicate Fits(g: Group, maxChars: int) {
    |g| == 1 || (|g| > 1 && |Join(g)| <= maxChars)
  }

  /** A contiguous split of `ps` into permitted chunks. */
  ghost predicate Split(groups: seq<Group>, ps: seq<string>, maxChars: int) {
    Flatten(groups) == ps && forall g | g in groups :: Fits(g, maxChars)
  }

  /** No group could have taken in the paragraph that follows it. */
  ghost predicate Filled(groups: seq<Group>, maxChars: int) {
    forall i | 0 <= i < |groups| - 1 && groups[i + 1] != [] :: |Join(groups[i] + [groups[i + 1][0]])| > maxChars
  }

  ghost predicate Packed(groups: seq<Group>, ps: seq<string>, maxChars: int) {
    Split(groups, ps, maxChars) && Filled(groups, maxChars)
  }

  // ----- lengths

  function Width(ps: seq<string>): nat {
    if ps == [] then 0 else |ps[0]| + 2 + Width(ps[1..])
  }

  lemma {:induction false} JoinLength(ps: seq<string>)
    ensures ps != [] ==> |Join(ps)| == Width(ps) - 2
  {
    if |ps| > 1 {
      JoinLength(ps[1..]);
    }
  }

  lemma {:induction false} WidthSplits(a: seq<string>, b: seq<string>)
    ensures Width(a + b) == Width(a) + Width(b)
  {
    if a == [] {
      assert a + b == b;
    } else {
      assert (a + b)[1..] == a[1..] + b;
      WidthSplits(a[1..], b);
    }
  }

  /** Part of a run of paragraphs is not longer than the run. */
  lemma JoinOfPart(ps: seq<string>, i: nat, j: nat)
    requires i < j <= |ps|
    ensures |Join(ps[i..j])| <= |Join(ps)|
  {
    assert ps == ps[..i] + (ps[i..j] + ps[j..]);
    WidthSplits(ps[..i], ps[i..j] + ps[j..]);
    WidthSplits(ps[i..j], ps[j..]);
    JoinLength(ps);
    JoinLength(ps[i..j]);
  }

  // ----- the loop

  lemma {:induction false} FlattenSnoc(groups: seq<Group>, g: Group)
    ensures Flatten(groups + [g]) == Flatten(groups) + g
  {
    if groups == [] {
      assert [] + [g] == [g] && [g][1..] == [];
    } else {
      assert (groups + [g])[1..] == groups[1..] + [g];
      FlattenSnoc(groups[1..], g);
    }
  }

  lemma {:induction false} JoinedSnoc(groups: seq<Group>, g: Group)
    ensures Joined(groups + [g]) == Joined(groups) + [Join(g)]
  {
    if groups == [] {
      assert [] + [g] == [g] && [g][1..] == [];
    } else {
      assert (groups + [g])[1..] == groups[1..] + [g];
      JoinedSnoc(groups[1..], g);
    }
  }

  lemma {:induction false} JoinSnoc(g: Group, p: string)
    requires g != []
    ensures Join(g + [p]) == Join(g) + ("\n\n" + p)
  {
    if |g| == 1 {
      assert (g + [p])[1..] == [p];
    } else {
      assert (g + [p])[1..] == g[1..] + [p];
      JoinSnoc(g[1..], p);
    }
  }

  /** The groups closed so far and the open one are a packing of the paragraphs seen, except that the open
      one is empty before the first paragraph. */
  ghost predicate Packing(closed: seq<Group>, open: Group, seen: seq<string>, maxChars: int) {
    if open == [] then closed == [] && seen == [] else Packed(closed + [open], seen, maxChars)
  }

  lemma OpenAnother(closed: seq<Group>, open: Group, seen: seq<string>, p: string, maxChars: int)
    requires Packing(closed, open, seen, maxChars) && open != [] && |Join(open + [p])| > maxChars
    ensures Packing(closed + [open], [p], seen + [p], maxChars)
  {
    var groups := closed + [open];
    FlattenSnoc(groups, [p]);
    hide Flatten, Join;
  }

  lemma ExtendOpen(closed: seq<Group>, open: Group, seen: seq<string>, p: string, maxChars: int)
    requires Packing(closed, open, seen, maxChars) && (open != [] ==> |Join(open + [p])| <= maxChars)
    ensures Packing(closed, open + [p], seen + [p], maxChars)
  {
    FlattenSnoc(closed, open);
    FlattenSnoc(closed, open + [p]);
    if open == [] {
      assert closed + [[p]] == [[p]] && Flatten([]) == [];
    } else {
      var before, after := closed + [open], closed + [open + [p]];
      assert Flatten(after) == seen + [p];
      hide Flatten, Join;
      forall i | 0 <= i < |after| - 1 && after[i + 1] != [] ensures |Join(after[i] + [after[i + 1][0]])| > maxChars {
        assert before[i] == after[i] && before[i + 1][0] == after[i + 1][0];
      }
      forall g | g in after ensures Fits(g, maxChars) {
        if g != open + [p] {
          assert g in before;
        }
      }
    }
  }

  /** The chunks are the joined groups of a packing. */
  ghost predicate Chunked(chunks: seq<string>, ps: seq<string>, maxChars: int) {
    exists groups :: chunks == Joined(groups) && Packed(groups, ps, maxChars)
  }

  /** Chunks bounded by `maxChars` where paragraph boundaries allow it. */
  method ChunkText(text: string, maxChars: int) returns (chunks: seq<string>)
    ensures Chunked(chunks, Paragraphs(text), maxChars)
  {
    var paragraphs := Paragraphs(text);
    ParagraphsAreParagraphs(text);
    chunks := [];
    ghost var groups: seq<Group> := [];
    var current := "";
    ghost var open: Group := [];
    hide Paragraphs, Joined, Flatten, Packing, Packed;
    PackingStarts(maxChars);
    for i := 0 to |paragraphs|
      invariant chunks == Joined(groups) && current == Join(open) && (current == "" <==> open == [])
      invariant Packing(groups, open, paragraphs[..i], maxChars)
    {
      var paragraph := paragraphs[i];
      assert IsParagraph(paragraph);
      assert paragraphs[..i + 1] == paragraphs[..i] + [paragraph];
      if open != [] {
        JoinSnoc(open, paragraph);
      }
      assert [] + [paragraph] == [paragraph];
      hide Join;
      SingleJoin(paragraph);
      var candidate := if current != "" then current + ("\n\n" + paragraph) else paragraph;
      if |candidate| > maxChars && current != "" {
        OpenAnother(groups, open, paragraphs[..i], paragraph, maxChars);
        JoinedSnoc(groups, open);
        chunks := chunks + [current];
        current := paragraph;
        groups, open := groups + [open], [paragraph];
      } else {
        ExtendOpen(groups, open, paragraphs[..i], paragraph, maxChars);
        current := candidate;
        open := open + [paragraph];
      }
    }
    assert paragraphs[..|paragraphs|] == paragraphs;
    PackingEnds(groups, open, paragraphs, maxChars);
    if current != "" {
      JoinedSnoc(groups, open);
      chunks := chunks + [current];
      groups := groups + [open];
    }
  }

  lemma SingleJoin(p: string)
    ensures Join([p]) == p
  {
  }

  lemma PackingStarts(maxChars: int)
    ensures Packing([], [], [], maxChars) && Joined([]) == []
  {
  }

  lemma PackingEnds(closed: seq<Group>, open: Group, seen: seq<string>, maxChars: int)
    requires Packing(closed, open, seen, maxChars)
    ensures if open == [] then Packed(closed, seen, maxChars) else Packed(closed + [open], seen, maxChars)
  {
  }

  // ----- what a packing is good for

  lemma PackedTail(groups: seq<Group>, ps: seq<string>, maxChars: int)
    requires Packed(groups, ps, maxChars) && groups != []
    ensures 1 <= |groups[0]| <= |ps| && ps[..|groups[0]|] == groups[0]
    ensures Packed(groups[1..], ps[|groups[0]|..], maxChars)
    ensures |groups[0]| < |ps| ==> |Join(groups[0] + [ps[|groups[0]|]])| > maxChars
  {
    var g, rest := groups[0], groups[1..];
    assert Fits(g, maxChars);
    assert ps[|g|..] == Flatten(rest);
    hide Join;
    forall i | 0 <= i < |rest| - 1 && rest[i + 1] != [] ensures |Join(rest[i] + [rest[i + 1][0]])| > maxChars {
      assert rest[i] == groups[i + 1] && rest[i + 1] == groups[i + 2];
    }
    if |g| < |ps| {
      assert rest != [] && Fits(rest[0], maxChars);
      assert groups[1][0] == ps[|g|];
    }
  }

  lemma SplitTail(parts: seq<Group>, ps: seq<string>, maxChars: int)
    requires Split(parts, ps, maxChars) && parts != []
    ensures 1 <= |parts[0]| <= |ps| && ps[..|parts[0]|] == parts[0] && Fits(parts[0], maxChars)
    ensures Split(parts[1..], ps[|parts[0]|..], maxChars)
  {
    assert Fits(parts[0], maxChars);
    assert ps[|parts[0]|..] == Flatten(parts[1..]);
    hide Join;
  }

  lemma NoGroups(groups: seq<Group>, maxChars: int)
    requires Split(groups, [], maxChars)
    ensures groups == []
  {
    if groups != [] {
      SplitTail(groups, [], maxChars);
    }
  }

  /** A packing of what is left of a run of paragraphs needs no more groups than any split of the run. */
  lemma {:induction false} PackingStaysAhead(groups: seq<Group>, parts: seq<Group>, ps: seq<string>, done: nat, maxChars: int)
    requires done <= |ps| && Packed(groups, ps[done..], maxChars) && Split(parts, ps, maxChars)
    ensures |groups| <= |parts|
    decreases |parts|
  {
    hide Packed, Split, Fits, Join;
    if groups != [] {
      assert parts != [] by { if parts == [] { EmptySplit(ps, maxChars); PackedTail(groups, ps[done..], maxChars); } }
      PackedTail(groups, ps[done..], maxChars);
      SplitTail(parts, ps, maxChars);
      var n, taken := |parts[0]|, |groups[0]|;
      if done < n {
        FirstGroupReaches(ps, n, done, taken, maxChars);
        assert ps[done..][taken..] == ps[n..][done + taken - n..];
        PackingStaysAhead(groups[1..], parts[1..], ps[n..], done + taken - n, maxChars);
      } else {
        assert ps[done..] == ps[n..][done - n..];
        PackingStaysAhead(groups, parts[1..], ps[n..], done - n, maxChars);
      }
    }
  }

  lemma EmptySplit(ps: seq<string>, maxChars: int)
    requires Split([], ps, maxChars)
    ensures ps == []
  {
  }

  /** A group that starts inside a permitted part reaches at least to its end, being filled. */
  lemma FirstGroupReaches(ps: seq<string>, n: nat, done: nat, taken: nat, maxChars: int)
    requires done < n <= |ps| && 1 <= taken <= |ps| - done && Fits(ps[..n], maxChars)
    requires taken < |ps| - done ==> |Join(ps[done..][..taken] + [ps[done..][taken]])| > maxChars
    ensures done + taken >= n
  {
    if done + taken < n {
      assert ps[done..][..taken] + [ps[done..][taken]] == ps[..n][done..done + taken + 1];
      JoinOfPart(ps[..n], done, done + taken + 1);
      hide Join;
      assert false;
    }
  }

  /** Greedy packing is optimal: no contiguous split into permitted chunks has fewer. */
  lemma PackingIsOptimal(groups: seq<Group>, parts: seq<Group>, ps: seq<string>, maxChars: int)
    requires Packed(groups, ps, maxChars) && Split(parts, ps, maxChars)
    ensures |groups| <= |parts|
  {
    assert ps[0..] == ps;
    PackingStaysAhead(groups, parts, ps, 0, maxChars);
  }

  /** And it is the only packing there is, so the chunks depend on nothing but the paragraphs. */
  lemma {:induction false} PackingIsUnique(groups: seq<Group>, others: seq<Group>, ps: seq<string>, maxChars: int)
    requires Packed(groups, ps, maxChars) && Packed(others, ps, maxChars)
    ensures groups == others
    decreases |groups|
  {
    if ps == [] {
      NoGroups(groups, maxChars);
      NoGroups(others, maxChars);
    } else {
      assert groups != [] && others != [];
      var n, m := |groups[0]|, |others[0]|;
      assert Fits(groups[0], maxChars) && Fits(others[0], maxChars);
      hide Packed, Split, Fits, Join, Flatten;
      PackedTail(groups, ps, maxChars);
      PackedTail(others, ps, maxChars);
      assert ps[0..] == ps;
      FirstGroupReaches(ps, n, 0, m, maxChars);
      FirstGroupReaches(ps, m, 0, n, maxChars);
      PackingIsUnique(groups[1..], others[1..], ps[n..], maxChars);
      assert groups == [groups[0]] + groups[1..] && others == [others[0]] + others[1..];
    }
  }

  // ----- joining chunks, and chunking again

  lemma {:induction false} JoinSplits(a: seq<string>, b: seq<string>)
    requires a != [] && b != []
    ensures Join(a + b) == Join(a) + ("\n\n" + Join(b))
  {
    if |a| == 1 {
      assert (a + b)[1..] == b;
    } else {
      assert (a + b)[1..] == a[1..] + b;
      JoinSplits(a[1..], b);
      assert a[0] + ("\n\n" + (Join(a[1..]) + ("\n\n" + Join(b)))) == (a[0] + ("\n\n" + Join(a[1..]))) + ("\n\n" + Join(b));
    }
  }

  /** Joining the chunks with blank lines gives the joined paragraphs. */
  lemma {:induction false} JoinOfChunks(groups: seq<Group>, ps: seq<string>, maxChars: int)
    requires Split(groups, ps, maxChars)
    ensures Join(Joined(groups)) == Join(ps)
    decreases |groups|
  {
    if groups != [] {
      SplitTail(groups, ps, maxChars);
      var n := |groups[0]|;
      var chunk, rest := Join(groups[0]), Joined(groups[1..]);
      JoinOfChunks(groups[1..], ps[n..], maxChars);
      assert ps == groups[0] + ps[n..];
      assert ([chunk] + rest)[1..] == rest;
      if |groups| == 1 {
        EmptySplit(ps[n..], maxChars);
        assert rest == [] && ps == groups[0];
      } else {
        SplitTail(groups[1..], ps[n..], maxChars);
        JoinSplits(groups[0], ps[n..]);
      }
    }
  }

  /** The number of chunks is the smallest possible. */
  lemma ChunkingIsOptimal(chunks: seq<string>, parts: seq<Group>, ps: seq<string>, maxChars: int)
    requires Chunked(chunks, ps, maxChars) && Split(parts, ps, maxChars)
    ensures |chunks| <= |parts|
  {
    hide Packed, Split;
    var groups :| chunks == Joined(groups) && Packed(groups, ps, maxChars);
    PackingIsOptimal(groups, parts, ps, maxChars);
    JoinedCount(groups);
  }

  lemma {:induction false} JoinedCount(groups: seq<Group>)
    ensures |Joined(groups)| == |groups|
  {
    if groups != [] {
      JoinedCount(groups[1..]);
    }
  }

  /** Chunking the joined chunks gives the same chunks. */
  method Rechunk(text: string, maxChars: int) returns (chunks: seq<string>, again: seq<string>)
    ensures again == chunks
    ensures Join(chunks) == Join(Paragraphs(text))
  {
    hide *;
    chunks := ChunkText(text, maxChars);
    again := ChunkText(Join(chunks), maxChars);
    SameChunks(text, chunks, again, maxChars);
  }

  lemma SameChunks(text: string, chunks: seq<string>, again: seq<string>, maxChars: int)
    requires Chunked(chunks, Paragraphs(text), maxChars) && Chunked(again, Paragraphs(Join(chunks)), maxChars)
    ensures again == chunks && Join(chunks) == Join(Paragraphs(text))
  {
    var ps := Paragraphs(text);
    ParagraphsAreParagraphs(text);
    hide Packed, Paragraphs, Join, Joined;
    var groups :| chunks == Joined(groups) && Packed(groups, ps, maxChars);
    var others :| again == Joined(others) && Packed(others, Paragraphs(Join(chunks)), maxChars);
    PackedSplit(groups, ps, maxChars);
    JoinOfChunks(groups, ps, maxChars);
    ParagraphsOfJoin(ps);
    PackingIsUnique(groups, others, ps, maxChars);
  }

  lemma PackedSplit(groups: seq<Group>, ps: seq<string>, maxChars: int)
    requires Packed(groups, ps, maxChars)
    ensures Split(groups, ps, maxChars)
  {
  }
}
