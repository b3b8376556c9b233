/** The issuer walk (`trust_chain` in services/graph-service/app/graph_engine.py). */
module TrustChains {
  import opened Wrappers
  import opened GraphEngine
  import StableSort

  const SIGNED_BY := "SIGNED_BY"

  function SignedByEdges(es: seq<Edge>): seq<Edge> {
    if es == [] then []
    else if es[0].typ == Some(SIGNED_BY) then [es[0]] + SignedByEdges(es[1..]) else SignedByEdges(es[1..])
  }

  /** Where the first SIGNED_BY edge out of `n` leads. */
  function Issuer(edges: seq<Edge>, n: Id): Option<Id> {
    var signedBy := SignedByEdges(OutOf(edges, n));
    if signedBy == [] then None else signedBy[0].dst
  }

  lemma {:induction false} SignedByMembers(es: seq<Edge>)
    ensures forall e :: e in SignedByEdges(es) <==> e in es && e.typ == Some(SIGNED_BY)
  {
    if es != [] {
      SignedByMembers(es[1..]);
      assert es == [es[0]] + es[1..];
    }
  }

  lemma {:induction false} SignedBySnoc(es: seq<Edge>, e: Edge)
    ensures SignedByEdges(es + [e]) == SignedByEdges(es) + (if e.typ == Some(SIGNED_BY) then [e] else [])
  {
    if es == [] {
      assert [] + [e] == [e] && [e][1..] == [];
    } else {
      assert (es + [e])[1..] == es[1..] + [e];
      SignedBySnoc(es[1..], e);
    }
  }

  ghost predicate Signs(e: Edge, n: Id) {
    e.typ == Some("SIGNED_BY") && e.src == Some(n) && e.dst.Some?
  }

  /** The issuer of `n` is the target of the first complete SIGNED_BY edge out of it. */
  lemma {:induction false} IssuerIsFirst(edges: seq<Edge>, n: Id, i: nat)
    requires i < |edges| && Signs(edges[i], n) && forall j | 0 <= j < i :: !Signs(edges[j], n)
    ensures Issuer(edges, n) == edges[i].dst
  {
    var front, last := edges[..|edges| - 1], edges[|edges| - 1];
    assert edges == front + [last];
    IssuerSnoc(front, last, n);
    hide Issuer, Signs;
    if i < |front| {
      IssuerIsFirst(front, n, i);
      assert front[i] in front;
    }
  }

  lemma {:induction false} NoIssuer(edges: seq<Edge>, n: Id)
    requires forall i | 0 <= i < |edges| :: !Signs(edges[i], n)
    ensures Issuer(edges, n) == None
  {
    if edges != [] {
      var front, last := edges[..|edges| - 1], edges[|edges| - 1];
      assert edges == front + [last];
      NoIssuer(front, n);
      IssuerSnoc(front, last, n);
      hide Issuer, Signs;
    }
  }

  lemma IssuerSnoc(front: seq<Edge>, last: Edge, n: Id)
    ensures Issuer(front + [last], n) == if exists e | e in front :: Signs(e, n) then Issuer(front, n) else if Signs(last, n) then last.dst else None
  {
    var out := OutOf(front, n);
    assert (front + [last])[..|front|] == front;
    assert OutOf(front + [last], n) == out + (if Signs(last, n) || (Usable(last) && last.src == Some(n)) then [last] else []);
    OutOfMembers(front, n);
    SignedByMembers(out);
    SignedBySnoc(out, last);
    hide OutOf, SignedByEdges;
    assert out + [] == out;
    assert SignedByEdges(out) != [] ==> SignedByEdges(out)[0] in SignedByEdges(out);
  }

  lemma IssuerIsTarget(edges: seq<Edge>, n: Id)
    ensures SignedByEdges(OutOf(edges, n)) != [] ==> Issuer(edges, n).Some? && Issuer(edges, n).value in Targets(edges)
  {
    var signedBy := SignedByEdges(OutOf(edges, n));
    SignedByMembers(OutOf(edges, n));
    OutOfMembers(edges, n);
    if signedBy != [] {
      assert signedBy[0] in signedBy;
    }
  }

  function Targets(edges: seq<Edge>): set<Id> {
    set e | e in edges && Usable(e) :: e.dst.value
  }

  /** `chain` follows first issuers from `start` without repeats, as far as that is possible. */
  ghost predicate IsTrustChain(edges: seq<Edge>, start: Id, chain: seq<Id>) {
    && chain != [] && chain[0] == start
    && StableSort.Distinct(chain)
    && (forall i | 0 <= i < |chain| - 1 :: Issuer(edges, chain[i]) == Some(chain[i + 1]))
    && (Issuer(edges, chain[|chain| - 1]) == None || Issuer(edges, chain[|chain| - 1]).value in chain)
  }

  /** The loop ends on every graph, cyclic or not, because the members of the chain are distinct
      targets of edges. */
  method TrustChain(edges: seq<Edge>, start: Id) returns (chain: seq<Id>)
    ensures IsTrustChain(edges, start, chain)
  {
    var outgoing, _ := BuildIndex(edges);
    chain := [start];
    var seen := {start};
    var current := start;
    hide OutOf, SignedByEdges;
    while true
      invariant chain != [] && chain[0] == start && chain[|chain| - 1] == current
      invariant StableSort.Distinct(chain) && forall n :: n in seen <==> n in chain
      invariant forall i | 0 <= i < |chain| - 1 :: Issuer(edges, chain[i]) == Some(chain[i + 1])
      decreases Targets(edges) - seen
    {
      var signedBy := SignedByEdges(Get(outgoing, current));
      IssuerIsTarget(edges, current);
      if signedBy == [] {
        break;
      }
      var issuer := signedBy[0].dst.value;
      if issuer in seen {
        break;
      }
      assert issuer in Targets(edges) - seen;
      chain := chain + [issuer];
      seen := seen + {issuer};
      current := issuer;
    }
  }

  lemma {:induction false} ChainsAgree(edges: seq<Edge>, start: Id, c: seq<Id>, d: seq<Id>, k: nat)
    requires IsTrustChain(edges, start, c) && IsTrustChain(edges, start, d)
    requires k <= |c| && k <= |d|
    ensures c[..k] == d[..k]
  {
    if k > 1 {
      ChainsAgree(edges, start, c, d, k - 1);
      assert c[..k - 1][k - 2] == d[..k - 1][k - 2];
      assert Issuer(edges, c[k - 2]) == Some(c[k - 1]) && Issuer(edges, d[k - 2]) == Some(d[k - 1]);
      assert c[..k] == c[..k - 1] + [c[k - 1]] && d[..k] == d[..k - 1] + [d[k - 1]];
    }
  }

  lemma NextIsOutside(edges: seq<Edge>, start: Id, chain: seq<Id>, k: nat)
    requires IsTrustChain(edges, start, chain) && 0 < k < |chain|
    ensures Issuer(edges, chain[k - 1]) == Some(chain[k]) && chain[k] !in chain[..k]
  {
  }

  lemma StopsInside(edges: seq<Edge>, start: Id, chain: seq<Id>, next: Id)
    requires IsTrustChain(edges, start, chain) && chain != [] && Issuer(edges, chain[|chain| - 1]) == Some(next)
    ensures next in chain
  {
  }

  lemma NoLongerChain(edges: seq<Edge>, start: Id, c: seq<Id>, d: seq<Id>)
    requires IsTrustChain(edges, start, c) && IsTrustChain(edges, start, d)
    ensures |d| <= |c|
  {
    assert c != [];
    hide IsTrustChain, Issuer;
    if |c| < |d| {
      var k := |c|;
      ChainsAgree(edges, start, c, d, k);
      assert c == d[..k];
      assert c[k - 1] == d[k - 1];
      NextIsOutside(edges, start, d, k);
      StopsInside(edges, start, c, d[k]);
    }
  }

  /** The graph determines the chain. */
  lemma TrustChainIsUnique(edges: seq<Edge>, start: Id, c: seq<Id>, d: seq<Id>)
    requires IsTrustChain(edges, start, c) && IsTrustChain(edges, start, d)
    ensures c == d
  {
    NoLongerChain(edges, start, c, d);
    NoLongerChain(edges, start, d, c);
    ChainsAgree(edges, start, c, d, |c|);
  }

  /** The chain from a member: the rest of the chain, and, when the walk was stopped by a cycle the
      member lies on, once around that cycle. */
  ghost function FromMember(edges: seq<Edge>, chain: seq<Id>, i: nat): seq<Id>
    requires i < |chain|
  {
    var back := Issuer(edges, chain[|chain| - 1]);
    if j :| 0 <= j < i && back == Some(chain[j]) then chain[i..] + chain[j..i] else chain[i..]
  }

  lemma OnceAround(edges: seq<Edge>, start: Id, chain: seq<Id>, i: nat, j: nat)
    requires IsTrustChain(edges, start, chain) && j < i < |chain|
    requires Issuer(edges, chain[|chain| - 1]) == Some(chain[j])
    ensures IsTrustChain(edges, chain[i], chain[i..] + chain[j..i])
  {
    hide Issuer;
    var r, n := chain[i..] + chain[j..i], |chain| - i;
    assert forall k | 0 <= k < n :: r[k] == chain[i + k];
    assert forall k | n <= k < |r| :: r[k] == chain[j + k - n];
    forall k | 0 <= k < |r| - 1 ensures Issuer(edges, r[k]) == Some(r[k + 1]) {
      if k == n - 1 {
        assert r[k] == chain[|chain| - 1];
      }
    }
    assert r[|r| - 1] == chain[i - 1] && r[0] == chain[i];
  }

  lemma RestOfChain(edges: seq<Edge>, start: Id, chain: seq<Id>, i: nat)
    requires IsTrustChain(edges, start, chain) && i < |chain|
    requires forall j | 0 <= j < i :: Issuer(edges, chain[|chain| - 1]) != Some(chain[j])
    ensures IsTrustChain(edges, chain[i], chain[i..])
  {
    hide Issuer;
    var r, back := chain[i..], Issuer(edges, chain[|chain| - 1]);
    assert forall k | 0 <= k < |r| :: r[k] == chain[i + k];
    if back.Some? {
      var j :| 0 <= j < |chain| && chain[j] == back.value;
      assert r[j - i] == back.value;
    }
  }

  lemma ChainFromMember(edges: seq<Edge>, start: Id, chain: seq<Id>, i: nat)
    requires IsTrustChain(edges, start, chain) && i < |chain|
    ensures IsTrustChain(edges, chain[i], FromMember(edges, chain, i))
    ensures Issuer(edges, chain[|chain| - 1]) == None ==> FromMember(edges, chain, i) == chain[i..]
  {
    var back := Issuer(edges, chain[|chain| - 1]);
    if exists j :: 0 <= j < i && back == Some(chain[j]) {
      var j :| 0 <= j < i && back == Some(chain[j]) && FromMember(edges, chain, i) == chain[i..] + chain[j..i];
      OnceAround(edges, start, chain, i, j);
    } else {
      RestOfChain(edges, start, chain, i);
    }
  }
}
