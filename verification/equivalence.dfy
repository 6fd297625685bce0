/** Whether an update to an Endpoints object matters: two Endpoints are
    equivalent when their subsets agree position by position on the address
    (IP, hostname) pairs and the port (name, port, protocol) triples. The
    lists are taken in the order upstream delivers them; nothing is sorted. */
module Equivalence {
  import opened Wrappers
  import opened Objects

  /** The part of a subset the comparison looks at. */
  datatype SubsetView = SubsetView(addresses: seq<(string, string)>, ports: seq<(string, int, string)>)

  function ViewOf(s: EndpointSubset): SubsetView
  {
    SubsetView(
      seq(|s.addresses|, i requires 0 <= i < |s.addresses| => (s.addresses[i].ip, s.addresses[i].hostname)),
      seq(|s.ports|, i requires 0 <= i < |s.ports| => (s.ports[i].name, s.ports[i].port, s.ports[i].protocol)))
  }

  function SubsetsView(ss: seq<EndpointSubset>): seq<SubsetView>
  {
    seq(|ss|, i requires 0 <= i < |ss| => ViewOf(ss[i]))
  }

  /** `subsetsEquivalent`: equal lengths first, then the address loop and the
      port loop, each returning false at the first disagreeing field. */
  function SubsetsEquivalent(sa: EndpointSubset, sb: EndpointSubset): (r: bool)
    ensures r <==> ViewOf(sa) == ViewOf(sb)
  {
    var r :=
      && |sa.addresses| == |sb.addresses|
      && |sa.ports| == |sb.ports|
      && (forall i :: 0 <= i < |sa.addresses| ==>
            sa.addresses[i].ip == sb.addresses[i].ip && sa.addresses[i].hostname == sb.addresses[i].hostname)
      && (forall i :: 0 <= i < |sa.ports| ==>
            && sa.ports[i].name == sb.ports[i].name
            && sa.ports[i].port == sb.ports[i].port
            && sa.ports[i].protocol == sb.ports[i].protocol);
    assert ViewOf(sa) == ViewOf(sb) ==> r by {
      if ViewOf(sa) == ViewOf(sb) {
        var va, vb := ViewOf(sa), ViewOf(sb);
        forall i | 0 <= i < |sa.addresses|
          ensures sa.addresses[i].ip == sb.addresses[i].ip && sa.addresses[i].hostname == sb.addresses[i].hostname
        {
          assert va.addresses[i] == vb.addresses[i];
        }
        forall i | 0 <= i < |sa.ports|
          ensures sa.ports[i].name == sb.ports[i].name && sa.ports[i].port == sb.ports[i].port
          ensures sa.ports[i].protocol == sb.ports[i].protocol
        {
          assert va.ports[i] == vb.ports[i];
        }
      }
    }
    r
  }

  /** `endpointsEquivalent` over pointers (None is a nil pointer). */
  function EndpointsEquivalent(a: Option<Endpoints>, b: Option<Endpoints>): (r: bool)
    ensures r <==> a.Some? && b.Some? && SubsetsView(a.value.subsets) == SubsetsView(b.value.subsets)
    ensures a.None? || b.None? ==> !r
    ensures a.Some? && b.Some? && |a.value.subsets| != |b.value.subsets| ==> !r
  {
    if a.None? || b.None? then false
    else if |a.value.subsets| != |b.value.subsets| then false
    else
      var sa, sb := a.value.subsets, b.value.subsets;
      var r := forall i :: 0 <= i < |sa| ==> SubsetsEquivalent(sa[i], sb[i]);
      assert r <==> SubsetsView(sa) == SubsetsView(sb) by {
        if r {
          assert forall i :: 0 <= i < |sa| ==> SubsetsView(sa)[i] == SubsetsView(sb)[i];
        }
        if SubsetsView(sa) == SubsetsView(sb) {
          forall i | 0 <= i < |sa| ensures SubsetsEquivalent(sa[i], sb[i]) {
            assert SubsetsView(sa)[i] == SubsetsView(sb)[i];
          }
        }
      }
      r
  }

  /** Equivalence is positional agreement of every subset pair. */
  lemma EndpointsEquivalentPairwise(a: Endpoints, b: Endpoints)
    ensures EndpointsEquivalent(Some(a), Some(b)) <==>
      |a.subsets| == |b.subsets| &&
      forall i :: 0 <= i < |a.subsets| ==> SubsetsEquivalent(a.subsets[i], b.subsets[i])
  {
    if |a.subsets| == |b.subsets| && forall i :: 0 <= i < |a.subsets| ==> SubsetsEquivalent(a.subsets[i], b.subsets[i]) {
      assert SubsetsView(a.subsets) == SubsetsView(b.subsets) by {
        forall i | 0 <= i < |a.subsets| ensures SubsetsView(a.subsets)[i] == SubsetsView(b.subsets)[i] {
          assert SubsetsEquivalent(a.subsets[i], b.subsets[i]);
        }
      }
    }
    if EndpointsEquivalent(Some(a), Some(b)) {
      forall i | 0 <= i < |a.subsets| ensures SubsetsEquivalent(a.subsets[i], b.subsets[i]) {
        assert SubsetsView(a.subsets)[i] == SubsetsView(b.subsets)[i];
      }
    }
  }

  /** On non-nil values the comparison is an equivalence relation. */
  lemma EndpointsEquivalentIsEquivalence(a: Endpoints, b: Endpoints, c: Endpoints)
    ensures EndpointsEquivalent(Some(a), Some(a))
    ensures EndpointsEquivalent(Some(a), Some(b)) <==> EndpointsEquivalent(Some(b), Some(a))
    ensures EndpointsEquivalent(Some(a), Some(b)) && EndpointsEquivalent(Some(b), Some(c)) ==>
            EndpointsEquivalent(Some(a), Some(c))
  {
  }

  /** Fields outside the (IP, hostname) and (name, port, protocol) views do not
      matter: changing node names, target references, versions or any other
      metadata keeps an Endpoints equivalent to itself. */
  lemma OtherFieldsIgnored(a: Endpoints, b: Endpoints)
    requires |a.subsets| == |b.subsets|
    requires forall i :: 0 <= i < |a.subsets| ==>
      && |a.subsets[i].addresses| == |b.subsets[i].addresses|
      && |a.subsets[i].ports| == |b.subsets[i].ports|
      && (forall j :: 0 <= j < |a.subsets[i].addresses| ==>
            a.subsets[i].addresses[j].ip == b.subsets[i].addresses[j].ip &&
            a.subsets[i].addresses[j].hostname == b.subsets[i].addresses[j].hostname)
      && (forall j :: 0 <= j < |a.subsets[i].ports| ==>
            a.subsets[i].ports[j] == b.subsets[i].ports[j])
    ensures EndpointsEquivalent(Some(a), Some(b))
  {
    forall i | 0 <= i < |a.subsets| ensures SubsetsEquivalent(a.subsets[i], b.subsets[i]) {
    }
    EndpointsEquivalentPairwise(a, b);
  }

  /** A changed IP in any address of any subset is seen. */
  lemma AddressChangeDetected(a: Endpoints, b: Endpoints, i: nat, j: nat)
    requires i < |a.subsets| && i < |b.subsets|
    requires j < |a.subsets[i].addresses| && j < |b.subsets[i].addresses|
    requires a.subsets[i].addresses[j].ip != b.subsets[i].addresses[j].ip
    ensures !EndpointsEquivalent(Some(a), Some(b))
  {
    EndpointsEquivalentPairwise(a, b);
  }
}
