/** The podnames DNS handler: A and AAAA answers for `name.namespace.zone`
    from the borrowed pod indexer, and PTR answers for reverse names. The
    message is reduced to its question and the answer section; the DNS
    helpers of CoreDNS and the net package are parameters. */
module PodNamesHandler {
  import opened Wrappers
  import opened Objects
  import opened Store
  import opened GoStrings
  import opened PodNamesPlugin
  import KubeController
  import KubeApiWatcher

  // Resource record types, section 3.2.2 of RFC 1035 and section 2.1 of RFC 3596.
  const TypeA: nat := 1
  const TypePTR: nat := 12
  const TypeAAAA: nat := 28

  // Response codes, section 4.1.1 of RFC 1035.
  const RcodeSuccess: nat := 0
  const RcodeServerFailure: nat := 2
  const RcodeNameError: nat := 3

  const UnexpectedItemType := "unexpected indexer item type"

  /** A question: `qname` is the name as `state.QName()` gives it (lower
      case), `name` as `state.Name()` gives it (as sent). */
  datatype Question = Question(qname: string, qtype: nat, name: string)

  /** What `net.ParseIP` makes of a pod address, as `To4` and `To16` see it:
      `To16` is non-nil for every address it parses, `To4` only for IPv4. */
  datatype IPForm = Unparsable | V4 | V6

  /** The answer records, carrying the address text they were built from. */
  datatype RR =
    | A(name: string, ttl: int, addr: string)
    | AAAA(name: string, ttl: int, addr: string)
    | PTR(name: string, ttl: int, target: string)

  datatype Reply = Reply(authoritative: bool, answer: seq<RR>)

  /** `Delegated` is the hand-off to the next plugin; otherwise the handler
      returns an rcode, the reply it wrote (if any) and an error. */
  datatype Outcome = Delegated | Answered(rcode: nat, written: Option<Reply>, err: Option<string>)

  /** The calls into code outside the repository. */
  datatype Env = Env(
    matches: (seq<string>, string) -> string,   // plugin.Zones(zones).Matches(qname)
    isReverse: string -> bool,                  // dnsutil.IsReverse(qname) > 0
    extractAddress: string -> string,           // dnsutil.ExtractAddressFromReverse
    parseIP: string -> IPForm,                  // net.ParseIP
    writeErr: Option<string>)                   // the result of w.WriteMsg

  /** Writing the reply: a write error turns the answer into SERVFAIL. */
  function Write(m: Reply, env: Env): (r: Outcome)
    ensures r.Answered? && r.written == Some(m) && r.err == env.writeErr
    ensures r.rcode == RcodeSuccess <==> env.writeErr.None?
    ensures r.rcode != RcodeSuccess ==> r.rcode == RcodeServerFailure
  {
    match env.writeErr
    case Some(e) => Answered(RcodeServerFailure, Some(m), Some(e))
    case None => Answered(RcodeSuccess, Some(m), None)
  }

  // ---- Reverse lookups ----

  /** The pods a reverse answer is built from, as the source selects them:
      items whose dynamic type is the value type `object.Pod`. */
  function ReversePodsAsWritten(objs: seq<Item>): (r: seq<Pod>)
    ensures forall x :: x in r <==> exists i :: 0 <= i < |objs| && objs[i] == PodValueItem(x)
  {
    Select(objs, AsPodValue)
  }

  /** The stores hold `*object.Pod`, so every item of a pod index fails the
      value-type assertion and a reverse lookup never finds a pod. */
  lemma ReverseAsWrittenMissesPointers(objs: seq<Item>)
    requires forall i :: 0 <= i < |objs| ==> objs[i].PodItem?
    ensures ReversePodsAsWritten(objs) == []
  {
    SelectNone(objs, AsPodValue);
  }

  /** The selection with the pointer type the stores hold. */
  function ReversePods(objs: seq<Item>): (r: seq<Pod>)
    ensures forall x :: x in r <==> exists i :: 0 <= i < |objs| && objs[i] == PodItem(x)
  {
    Select(objs, AsPod)
  }

  /** On a pod index every stored pod is answered, in index order. */
  lemma {:induction false} ReversePodsKeepsAll(objs: seq<Item>)
    requires forall i :: 0 <= i < |objs| ==> objs[i].PodItem?
    ensures |ReversePods(objs)| == |objs|
    ensures forall i :: 0 <= i < |objs| ==> ReversePods(objs)[i] == objs[i].pod
    decreases |objs|
  {
    if objs != [] {
      ReversePodsKeepsAll(objs[1..]);
    }
  }

  /** On the pod index the kubernetes consumer installs, the selection as
      written finds nothing for any address, while the corrected one finds
      exactly pods with that address. */
  lemma ReverseOnPodIndex(h: Handle, ip: string)
    requires IndexedBy(h, KubeController.PodIPIndex, KubeApiWatcher.PodIPKeys)
    ensures ByIndex(h, KubeController.PodIPIndex, ip).Ok?
    ensures ReversePodsAsWritten(ByIndex(h, KubeController.PodIPIndex, ip).value) == []
    ensures forall x :: x in ReversePods(ByIndex(h, KubeController.PodIPIndex, ip).value) ==> x.podIP == ip
  {
    var objs := ByIndex(h, KubeController.PodIPIndex, ip).value;
    assert forall i :: 0 <= i < |objs| ==> KubeApiWatcher.PodIPKeys(objs[i]).Ok?;
    ReverseAsWrittenMissesPointers(objs);
  }

  /** One PTR record per pod, pointing at `name.namespace.<first zone>`. */
  function PtrRecords(qname: string, ttl: int, pods: seq<Pod>, zones: seq<string>): (r: seq<RR>)
    requires |pods| == 0 || |zones| > 0
    ensures |r| == |pods|
    ensures forall i :: 0 <= i < |r| ==>
              r[i] == PTR(qname, ttl, pods[i].name + "." + pods[i].namespace + "." + zones[0])
  {
    seq(|pods|, i requires 0 <= i < |pods| =>
      PTR(qname, ttl, pods[i].name + "." + pods[i].namespace + "." + zones[0]))
  }

  /** The reverse branch (lines 28-57), with the type assertion of line 38
      as `pick`: the source asserts the value type `AsPodValue`, the stores
      hold what `AsPod` accepts. Calling a method on the nil indexer and
      reading the first zone of an empty list both panic. */
  function Reverse(p: PodNames, q: Question, env: Env, pick: Item -> Option<Pod>): (r: Run<Outcome>)
    ensures p.podIndexer.None? ==> r.Panics?
    ensures p.podIndexer.Some? && ByIndex(p.podIndexer.value, KubeController.PodIPIndex, env.extractAddress(q.name)).Err? ==>
              r == Returns(Answered(RcodeServerFailure, None,
                                    Some(ByIndex(p.podIndexer.value, KubeController.PodIPIndex, env.extractAddress(q.name)).error)))
    ensures r.Returns? ==> r.value.Answered?
    ensures r.Returns? && r.value.written.Some? ==>
              && !r.value.written.value.authoritative
              && forall rr :: rr in r.value.written.value.answer ==> rr.PTR? && rr.name == q.qname && rr.ttl == p.ttl
  {
    match p.podIndexer
    case None => Panics("invalid memory address or nil pointer dereference")
    case Some(h) =>
      match ByIndex(h, KubeController.PodIPIndex, env.extractAddress(q.name))
      case Err(e) => Returns(Answered(RcodeServerFailure, None, Some(e)))
      case Ok(objs) =>
        var pods := Select(objs, pick);
        if |pods| > 0 && |p.zones| == 0 then Panics("index out of range [0] with length 0")
        else Returns(Write(Reply(false, PtrRecords(q.qname, p.ttl, pods, p.zones)), env))
  }

  // ---- Forward lookups ----

  /** The name left of the zone as the source computes it: everything before
      the character preceding the FIRST occurrence of the zone text. A first
      occurrence at position 0 (the zone apex) or none at all gives a
      negative slice bound, which panics. */
  function SubdomainAsWritten(qname: string, zone: string): (r: Run<string>)
    ensures r.Panics? <==> Index(qname, zone) < 1
    ensures r.Returns? ==> var n := |r.value|;
              && n + 1 + |zone| <= |qname| && qname[..n] == r.value
              && OccursAt(qname, zone, n + 1)
              && forall i :: 0 <= i <= n ==> !OccursAt(qname, zone, i)
  {
    var i := Index(qname, zone);
    if i - 1 < 0 then Panics("slice bounds out of range")
    else Returns(qname[..i - 1])
  }

  /** A pod whose name contains the zone text is cut short: pod "ab" in
      namespace "c" under zone "b." reads as the empty name. */
  lemma FirstOccurrenceMisreadsName()
    ensures SubdomainAsWritten("ab.c.b.", "b.") == Returns("")
    ensures Subdomain("ab.c.b.", "b.") == "ab.c"
    ensures LookupKey("") == None && LookupKey("ab.c") == Some("c/ab")
  {
    LookupKeyOfPodName("ab", "c", "");
    assert "ab" + "." + "c" == "ab.c";
    assert "c" + "/" + "ab" == "c/ab";
    var q, z := "ab.c.b.", "b.";
    assert q[1..3] == z;
    assert OccursAt(q, z, 1);
    assert !OccursAt(q, z, 0) by { assert q[0] != z[0]; }
    assert Index(q, z) == 1;
    assert q[5..] == z;
  }

  /** Under the root zone the slice as written keeps only what precedes the
      character before the first dot: `web.ns.` reads as `we`, so every
      forward question on a root-zone server is NXDOMAIN. The corrected
      strip gives `web.ns` and the key `ns/web`. */
  lemma RootZoneMisreadsName()
    ensures SubdomainAsWritten("web.ns.", ".") == Returns("we")
    ensures Subdomain("web.ns.", ".") == "web.ns"
    ensures LookupKey("we") == None && LookupKey("web.ns") == Some("ns/web")
  {
    RootZoneFirstDot();
    assert "web.ns."[..2] == "we";
    assert LookupKey("web.ns") == Some("ns/web") by {
      LookupKeyOfPodName("web", "ns", "");
      assert "web" + "." + "ns" == "web.ns";
      assert "ns" + "/" + "web" == "ns/web";
    }
    assert LookupKey("we") == None by {
      assert '.' !in "we";
    }
    assert Subdomain("web.ns.", ".") == "web.ns" by {
      SubdomainStripsRoot("web.ns");
      assert "web.ns" + "." == "web.ns.";
    }
  }

  lemma RootZoneFirstDot()
    ensures Index("web.ns.", ".") == 3
  {
    var q, z := "web.ns.", ".";
    assert q[3..4] == z;
    assert OccursAt(q, z, 3);
    assert q[0] != '.' && q[1] != '.' && q[2] != '.';
  }

  /** A question for the zone apex itself panics. */
  lemma ZoneApexPanicsAsWritten(zone: string)
    ensures SubdomainAsWritten(zone, zone).Panics?
  {
    assert OccursAt(zone, zone, 0);
  }

  /** The name left of the zone: the query name minus the matched zone
      suffix and the dot that separates them, or "" when the zone is not a
      suffix. Under the root zone "." no separating dot remains, so only
      the zone itself is removed. */
  function Subdomain(qname: string, zone: string): (sub: string)
    ensures |sub| <= |qname| && sub == qname[..|sub|]
    ensures zone != "" ==> |sub| < |qname| || sub == ""
  {
    if |zone| <= |qname| && qname[|qname| - |zone|..] == zone then
      var rest := qname[..|qname| - |zone|];
      if |rest| > 0 && rest[|rest| - 1] == '.' then rest[..|rest| - 1] else rest
    else ""
  }

  lemma SubdomainStripsZone(sub: string, zone: string)
    ensures Subdomain(sub + "." + zone, zone) == sub
    ensures Subdomain(zone, zone) == ""
  {
    var q := sub + "." + zone;
    assert q[|q| - |zone|..] == zone;
    assert q[..|q| - |zone|] == sub + ".";
    assert (sub + ".")[..|sub|] == sub;
  }

  /** Under the root zone, `sub.` strips to `sub` when `sub` is a name
      without a trailing dot. */
  lemma SubdomainStripsRoot(sub: string)
    requires sub == "" || sub[|sub| - 1] != '.'
    ensures Subdomain(sub + ".", ".") == sub
  {
    var q := sub + ".";
    assert q[|q| - 1..] == ".";
    assert q[..|q| - 1] == sub;
  }

  /** The cache key of a name: the first two labels, read as name and
      namespace. Names with fewer than two labels have none. */
  function LookupKey(sub: string): (r: Option<string>)
    ensures r.Some? <==> '.' in sub
  {
    var segs := Split(sub, '.');
    SplitSingle(sub, '.');
    if |segs| < 2 then None else Some(segs[1] + "/" + segs[0])
  }

  /** `name.namespace` and `name.namespace.anything` both look up `namespace/name`. */
  lemma LookupKeyOfPodName(name: string, ns: string, rest: string)
    requires '.' !in name && '.' !in ns
    ensures LookupKey(name + "." + ns) == Some(ns + "/" + name)
    ensures LookupKey(name + "." + ns + "." + rest) == Some(ns + "/" + name)
  {
    var two := [name, ns];
    assert Join(two, '.') == name + "." + ns;
    SplitJoin(two, '.');
    var more := two + Split(rest, '.');
    JoinSplit(rest, '.');
    assert more[1..] == [ns] + Split(rest, '.');
    assert Join(more[1..], '.') == ns + "." + rest;
    assert Join(more, '.') == name + "." + ns + "." + rest;
    assert forall i :: 0 <= i < |more| ==> '.' !in more[i];
    SplitJoin(more, '.');
  }

  /** The address records for one pod: A only for an IPv4 address on an A
      question; AAAA for any parsable address on an AAAA question. */
  function Answers(qname: string, qtype: nat, ttl: int, ip: string, form: IPForm): (r: seq<RR>)
    ensures |r| <= 1
    ensures forall rr :: rr in r ==> !rr.PTR? && rr.name == qname && rr.ttl == ttl && rr.addr == ip
    ensures (exists rr :: rr in r && rr.A?) <==> form == V4 && qtype == TypeA
    ensures (exists rr :: rr in r && rr.AAAA?) <==> form != Unparsable && qtype == TypeAAAA
  {
    (if form == V4 && qtype == TypeA then [A(qname, ttl, ip)] else []) +
    (if form != Unparsable && qtype == TypeAAAA then [AAAA(qname, ttl, ip)] else [])
  }

  /** An AAAA question for a pod with an IPv4 address is answered with an
      AAAA record holding that IPv4 address. */
  lemma AaaaForIPv4Pod(qname: string, ttl: int, ip: string)
    ensures Answers(qname, TypeAAAA, ttl, ip, V4) == [AAAA(qname, ttl, ip)]
  {
  }

  /** The forward branch once the zone is stripped (lines 61-109), on the
      remaining name `sub`. */
  function ForwardFrom(p: PodNames, q: Question, sub: string, env: Env): (r: Run<Outcome>)
    ensures LookupKey(sub).None? ==> r == Returns(Answered(RcodeNameError, None, None))
    ensures LookupKey(sub).Some? && p.podIndexer.None? ==> r.Panics?
    ensures LookupKey(sub).Some? && p.podIndexer.Some? ==>
              var l := GetByKey(p.podIndexer.value, LookupKey(sub).value);
              && (l.LookupFailed? ==> r == Returns(Answered(RcodeServerFailure, None, Some(l.err))))
              && (l.Missing? ==> r == Returns(Answered(RcodeNameError, None, None)))
              && (l.Found? && AsPod(l.item).None? ==>
                    r == Returns(Answered(RcodeServerFailure, None, Some(UnexpectedItemType))))
    ensures r.Returns? ==> r.value.Answered?
    ensures r.Returns? && r.value.written.Some? ==> r.value.written.value.authoritative
  {
    match LookupKey(sub)
    case None => Returns(Answered(RcodeNameError, None, None))
    case Some(key) =>
      match p.podIndexer
      case None => Panics("invalid memory address or nil pointer dereference")
      case Some(h) =>
        match GetByKey(h, key)
        case LookupFailed(e) => Returns(Answered(RcodeServerFailure, None, Some(e)))
        case Missing => Returns(Answered(RcodeNameError, None, None))
        case Found(item) =>
          match AsPod(item)
          case None => Returns(Answered(RcodeServerFailure, None, Some(UnexpectedItemType)))
          case Some(pod) =>
            Returns(Write(Reply(true, Answers(q.qname, q.qtype, p.ttl, pod.podIP, env.parseIP(pod.podIP))), env))
  }

  /** The forward branch with the corrected zone strip. */
  function Forward(p: PodNames, q: Question, zone: string, env: Env): (r: Run<Outcome>)
    ensures LookupKey(Subdomain(q.qname, zone)).None? ==> r == Returns(Answered(RcodeNameError, None, None))
    ensures LookupKey(Subdomain(q.qname, zone)).Some? && p.podIndexer.None? ==> r.Panics?
    ensures LookupKey(Subdomain(q.qname, zone)).Some? && p.podIndexer.Some? ==>
              var l := GetByKey(p.podIndexer.value, LookupKey(Subdomain(q.qname, zone)).value);
              && (l.LookupFailed? ==> r == Returns(Answered(RcodeServerFailure, None, Some(l.err))))
              && (l.Missing? ==> r == Returns(Answered(RcodeNameError, None, None)))
              && (l.Found? && AsPod(l.item).None? ==>
                    r == Returns(Answered(RcodeServerFailure, None, Some(UnexpectedItemType))))
    ensures r.Returns? && r.value.Answered? && r.value.written.Some? ==> r.value.written.value.authoritative
  {
    ForwardFrom(p, q, Subdomain(q.qname, zone), env)
  }

  /** The forward branch as written: the slice of line 60, then the rest. */
  function ForwardAsWritten(p: PodNames, q: Question, zone: string, env: Env): (r: Run<Outcome>)
    ensures Index(q.qname, zone) < 1 ==> r.Panics?
    ensures Index(q.qname, zone) >= 1 && LookupKey(q.qname[..Index(q.qname, zone) - 1]).None? ==>
              r == Returns(Answered(RcodeNameError, None, None))
  {
    match SubdomainAsWritten(q.qname, zone)
    case Panics(why) => Panics(why)
    case Returns(sub) => ForwardFrom(p, q, sub, env)
  }

  /** The two strips agree when the first occurrence of the zone text in a
      name below the apex is its suffix, that is, when the zone text occurs
      nowhere earlier in the name. */
  lemma ForwardAsWrittenAgreesOnSuffix(p: PodNames, q: Question, zone: string, env: Env)
    requires |zone| < |q.qname| && Index(q.qname, zone) == |q.qname| - |zone|
    requires q.qname[|q.qname| - |zone| - 1] == '.'
    ensures ForwardAsWritten(p, q, zone, env) == Forward(p, q, zone, env)
  {
    var n := |q.qname| - |zone|;
    assert OccursAt(q.qname, zone, n);
    assert SubdomainAsWritten(q.qname, zone) == Returns(q.qname[..n - 1]);
    var rest := q.qname[..n];
    assert rest[|rest| - 1] == '.';
    assert rest[..|rest| - 1] == q.qname[..n - 1];
    assert Subdomain(q.qname, zone) == q.qname[..n - 1];
  }

  /** Where `ServeDNS` sends a question (lines 19-28): to the next plugin,
      to the reverse branch, or to the forward branch under the matched zone. */
  datatype Route = ToNext | ToReverse | ToForward(zone: string)

  function RouteOf(p: PodNames, q: Question, env: Env): (r: Route)
    ensures r == ToNext <==> (q.qtype != TypeA && q.qtype != TypeAAAA) || env.matches(p.zones, q.qname) == ""
    ensures r == ToReverse ==> env.isReverse(q.qname)
    ensures r.ToForward? ==> r.zone == env.matches(p.zones, q.qname) && r.zone != "" && !env.isReverse(q.qname)
  {
    if q.qtype != TypeA && q.qtype != TypeAAAA then ToNext
    else
      var zone := env.matches(p.zones, q.qname);
      if zone == "" then ToNext
      else if env.isReverse(q.qname) then ToReverse
      else ToForward(zone)
  }

  /** `ServeDNS` with the two corrections: reverse answers take the pointer
      type, and the zone is stripped as a suffix. Only A and AAAA questions
      are considered, so a PTR question, even for a reverse name, goes to
      the next plugin. */
  function ServeDNS(p: PodNames, q: Question, env: Env): (r: Run<Outcome>)
    ensures q.qtype != TypeA && q.qtype != TypeAAAA ==> r == Returns(Delegated)
    ensures env.matches(p.zones, q.qname) == "" ==> r == Returns(Delegated)
    ensures r == Returns(Delegated) ==>
              (q.qtype != TypeA && q.qtype != TypeAAAA) || env.matches(p.zones, q.qname) == ""
    ensures r.Returns? && r.value.Answered? && r.value.rcode == RcodeSuccess ==>
              r.value.written.Some? && r.value.err.None? && env.writeErr.None?
  {
    match RouteOf(p, q, env)
    case ToNext => Returns(Delegated)
    case ToReverse => Reverse(p, q, env, AsPod)
    case ToForward(zone) => Forward(p, q, zone, env)
  }

  /** `ServeDNS` as written: the value-type assertion of line 38 and the
      first-occurrence slice of line 60. It delegates exactly the questions
      the corrected handler delegates. */
  function ServeDNSAsWritten(p: PodNames, q: Question, env: Env): (r: Run<Outcome>)
    ensures r == Returns(Delegated) <==> ServeDNS(p, q, env) == Returns(Delegated)
    ensures r.Returns? && r.value.Answered? && r.value.rcode == RcodeSuccess ==>
              r.value.written.Some? && r.value.err.None? && env.writeErr.None?
  {
    match RouteOf(p, q, env)
    case ToNext => Returns(Delegated)
    case ToReverse => Reverse(p, q, env, AsPodValue)
    case ToForward(zone) => ForwardAsWritten(p, q, zone, env)
  }

  /** A forward question for the zone apex panics as written, while the
      corrected handler answers NXDOMAIN. */
  lemma ApexQuestionPanicsAsWritten(p: PodNames, q: Question, env: Env)
    requires q.qtype == TypeA || q.qtype == TypeAAAA
    requires q.qname != "" && env.matches(p.zones, q.qname) == q.qname && !env.isReverse(q.qname)
    ensures ServeDNSAsWritten(p, q, env).Panics?
    ensures ServeDNS(p, q, env) == Returns(Answered(RcodeNameError, None, None))
  {
    ZoneApexPanicsAsWritten(q.qname);
    SubdomainStripsZone("", q.qname);
  }

  /** A reverse question on the pod index the kubernetes consumer installs
      gets an empty successful reply as written, whatever pods the index
      holds for the address. */
  lemma ReverseAsWrittenAnswersNothing(p: PodNames, h: Handle, q: Question, env: Env)
    requires q.qtype == TypeA || q.qtype == TypeAAAA
    requires env.matches(p.zones, q.qname) != "" && env.isReverse(q.qname)
    requires p.podIndexer == Some(h) && env.writeErr.None?
    requires IndexedBy(h, KubeController.PodIPIndex, KubeApiWatcher.PodIPKeys)
    ensures ServeDNSAsWritten(p, q, env) == Returns(Answered(RcodeSuccess, Some(Reply(false, [])), None))
  {
    ReverseOnPodIndex(h, env.extractAddress(q.name));
  }

  /** The question name of pod `name` in namespace `ns` under `zone`; under
      the root zone it is `name.ns.`. */
  function PodQName(name: string, ns: string, zone: string): string
  {
    if zone == "." then name + "." + ns + "." else name + "." + ns + "." + zone
  }

  /** The forward promise: an A or AAAA question for `name.namespace.zone`
      (`name.namespace.` under the root zone) is answered from the entry stored under `namespace/name`: a failed
      lookup is SERVFAIL with its error, a missing entry NXDOMAIN, an entry
      of another type SERVFAIL, and a pod its address records. */
  lemma ForwardAnswersStoredPod(p: PodNames, h: Handle, name: string, ns: string, zone: string,
                                qtype: nat, asSent: string, env: Env)
    requires '.' !in name && '.' !in ns && zone != ""
    requires zone == "." ==> ns != ""
    requires qtype == TypeA || qtype == TypeAAAA
    requires var qname := PodQName(name, ns, zone);
             env.matches(p.zones, qname) == zone && !env.isReverse(qname)
    requires p.podIndexer == Some(h)
    ensures var qname := PodQName(name, ns, zone);
      var key := ns + "/" + name;
      var r := ServeDNS(p, Question(qname, qtype, asSent), env);
      && (key in h.failing ==> r == Returns(Answered(RcodeServerFailure, None, Some(GetByKey(h, key).err))))
      && (key !in h.failing && key !in h.keyed ==> r == Returns(Answered(RcodeNameError, None, None)))
      && (key !in h.failing && key in h.keyed && AsPod(h.keyed[key]).None? ==>
            r == Returns(Answered(RcodeServerFailure, None, Some(UnexpectedItemType))))
      && (key !in h.failing && key in h.keyed && h.keyed[key].PodItem? ==>
            var pod := h.keyed[key].pod;
            r == Returns(Write(Reply(true, Answers(qname, qtype, p.ttl, pod.podIP, env.parseIP(pod.podIP))), env)))
  {
    var sub := name + "." + ns;
    if zone == "." {
      assert sub[|sub| - 1] == ns[|ns| - 1];
      SubdomainStripsRoot(sub);
    } else {
      assert name + "." + ns + "." + zone == sub + "." + zone;
      SubdomainStripsZone(sub, zone);
    }
    LookupKeyOfPodName(name, ns, "");
  }

  /** The reverse promise: with a non-empty zone list, a reverse question
      that the pod index answers with pods gets one PTR per pod, pointing at
      `name.namespace.<first zone>`. */
  lemma ReverseAnswersIndexedPods(p: PodNames, h: Handle, q: Question, env: Env, objs: seq<Item>)
    requires q.qtype == TypeA || q.qtype == TypeAAAA
    requires env.matches(p.zones, q.qname) != "" && env.isReverse(q.qname)
    requires p.podIndexer == Some(h) && |p.zones| > 0 && env.writeErr.None?
    requires ByIndex(h, KubeController.PodIPIndex, env.extractAddress(q.name)) == Ok(objs)
    requires forall i :: 0 <= i < |objs| ==> objs[i].PodItem?
    ensures var r := ServeDNS(p, q, env);
      && r.Returns? && r.value.Answered? && r.value.rcode == RcodeSuccess
      && var ans := r.value.written.value.answer;
      && |ans| == |objs|
      && forall i :: 0 <= i < |objs| ==>
           ans[i] == PTR(q.qname, p.ttl, objs[i].pod.name + "." + objs[i].pod.namespace + "." + p.zones[0])
  {
    ReversePodsKeepsAll(objs);
  }
}
