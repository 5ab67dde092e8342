/**
 * What one poll cycle pushes, stated against the GETs it issues: every GET contributes
 * on its own (a failure record when it fails; decoded events only at the lag-report
 * level), siblings do not affect each other, and the test scenarios of the plugin.
 */
module CascadeProperties {
  import opened Ruby
  import opened Requests
  import opened Cascade

  /** A GET of the cycle: the cluster list, a cluster's consumer list, or a lag report. */
  datatype Call = ClusterList | ConsumerList(cluster: string) | LagReport(cluster: string, consumer: string)

  function CallRequest(base: Request, call: Call): Request {
    match call
    case ClusterList => base
    case ConsumerList(c) => ConsumerRequest(base, c)
    case LagReport(c, k) => LagRequest(base, c, k)
  }

  // The GETs of one cycle, in the order they are issued, level by level.

  function LagCalls(cluster: string, consumers: seq<string>): (r: seq<Call>)
    ensures |r| == |consumers|
    ensures forall i :: 0 <= i < |r| ==> r[i] == LagReport(cluster, consumers[i])
  {
    if consumers == [] then []
    else LagCalls(cluster, consumers[..|consumers| - 1]) + [LagReport(cluster, consumers[|consumers| - 1])]
  }

  function ConsumerListsCalls(env: Env, base: Request, cluster: string, lists: seq<Option<seq<string>>>): seq<Call> {
    if lists == [] then []
    else
      var last := lists[|lists| - 1];
      ConsumerListsCalls(env, base, cluster, lists[..|lists| - 1]) + (if last.Some? then LagCalls(cluster, last.value) else [])
  }

  function BranchCalls(env: Env, base: Request, cluster: string): seq<Call> {
    [ConsumerList(cluster)] +
    match env.get(ConsumerRequest(base, cluster))
    case Failed(_) => []
    case Completed(body) =>
      if Usable(body) then ConsumerListsCalls(env, base, cluster, env.listing(body.value, "consumers")) else []
  }

  function ClustersCalls(env: Env, base: Request, clusters: seq<string>): seq<Call> {
    if clusters == [] then []
    else ClustersCalls(env, base, clusters[..|clusters| - 1]) + BranchCalls(env, base, clusters[|clusters| - 1])
  }

  function ClusterListsCalls(env: Env, base: Request, lists: seq<Option<seq<string>>>): seq<Call> {
    if lists == [] then []
    else
      var last := lists[|lists| - 1];
      ClusterListsCalls(env, base, lists[..|lists| - 1]) + (if last.Some? then ClustersCalls(env, base, last.value) else [])
  }

  /** Every GET of a poll cycle; the first is the cluster list. */
  function CycleCalls(env: Env, base: Request): (r: seq<Call>)
    ensures |r| >= 1 && r[0] == ClusterList
  {
    [ClusterList] +
    match env.get(base)
    case Failed(_) => []
    case Completed(body) =>
      if Usable(body) then ClusterListsCalls(env, base, env.listing(body.value, "clusters")) else []
  }

  /** What one GET's callbacks push, judged from that GET alone: a failure record when it
      fails (none when building that record raises); when it succeeds, the decoded events of a lag report, and nothing at the two
      listing levels. */
  function Contribution(env: Env, base: Request, call: Call): seq<Emission> {
    var req := CallRequest(base, call);
    match env.get(req)
    case Failed(e) => FailureEmission(env, req, e)
    case Completed(body) => if call.LagReport? then SuccessEmissions(env, req, body) else []
  }

  function Contributions(env: Env, base: Request, calls: seq<Call>): seq<Emission> {
    if calls == [] then []
    else Contributions(env, base, calls[..|calls| - 1]) + Contribution(env, base, calls[|calls| - 1])
  }

  lemma {:induction false} ContributionsAppend(env: Env, base: Request, a: seq<Call>, b: seq<Call>)
    ensures Contributions(env, base, a + b) == Contributions(env, base, a) + Contributions(env, base, b)
    decreases |b|
  {
    if b == [] {
      assert a + b == a;
    } else {
      var b' := b[..|b| - 1];
      var last := Contribution(env, base, b[|b| - 1]);
      assert (a + b)[..|a + b| - 1] == a + b';
      assert (a + b)[|a + b| - 1] == b[|b| - 1];
      assert Contributions(env, base, a + b) == Contributions(env, base, a + b') + last;
      ContributionsAppend(env, base, a, b');
      assert Contributions(env, base, b) == Contributions(env, base, b') + last;
      assert (Contributions(env, base, a) + Contributions(env, base, b')) + last ==
             Contributions(env, base, a) + (Contributions(env, base, b') + last);
    }
  }

  lemma {:induction false} LagsContribute(env: Env, base: Request, cluster: string, consumers: seq<string>)
    ensures ConsumersEmissions(env, base, cluster, consumers) == Contributions(env, base, LagCalls(cluster, consumers))
    decreases |consumers|
  {
    if consumers != [] {
      var init := consumers[..|consumers| - 1];
      LagsContribute(env, base, cluster, init);
      ContributionsAppend(env, base, LagCalls(cluster, init), [LagReport(cluster, consumers[|consumers| - 1])]);
      assert [LagReport(cluster, consumers[|consumers| - 1])][..0] == [];
    }
  }

  lemma {:induction false} ConsumerListsContribute(env: Env, base: Request, cluster: string, lists: seq<Option<seq<string>>>)
    ensures ConsumerListsEmissions(env, base, cluster, lists) == Contributions(env, base, ConsumerListsCalls(env, base, cluster, lists))
    decreases |lists|
  {
    if lists != [] {
      var init := lists[..|lists| - 1];
      var last := lists[|lists| - 1];
      ConsumerListsContribute(env, base, cluster, init);
      var more := if last.Some? then LagCalls(cluster, last.value) else [];
      ContributionsAppend(env, base, ConsumerListsCalls(env, base, cluster, init), more);
      if last.Some? {
        LagsContribute(env, base, cluster, last.value);
      }
    }
  }

  lemma BranchContributes(env: Env, base: Request, cluster: string)
    ensures ClusterEmissions(env, base, cluster) == Contributions(env, base, BranchCalls(env, base, cluster))
  {
    var req := ConsumerRequest(base, cluster);
    var rest := BranchCalls(env, base, cluster)[1..];
    assert BranchCalls(env, base, cluster) == [ConsumerList(cluster)] + rest;
    ContributionsAppend(env, base, [ConsumerList(cluster)], rest);
    assert [ConsumerList(cluster)][..0] == [];
    if env.get(req).Completed? && Usable(env.get(req).body) {
      ConsumerListsContribute(env, base, cluster, env.listing(env.get(req).body.value, "consumers"));
    }
  }

  lemma {:induction false} ClustersContribute(env: Env, base: Request, clusters: seq<string>)
    ensures ClustersEmissions(env, base, clusters) == Contributions(env, base, ClustersCalls(env, base, clusters))
    decreases |clusters|
  {
    if clusters != [] {
      var init := clusters[..|clusters| - 1];
      ClustersContribute(env, base, init);
      BranchContributes(env, base, clusters[|clusters| - 1]);
      ContributionsAppend(env, base, ClustersCalls(env, base, init), BranchCalls(env, base, clusters[|clusters| - 1]));
    }
  }

  lemma {:induction false} ClusterListsContribute(env: Env, base: Request, lists: seq<Option<seq<string>>>)
    ensures ClusterListsEmissions(env, base, lists) == Contributions(env, base, ClusterListsCalls(env, base, lists))
    decreases |lists|
  {
    if lists != [] {
      var init := lists[..|lists| - 1];
      var last := lists[|lists| - 1];
      ClusterListsContribute(env, base, init);
      var more := if last.Some? then ClustersCalls(env, base, last.value) else [];
      ContributionsAppend(env, base, ClusterListsCalls(env, base, init), more);
      if last.Some? {
        ClustersContribute(env, base, last.value);
      }
    }
  }

  /** A poll cycle pushes, in order, the contribution of each GET it issues. */
  lemma CycleContributes(env: Env, base: Request)
    ensures CycleEmissions(env, base) == Contributions(env, base, CycleCalls(env, base))
  {
    var rest := CycleCalls(env, base)[1..];
    assert CycleCalls(env, base) == [ClusterList] + rest;
    ContributionsAppend(env, base, [ClusterList], rest);
    assert [ClusterList][..0] == [];
    var response := env.get(base);
    if response.Completed? && Usable(response.body) {
      ClusterListsContribute(env, base, env.listing(response.body.value, "clusters"));
    }
  }

  // ---------------------------------------------------------------------------
  // Failures: one record per failed GET, carrying that GET's request.

  /** The requests of the failure records, in order. */
  function FailedRequests(ems: seq<Emission>): seq<Request> {
    if ems == [] then []
    else FailedRequests(ems[..|ems| - 1]) + (if ems[|ems| - 1].Failure? then [ems[|ems| - 1].request] else [])
  }

  /** The requests of the GETs that fail and whose failure record is built, in order. */
  function FailedCalls(env: Env, base: Request, calls: seq<Call>): seq<Request> {
    if calls == [] then []
    else
      var req := CallRequest(base, calls[|calls| - 1]);
      var r := env.get(req);
      FailedCalls(env, base, calls[..|calls| - 1]) + (if r.Failed? && !env.reportRaises(req, r.exception) then [req] else [])
  }

  lemma {:induction false} FailedRequestsAppend(a: seq<Emission>, b: seq<Emission>)
    ensures FailedRequests(a + b) == FailedRequests(a) + FailedRequests(b)
    decreases |b|
  {
    if b == [] {
      assert a + b == a;
    } else {
      assert (a + b)[..|a + b| - 1] == a + b[..|b| - 1];
      FailedRequestsAppend(a, b[..|b| - 1]);
    }
  }

  /** Decorated events are never failure records. */
  lemma {:induction false} DeliverHasNoFailures(env: Env, req: Request, evs: seq<Event>)
    ensures FailedRequests(Deliver(env, req, evs)) == []
    decreases |evs|
  {
    if evs != [] {
      DeliverHasNoFailures(env, req, evs[..|evs| - 1]);
      FailedRequestsAppend(Deliver(env, req, evs[..|evs| - 1]), DeliverOne(env, req, evs[|evs| - 1]));
    }
  }

  lemma {:induction false} ContributionsFailures(env: Env, base: Request, calls: seq<Call>)
    ensures FailedRequests(Contributions(env, base, calls)) == FailedCalls(env, base, calls)
    decreases |calls|
  {
    if calls != [] {
      var last := calls[|calls| - 1];
      var req := CallRequest(base, last);
      ContributionsFailures(env, base, calls[..|calls| - 1]);
      FailedRequestsAppend(Contributions(env, base, calls[..|calls| - 1]), Contribution(env, base, last));
      match env.get(req)
      case Failed(e) =>
        if !env.reportRaises(req, e) {
          assert FailureEmission(env, req, e)[..0] == [];
        }
      case Completed(body) =>
        if last.LagReport? {
          if Usable(body) {
            DeliverHasNoFailures(env, req, env.decode(body.value));
          } else {
            DeliverHasNoFailures(env, req, [Event([])]);
          }
        }
    }
  }

  /** Each failed GET of a cycle whose failure record is built pushes exactly one failure
      record, for its own request; a failed GET whose record raises pushes none, and no
      other record is a failure record. */
  lemma OneFailureRecordPerFailedGet(env: Env, base: Request)
    ensures FailedRequests(CycleEmissions(env, base)) == FailedCalls(env, base, CycleCalls(env, base))
  {
    CycleContributes(env, base);
    ContributionsFailures(env, base, CycleCalls(env, base));
  }

  /** The failure record: tagged `_http_request_failure`, with the structured request,
      the error message, the backtrace and the runtime. */
  lemma FailureRecordShape(req: Request, e: Exception, runtime: real)
    ensures var fields := FailureEvent(req, e, runtime).fields;
            && Fetch(fields, StringKey("tags")) == Array([Str(FailureTag)])
            && Fetch(fields, StringKey("http_request_failure")).Hash?
            && var info := Fetch(fields, StringKey("http_request_failure")).entries;
               && Fetch(info, StringKey("request")) == Hash(StructureRequest(req))
               && Fetch(info, StringKey("error")) == Str(e.message)
               && Fetch(info, StringKey("backtrace")) == e.backtrace
               && Fetch(info, StringKey("runtime_seconds")) == Float(runtime)
  {
    var info := [
        (StringKey("request"), Hash(StructureRequest(req))),
        (StringKey("error"), Str(e.message)),
        (StringKey("backtrace"), e.backtrace),
        (StringKey("runtime_seconds"), Float(runtime))];
    var fields := [(StringKey("tags"), Array([Str(FailureTag)])), (StringKey("http_request_failure"), Hash(info))];
    assert FailureEvent(req, e, runtime).fields == fields;
    assert fields[1..] == [(StringKey("http_request_failure"), Hash(info))];
    assert Get(fields, StringKey("http_request_failure")) == Some(Hash(info));
    var i2 := info[1..];
    var i3 := i2[1..];
    var i4 := i3[1..];
    assert i4 == [(StringKey("runtime_seconds"), Float(runtime))];
    assert Get(info, StringKey("error")) == Some(Str(e.message));
    assert Get(i3, StringKey("backtrace")) == Some(e.backtrace);
    assert Get(info, StringKey("backtrace")) == Some(e.backtrace);
    assert Get(i4, StringKey("runtime_seconds")) == Some(Float(runtime));
    assert Get(i3, StringKey("runtime_seconds")) == Some(Float(runtime));
    assert Get(i2, StringKey("runtime_seconds")) == Some(Float(runtime));
  }

  // ---------------------------------------------------------------------------
  // Decoded events come only from lag reports.

  /** Every decoded event that reaches the queue came from some consumer's lag report. */
  ghost predicate DeliveredFromLagReports(base: Request, ems: seq<Emission>) {
    forall i :: 0 <= i < |ems| && ems[i].Delivered? ==>
      exists c, k :: ems[i].request == LagRequest(base, c, k)
  }

  lemma {:induction false} DeliverRequests(env: Env, req: Request, evs: seq<Event>)
    ensures forall i :: 0 <= i < |Deliver(env, req, evs)| ==> Deliver(env, req, evs)[i].Delivered? && Deliver(env, req, evs)[i].request == req
    decreases |evs|
  {
    if evs != [] {
      DeliverRequests(env, req, evs[..|evs| - 1]);
    }
  }

  lemma {:induction false} ContributionsDelivered(env: Env, base: Request, calls: seq<Call>)
    ensures DeliveredFromLagReports(base, Contributions(env, base, calls))
    decreases |calls|
  {
    if calls != [] {
      var init: seq<Emission> := Contributions(env, base, calls[..|calls| - 1]);
      var last := calls[|calls| - 1];
      var more: seq<Emission> := Contribution(env, base, last);
      ContributionsDelivered(env, base, calls[..|calls| - 1]);
      var req := CallRequest(base, last);
      if env.get(req).Completed? && last.LagReport? {
        var body := env.get(req).body;
        var evs := if Usable(body) then env.decode(body.value) else [Event([])];
        DeliverRequests(env, req, evs);
        assert more == Deliver(env, req, evs);
        assert req == LagRequest(base, last.cluster, last.consumer);
      }
      forall i: int | 0 <= i < |init + more| && (init + more)[i].Delivered?
        ensures exists c, k :: (init + more)[i].request == LagRequest(base, c, k)
      {
        if i < |init| {
          assert (init + more)[i] == init[i];
        } else {
          assert (init + more)[i] == more[i - |init|];
          assert (init + more)[i].request == LagRequest(base, last.cluster, last.consumer);
        }
      }
    }
  }

  /** The listing levels never push a record of their own: every decoded event that a
      cycle pushes comes from a lag report. */
  lemma OnlyLagReportsDeliver(env: Env, base: Request)
    ensures DeliveredFromLagReports(base, CycleEmissions(env, base))
  {
    CycleContributes(env, base);
    ContributionsDelivered(env, base, CycleCalls(env, base));
  }

  // ---------------------------------------------------------------------------
  // Sibling branches.

  /** The branches of a list of clusters are pushed one after the other. */
  lemma {:induction false} ClustersAppend(env: Env, base: Request, a: seq<string>, b: seq<string>)
    ensures ClustersEmissions(env, base, a + b) == ClustersEmissions(env, base, a) + ClustersEmissions(env, base, b)
    decreases |b|
  {
    if b == [] {
      assert a + b == a;
    } else {
      var b' := b[..|b| - 1];
      var last := ClusterEmissions(env, base, b[|b| - 1]);
      assert (a + b)[..|a + b| - 1] == a + b';
      assert (a + b)[|a + b| - 1] == b[|b| - 1];
      assert ClustersEmissions(env, base, a + b) == ClustersEmissions(env, base, a + b') + last;
      ClustersAppend(env, base, a, b');
      assert ClustersEmissions(env, base, b) == ClustersEmissions(env, base, b') + last;
      assert (ClustersEmissions(env, base, a) + ClustersEmissions(env, base, b')) + last ==
             ClustersEmissions(env, base, a) + (ClustersEmissions(env, base, b') + last);
    }
  }

  /** Two environments that answer alike for every request whose URL starts with prefix. */
  ghost predicate AgreeUnder(env1: Env, env2: Env, prefix: string) {
    && env1.listing == env2.listing
    && env1.decode == env2.decode
    && env1.decorate == env2.decorate
    && (forall r: Request :: StartsWith(r.url, prefix) ==> env1.get(r) == env2.get(r) && env1.elapsed(r) == env2.elapsed(r))
    && (forall r: Request, e: Exception :: StartsWith(r.url, prefix) ==> env1.reportRaises(r, e) == env2.reportRaises(r, e))
  }

  lemma PrefixOfLonger(s: string, p: string, q: string)
    requires StartsWith(s, p + q)
    ensures StartsWith(s, p)
  {
    assert s[..|p|] == (p + q)[..|p|];
  }

  /** Decoding and decorating do not look at the HTTP answers. */
  lemma {:induction false} DeliverLocal(env1: Env, env2: Env, req: Request, evs: seq<Event>)
    requires env1.decorate == env2.decorate
    ensures Deliver(env1, req, evs) == Deliver(env2, req, evs)
    decreases |evs|
  {
    if evs != [] {
      DeliverLocal(env1, env2, req, evs[..|evs| - 1]);
    }
  }

  lemma LagLocal(env1: Env, env2: Env, base: Request, cluster: string, consumer: string)
    requires AgreeUnder(env1, env2, ConsumerUrl(base.url, cluster))
    ensures LagEmissions(env1, base, cluster, consumer) == LagEmissions(env2, base, cluster, consumer)
  {
    var req := LagRequest(base, cluster, consumer);
    PrefixOfLonger(req.url, ConsumerUrl(base.url, cluster), "/");
    assert env1.get(req) == env2.get(req) && env1.elapsed(req) == env2.elapsed(req);
    var r := env1.get(req);
    if r.Failed? {
      assert env1.reportRaises(req, r.exception) == env2.reportRaises(req, r.exception);
    } else {
      if Usable(r.body) {
        DeliverLocal(env1, env2, req, env1.decode(r.body.value));
      } else {
        DeliverLocal(env1, env2, req, [Event([])]);
      }
    }
  }

  lemma {:induction false} LagsLocal(env1: Env, env2: Env, base: Request, cluster: string, consumers: seq<string>)
    requires AgreeUnder(env1, env2, ConsumerUrl(base.url, cluster))
    ensures ConsumersEmissions(env1, base, cluster, consumers) == ConsumersEmissions(env2, base, cluster, consumers)
    decreases |consumers|
  {
    if consumers != [] {
      LagsLocal(env1, env2, base, cluster, consumers[..|consumers| - 1]);
      LagLocal(env1, env2, base, cluster, consumers[|consumers| - 1]);
    }
  }

  lemma {:induction false} ConsumerListsLocal(env1: Env, env2: Env, base: Request, cluster: string, lists: seq<Option<seq<string>>>)
    requires AgreeUnder(env1, env2, ConsumerUrl(base.url, cluster))
    ensures ConsumerListsEmissions(env1, base, cluster, lists) == ConsumerListsEmissions(env2, base, cluster, lists)
    decreases |lists|
  {
    if lists != [] {
      ConsumerListsLocal(env1, env2, base, cluster, lists[..|lists| - 1]);
      var last := lists[|lists| - 1];
      if last.Some? {
        LagsLocal(env1, env2, base, cluster, last.value);
      }
    }
  }

  /** A cluster's branch depends only on the answers for URLs under that cluster's
      consumer URL: what the other clusters' GETs return cannot change it. */
  lemma BranchLocal(env1: Env, env2: Env, base: Request, cluster: string)
    requires AgreeUnder(env1, env2, ConsumerUrl(base.url, cluster))
    ensures ClusterEmissions(env1, base, cluster) == ClusterEmissions(env2, base, cluster)
  {
    var req := ConsumerRequest(base, cluster);
    assert StartsWith(req.url, ConsumerUrl(base.url, cluster));
    var response := env1.get(req);
    if response.Failed? {
      assert env1.reportRaises(req, response.exception) == env2.reportRaises(req, response.exception);
    } else if Usable(response.body) {
      ConsumerListsLocal(env1, env2, base, cluster, env1.listing(response.body.value, "consumers"));
    }
  }

  // ---------------------------------------------------------------------------
  // Empty and missing lists.

  /** A nil or empty list starts no GET and pushes nothing, at either listing level. */
  lemma EmptyListsPushNothing(env: Env, base: Request, cluster: string)
    ensures ClusterListsEmissions(env, base, [None]) == [] && ClusterListsEmissions(env, base, [Some([])]) == []
    ensures ClusterListsCalls(env, base, [None]) == [] && ClusterListsCalls(env, base, [Some([])]) == []
    ensures ConsumerListsEmissions(env, base, cluster, [None]) == [] && ConsumerListsEmissions(env, base, cluster, [Some([])]) == []
    ensures ConsumerListsCalls(env, base, cluster, [None]) == [] && ConsumerListsCalls(env, base, cluster, [Some([])]) == []
  {
    var none: seq<Option<seq<string>>> := [None];
    var empty: seq<Option<seq<string>>> := [Some([])];
    assert none[..0] == [] && empty[..0] == [];
  }

  /** A listing GET whose body is nil or empty starts no further GET and pushes nothing,
      at either listing level. */
  lemma EmptyListingBodyPushesNothing(env: Env, base: Request, cluster: string)
    ensures (env.get(base).Completed? && !Usable(env.get(base).body)) ==>
              CycleEmissions(env, base) == [] && CycleCalls(env, base) == [ClusterList]
    ensures var req := ConsumerRequest(base, cluster);
            (env.get(req).Completed? && !Usable(env.get(req).body)) ==>
              ClusterEmissions(env, base, cluster) == [] && BranchCalls(env, base, cluster) == [ConsumerList(cluster)]
  {
  }

  /** A lag report with an empty or nil body pushes one event: the decorated empty event. */
  lemma EmptyBodyYieldsOneEvent(env: Env, req: Request, body: Option<string>)
    requires !Usable(body)
    requires env.decorate(Event([])).Some?
    ensures SuccessEmissions(env, req, body) == [Delivered(req, env.decorate(Event([])).value)]
  {
    DeliverSingle(env, req, Event([]));
  }

  // One-element lists.

  lemma DeliverSingle(env: Env, req: Request, ev: Event)
    ensures Deliver(env, req, [ev]) == DeliverOne(env, req, ev)
  {
    var evs := [ev];
    assert evs[..0] == [];
    assert Deliver(env, req, evs) == Deliver(env, req, []) + DeliverOne(env, req, ev);
  }

  lemma SingleConsumer(env: Env, base: Request, cluster: string, consumer: string)
    ensures ConsumersEmissions(env, base, cluster, [consumer]) == LagEmissions(env, base, cluster, consumer)
    ensures LagCalls(cluster, [consumer]) == [LagReport(cluster, consumer)]
  {
    var ks := [consumer];
    assert ks[..0] == [];
    assert ConsumersEmissions(env, base, cluster, ks) == ConsumersEmissions(env, base, cluster, []) + LagEmissions(env, base, cluster, consumer);
  }

  lemma SingleConsumerList(env: Env, base: Request, cluster: string, consumers: seq<string>)
    ensures ConsumerListsEmissions(env, base, cluster, [Some(consumers)]) == ConsumersEmissions(env, base, cluster, consumers)
    ensures ConsumerListsCalls(env, base, cluster, [Some(consumers)]) == LagCalls(cluster, consumers)
  {
    var lists := [Some(consumers)];
    assert lists[..0] == [];
    assert ConsumerListsEmissions(env, base, cluster, lists) ==
           ConsumerListsEmissions(env, base, cluster, []) + ConsumersEmissions(env, base, cluster, consumers);
    assert ConsumerListsCalls(env, base, cluster, lists) ==
           ConsumerListsCalls(env, base, cluster, []) + LagCalls(cluster, consumers);
  }

  lemma SingleCluster(env: Env, base: Request, cluster: string)
    ensures ClustersEmissions(env, base, [cluster]) == ClusterEmissions(env, base, cluster)
    ensures ClustersCalls(env, base, [cluster]) == BranchCalls(env, base, cluster)
  {
    var cs := [cluster];
    assert cs[..0] == [];
    assert ClustersEmissions(env, base, cs) == ClustersEmissions(env, base, []) + ClusterEmissions(env, base, cluster);
    assert ClustersCalls(env, base, cs) == ClustersCalls(env, base, []) + BranchCalls(env, base, cluster);
  }

  lemma SingleClusterList(env: Env, base: Request, clusters: seq<string>)
    ensures ClusterListsEmissions(env, base, [Some(clusters)]) == ClustersEmissions(env, base, clusters)
    ensures ClusterListsCalls(env, base, [Some(clusters)]) == ClustersCalls(env, base, clusters)
  {
    var lists := [Some(clusters)];
    assert lists[..0] == [];
    assert ClusterListsEmissions(env, base, lists) == ClusterListsEmissions(env, base, []) + ClustersEmissions(env, base, clusters);
    assert ClusterListsCalls(env, base, lists) == ClusterListsCalls(env, base, []) + ClustersCalls(env, base, clusters);
  }

  // ---------------------------------------------------------------------------
  // The scenarios of the plugin's tests.

  /** The cluster list of the base request decodes to `{"clusters" => clusters}`. */
  predicate ListsClusters(env: Env, base: Request, clusters: seq<string>) {
    var r := env.get(base);
    r.Completed? && Usable(r.body) && env.listing(r.body.value, "clusters") == [Some(clusters)]
  }

  /** The consumer list of a cluster decodes to `{"consumers" => consumers}`. */
  predicate ListsConsumers(env: Env, base: Request, cluster: string, consumers: seq<string>) {
    var r := env.get(ConsumerRequest(base, cluster));
    r.Completed? && Usable(r.body) && env.listing(r.body.value, "consumers") == [Some(consumers)]
  }

  /** A cycle whose cluster list names exactly one cluster. */
  lemma OneClusterCycle(env: Env, base: Request, cluster: string)
    requires ListsClusters(env, base, [cluster])
    ensures CycleEmissions(env, base) == ClusterEmissions(env, base, cluster)
    ensures CycleCalls(env, base) == [ClusterList] + BranchCalls(env, base, cluster)
  {
    SingleClusterList(env, base, [cluster]);
    SingleCluster(env, base, cluster);
  }

  /** A branch whose consumer list names exactly one consumer. */
  lemma OneConsumerBranch(env: Env, base: Request, cluster: string, consumer: string)
    requires ListsConsumers(env, base, cluster, [consumer])
    ensures ClusterEmissions(env, base, cluster) == LagEmissions(env, base, cluster, consumer)
    ensures BranchCalls(env, base, cluster) == [ConsumerList(cluster), LagReport(cluster, consumer)]
  {
    SingleConsumerList(env, base, cluster, [consumer]);
    SingleConsumer(env, base, cluster, consumer);
  }

  /** One cluster with one consumer whose lag report decodes to one event: the cycle
      issues three GETs and pushes exactly that event, decorated once. */
  lemma ValidRequestScenario(env: Env, base: Request, lag: Event)
    requires ListsClusters(env, base, ["default"])
    requires ListsConsumers(env, base, "default", ["console-1"])
    requires var r := env.get(LagRequest(base, "default", "console-1"));
             r.Completed? && Usable(r.body) && env.decode(r.body.value) == [lag]
    requires env.decorate(lag) == Some(lag)
    ensures CycleEmissions(env, base) == [Delivered(LagRequest(base, "default", "console-1"), lag)]
    ensures Records(CycleEmissions(env, base)) == [lag]
    ensures CycleCalls(env, base) == [ClusterList, ConsumerList("default"), LagReport("default", "console-1")]
  {
    var req := LagRequest(base, "default", "console-1");
    OneClusterCycle(env, base, "default");
    OneConsumerBranch(env, base, "default", "console-1");
    DeliverSingle(env, req, lag);
    var ems := [Delivered(req, lag)];
    assert ems[..0] == [];
    assert Records(ems) == Records([]) + [lag];
  }

  /** `{"clusters" => []}`: nothing is pushed and nothing is decorated. */
  lemma EmptyClustersScenario(env: Env, base: Request)
    requires ListsClusters(env, base, [])
    ensures CycleEmissions(env, base) == []
    ensures CycleCalls(env, base) == [ClusterList]
  {
    SingleClusterList(env, base, []);
  }

  /** `{"consumers" => []}` for the only cluster: nothing is pushed and nothing is decorated. */
  lemma EmptyConsumersScenario(env: Env, base: Request)
    requires ListsClusters(env, base, ["default"])
    requires ListsConsumers(env, base, "default", [])
    ensures CycleEmissions(env, base) == []
    ensures CycleCalls(env, base) == [ClusterList, ConsumerList("default")]
  {
    OneClusterCycle(env, base, "default");
    SingleConsumerList(env, base, "default", []);
  }

  /** An unreachable host: the cluster-list GET fails, so no success path runs and at
      most one record is pushed: the tagged failure record of the base request, unless
      building it raises, in which case nothing is pushed. */
  lemma UnreachableHostScenario(env: Env, base: Request, e: Exception)
    requires env.get(base) == Failed(e)
    ensures CycleCalls(env, base) == [ClusterList]
    ensures !env.reportRaises(base, e) ==> Records(CycleEmissions(env, base)) == [FailureEvent(base, e, env.elapsed(base))]
    ensures !env.reportRaises(base, e) ==> Fetch(Records(CycleEmissions(env, base))[0].fields, StringKey("tags")) == Array([Str(FailureTag)])
    ensures env.reportRaises(base, e) ==> CycleEmissions(env, base) == []
  {
    if !env.reportRaises(base, e) {
      assert FailureEmission(env, base, e)[..0] == [];
    }
  }
}
