/**
 * One poll cycle of the Burrow input: the three-level cascade of GETs (the cluster
 * list, each cluster's consumer list, each consumer's lag report), the records its
 * responses become, and the queue they are pushed to.
 *
 * The HTTP client, the JSON codec, `decorate` and the clock are not modelled; an
 * `Env` gives their answers. A GET either completes with a body (any status code
 * reaches the success callback) or fails with an exception.
 */
module Cascade {
  import opened Ruby
  import opened Requests

  /** What a failed GET reports: `exception.to_s` and `exception.backtrace`. */
  datatype Exception = Exception(message: string, backtrace: Value)

  /** The outcome of `client.get(url, spec)`; a nil body is `None`. */
  datatype Response = Completed(body: Option<string>) | Failed(exception: Exception)

  /** A Logstash event, as its field hash. */
  datatype Event = Event(fields: Dict)

  /** The answers of the collaborators the cascade calls:
      - `get`: the response the HTTP client delivers for a request;
      - `elapsed`: `Time.now - started` when the failure callback of that request runs;
      - `listing`: for a body and a field name, `get(field)` of each event the codec
        decodes from the body, `None` when it is nil;
      - `decode`: the events `decode_and_flush` yields for a body, in order;
      - `decorate`: the decorated event, `None` when decorating raises (the record is
        then logged and dropped);
      - `reportRaises`: whether building or pushing the failure record of a failed
        request raises (the error is then logged and the record dropped). */
  datatype Env = Env(
    get: Request -> Response,
    elapsed: Request -> real,
    listing: (string, string) -> seq<Option<seq<string>>>,
    decode: string -> seq<Event>,
    decorate: Event -> Option<Event>,
    reportRaises: (Request, Exception) -> bool)

  /** What a GET's callback pushes: a failure record, or a decoded event. */
  datatype Emission =
    | Failure(request: Request, exception: Exception, runtime: real)
    | Delivered(request: Request, event: Event)

  const FailureTag: string := "_http_request_failure"

  /** The event `handle_failure` builds. */
  function FailureEvent(req: Request, e: Exception, runtime: real): Event {
    Event([
      (StringKey("tags"), Array([Str(FailureTag)])),
      (StringKey("http_request_failure"), Hash([
        (StringKey("request"), Hash(StructureRequest(req))),
        (StringKey("error"), Str(e.message)),
        (StringKey("backtrace"), e.backtrace),
        (StringKey("runtime_seconds"), Float(runtime))]))])
  }

  function Record(em: Emission): Event {
    match em
    case Failure(req, e, t) => FailureEvent(req, e, t)
    case Delivered(_, ev) => ev
  }

  /** The events the emissions put on the queue, in order. */
  function Records(ems: seq<Emission>): seq<Event> {
    if ems == [] then [] else Records(ems[..|ems| - 1]) + [Record(ems[|ems| - 1])]
  }

  /** A body the codec is given: present and not empty. */
  predicate Usable(body: Option<string>) {
    body.Some? && |body.value| > 0
  }

  function ConsumerUrl(url: string, cluster: string): string {
    url + "/" + cluster + "/consumer"
  }

  function LagUrl(url: string, cluster: string, consumer: string): string {
    url + "/" + cluster + "/consumer" + "/" + consumer + "/lag"
  }

  /** Every request of the cycle carries the option bag of the base request. */
  function ConsumerRequest(base: Request, cluster: string): (r: Request)
    ensures r.spec == base.spec
    ensures StartsWith(r.url, base.url + "/")
  {
    Request(ConsumerUrl(base.url, cluster), base.spec)
  }

  function LagRequest(base: Request, cluster: string, consumer: string): (r: Request)
    ensures r.spec == base.spec
    ensures StartsWith(r.url, ConsumerUrl(base.url, cluster) + "/")
  {
    var r := Request(LagUrl(base.url, cluster, consumer), base.spec);
    assert r.url == (ConsumerUrl(base.url, cluster) + "/") + (consumer + "/lag");
    r
  }

  // ---------------------------------------------------------------------------
  // The records of one cycle, level by level. Every list is processed front to back,
  // and each function is written on a list with its last element split off, the
  // shape the loops below extend one element at a time.

  /** `handle_decoded_event` for one event. */
  function DeliverOne(env: Env, req: Request, ev: Event): seq<Emission> {
    match env.decorate(ev)
    case None => []
    case Some(d) => [Delivered(req, d)]
  }

  function Deliver(env: Env, req: Request, evs: seq<Event>): seq<Emission> {
    if evs == [] then []
    else Deliver(env, req, evs[..|evs| - 1]) + DeliverOne(env, req, evs[|evs| - 1])
  }

  /** `handle_success`: the decoded events of a usable body, or one empty event. */
  function SuccessEmissions(env: Env, req: Request, body: Option<string>): seq<Emission> {
    if Usable(body) then Deliver(env, req, env.decode(body.value))
    else Deliver(env, req, [Event([])])
  }

  /** `handle_failure` for a request: its failure record, unless building or pushing
      it raises. */
  function FailureEmission(env: Env, req: Request, e: Exception): seq<Emission> {
    if env.reportRaises(req, e) then [] else [Failure(req, e, env.elapsed(req))]
  }

  /** The GET of one consumer's lag report. */
  function LagEmissions(env: Env, base: Request, cluster: string, consumer: string): seq<Emission> {
    var req := LagRequest(base, cluster, consumer);
    match env.get(req)
    case Failed(e) => FailureEmission(env, req, e)
    case Completed(body) => SuccessEmissions(env, req, body)
  }

  function ConsumersEmissions(env: Env, base: Request, cluster: string, consumers: seq<string>): seq<Emission> {
    if consumers == [] then []
    else ConsumersEmissions(env, base, cluster, consumers[..|consumers| - 1])
         + LagEmissions(env, base, cluster, consumers[|consumers| - 1])
  }

  /** The consumer lists of the decoded events of one consumer-list body; a nil list is skipped. */
  function ConsumerListsEmissions(env: Env, base: Request, cluster: string, lists: seq<Option<seq<string>>>): seq<Emission> {
    if lists == [] then []
    else
      var last := lists[|lists| - 1];
      ConsumerListsEmissions(env, base, cluster, lists[..|lists| - 1])
      + (if last.Some? then ConsumersEmissions(env, base, cluster, last.value) else [])
  }

  /** The GET of one cluster's consumer list. */
  function ClusterEmissions(env: Env, base: Request, cluster: string): seq<Emission> {
    var req := ConsumerRequest(base, cluster);
    match env.get(req)
    case Failed(e) => FailureEmission(env, req, e)
    case Completed(body) =>
      if Usable(body) then ConsumerListsEmissions(env, base, cluster, env.listing(body.value, "consumers")) else []
  }

  function ClustersEmissions(env: Env, base: Request, clusters: seq<string>): seq<Emission> {
    if clusters == [] then []
    else ClustersEmissions(env, base, clusters[..|clusters| - 1]) + ClusterEmissions(env, base, clusters[|clusters| - 1])
  }

  function ClusterListsEmissions(env: Env, base: Request, lists: seq<Option<seq<string>>>): seq<Emission> {
    if lists == [] then []
    else
      var last := lists[|lists| - 1];
      ClusterListsEmissions(env, base, lists[..|lists| - 1])
      + (if last.Some? then ClustersEmissions(env, base, last.value) else [])
  }

  /** `request(queue, base)`: the GET of the cluster list and everything it leads to. */
  function CycleEmissions(env: Env, base: Request): seq<Emission> {
    match env.get(base)
    case Failed(e) => FailureEmission(env, base, e)
    case Completed(body) =>
      if Usable(body) then ClusterListsEmissions(env, base, env.listing(body.value, "clusters")) else []
  }

  // ---------------------------------------------------------------------------
  // The queue and the operations that push to it.

  /** The pipeline queue the input writes to. */
  class Queue {
    var items: seq<Event>

    constructor()
      ensures items == []
    {
      items := [];
    }

    /** `queue << event`. */
    method Push(e: Event)
      modifies this
      ensures items == old(items) + [e]
    {
      items := items + [e];
    }
  }

  lemma {:induction false} RecordsAppend(a: seq<Emission>, b: seq<Emission>)
    ensures Records(a + b) == Records(a) + Records(b)
    decreases |b|
  {
    if b != [] {
      assert (a + b)[..|a + b| - 1] == a + b[..|b| - 1];
      RecordsAppend(a, b[..|b| - 1]);
    } else {
      assert a + b == a;
    }
  }

  lemma DeliverStep(before: seq<Event>, env: Env, req: Request, evs: seq<Event>, i: nat)
    requires i < |evs|
    ensures before + Records(Deliver(env, req, evs[..i + 1])) ==
            (before + Records(Deliver(env, req, evs[..i]))) + Records(DeliverOne(env, req, evs[i]))
  {
    assert evs[..i + 1][..i] == evs[..i];
    RecordsAppend(Deliver(env, req, evs[..i]), DeliverOne(env, req, evs[i]));
  }

  /** `handle_failure`: pushes one failure record; when building or pushing it raises,
      the error is logged and nothing is pushed. */
  method HandleFailure(queue: Queue, env: Env, req: Request, e: Exception, runtime: real)
    modifies queue
    ensures queue.items == old(queue.items) + (if env.reportRaises(req, e) then [] else [FailureEvent(req, e, runtime)])
  {
    if !env.reportRaises(req, e) {
      var ev := FailureEvent(req, e, runtime);
      queue.Push(ev);
    }
  }

  /** `handle_decoded_event`: decorates the event and pushes it; when decorating raises,
      the error is logged and nothing is pushed. */
  method HandleDecodedEvent(queue: Queue, env: Env, req: Request, ev: Event)
    modifies queue
    ensures queue.items == old(queue.items) + Records(DeliverOne(env, req, ev))
  {
    var decorated := env.decorate(ev);
    if decorated.Some? {
      queue.Push(decorated.value);
    }
  }

  /** `handle_success`: every event `decode_and_flush` yields for a usable body, or a
      single empty event. */
  method HandleSuccess(queue: Queue, env: Env, req: Request, body: Option<string>)
    modifies queue
    ensures queue.items == old(queue.items) + Records(SuccessEmissions(env, req, body))
  {
    var events := if Usable(body) then env.decode(body.value) else [Event([])];
    HandleEvents(queue, env, req, events);
  }

  /** The block given to `decode_and_flush`: each yielded event in turn goes through
      `handle_decoded_event`. */
  method HandleEvents(queue: Queue, env: Env, req: Request, events: seq<Event>)
    modifies queue
    ensures queue.items == old(queue.items) + Records(Deliver(env, req, events))
  {
    var i := 0;
    while i < |events|
      invariant 0 <= i <= |events|
      invariant queue.items == old(queue.items) + Records(Deliver(env, req, events[..i]))
    {
      DeliverStep(old(queue.items), env, req, events, i);
      HandleDecodedEvent(queue, env, req, events[i]);
      i := i + 1;
    }
    assert events[..i] == events;
  }

  /** The innermost GET: a consumer's lag report. */
  method FetchLag(queue: Queue, env: Env, base: Request, cluster: string, consumer: string)
    modifies queue
    ensures queue.items == old(queue.items) + Records(LagEmissions(env, base, cluster, consumer))
  {
    var req := LagRequest(base, cluster, consumer);
    var response := env.get(req);
    if response.Failed? {
      HandleFailure(queue, env, req, response.exception, env.elapsed(req));
    } else {
      HandleSuccess(queue, env, req, response.body);
    }
  }

  /** `consumer_list.each`: the lag report of every consumer of a cluster, in order. */
  method FetchLags(queue: Queue, env: Env, base: Request, cluster: string, consumers: seq<string>)
    modifies queue
    ensures queue.items == old(queue.items) + Records(ConsumersEmissions(env, base, cluster, consumers))
  {
    var j := 0;
    while j < |consumers|
      invariant 0 <= j <= |consumers|
      invariant queue.items == old(queue.items) + Records(ConsumersEmissions(env, base, cluster, consumers[..j]))
    {
      ConsumersStep(old(queue.items), env, base, cluster, consumers, j);
      FetchLag(queue, env, base, cluster, consumers[j]);
      j := j + 1;
    }
    assert consumers[..j] == consumers;
  }

  /** A cluster's consumer list, then the lag reports of the consumers of every event
      the codec decodes from it. */
  method FetchConsumers(queue: Queue, env: Env, base: Request, cluster: string)
    modifies queue
    ensures queue.items == old(queue.items) + Records(ClusterEmissions(env, base, cluster))
  {
    var req := ConsumerRequest(base, cluster);
    var response := env.get(req);
    if response.Failed? {
      HandleFailure(queue, env, req, response.exception, env.elapsed(req));
      return;
    }
    if !Usable(response.body) {
      return;
    }
    FetchConsumerLists(queue, env, base, cluster, env.listing(response.body.value, "consumers"));
  }

  /** `@codec.decode(body) { |consumers| ... }`: the consumers of every decoded event. */
  method FetchConsumerLists(queue: Queue, env: Env, base: Request, cluster: string, lists: seq<Option<seq<string>>>)
    modifies queue
    ensures queue.items == old(queue.items) + Records(ConsumerListsEmissions(env, base, cluster, lists))
  {
    var i := 0;
    while i < |lists|
      invariant 0 <= i <= |lists|
      invariant queue.items == old(queue.items) + Records(ConsumerListsEmissions(env, base, cluster, lists[..i]))
    {
      ConsumerListsStep(old(queue.items), env, base, cluster, lists, i);
      if lists[i].Some? {
        FetchLags(queue, env, base, cluster, lists[i].value);
      }
      assert queue.items == old(queue.items) + Records(ConsumerListsEmissions(env, base, cluster, lists[..i + 1]));
      i := i + 1;
    }
    assert lists[..i] == lists;
  }

  /** `cluster_list.each`: every cluster's branch, in order. */
  method FetchBranches(queue: Queue, env: Env, base: Request, clusters: seq<string>)
    modifies queue
    ensures queue.items == old(queue.items) + Records(ClustersEmissions(env, base, clusters))
  {
    var j := 0;
    while j < |clusters|
      invariant 0 <= j <= |clusters|
      invariant queue.items == old(queue.items) + Records(ClustersEmissions(env, base, clusters[..j]))
    {
      ClustersStep(old(queue.items), env, base, clusters, j);
      FetchConsumers(queue, env, base, clusters[j]);
      j := j + 1;
    }
    assert clusters[..j] == clusters;
  }

  /** `request(queue, base)`: the cluster list, then the branches of the clusters of
      every event the codec decodes from it. */
  method FetchClusters(queue: Queue, env: Env, base: Request)
    modifies queue
    ensures queue.items == old(queue.items) + Records(CycleEmissions(env, base))
  {
    var response := env.get(base);
    if response.Failed? {
      HandleFailure(queue, env, base, response.exception, env.elapsed(base));
      return;
    }
    if !Usable(response.body) {
      return;
    }
    FetchClusterLists(queue, env, base, env.listing(response.body.value, "clusters"));
  }

  /** `@codec.decode(body) { |clusters| ... }`: the clusters of every decoded event. */
  method FetchClusterLists(queue: Queue, env: Env, base: Request, lists: seq<Option<seq<string>>>)
    modifies queue
    ensures queue.items == old(queue.items) + Records(ClusterListsEmissions(env, base, lists))
  {
    var i := 0;
    while i < |lists|
      invariant 0 <= i <= |lists|
      invariant queue.items == old(queue.items) + Records(ClusterListsEmissions(env, base, lists[..i]))
    {
      ClusterListsStep(old(queue.items), env, base, lists, i);
      if lists[i].Some? {
        FetchBranches(queue, env, base, lists[i].value);
      }
      assert queue.items == old(queue.items) + Records(ClusterListsEmissions(env, base, lists[..i + 1]));
      i := i + 1;
    }
    assert lists[..i] == lists;
  }

  // One more element of a list: the queue contents before a loop followed by the
  // records of the longer prefix.

  lemma ConsumersStep(before: seq<Event>, env: Env, base: Request, cluster: string, consumers: seq<string>, j: nat)
    requires j < |consumers|
    ensures before + Records(ConsumersEmissions(env, base, cluster, consumers[..j + 1])) ==
            (before + Records(ConsumersEmissions(env, base, cluster, consumers[..j]))) + Records(LagEmissions(env, base, cluster, consumers[j]))
  {
    assert consumers[..j + 1][..j] == consumers[..j];
    RecordsAppend(ConsumersEmissions(env, base, cluster, consumers[..j]), LagEmissions(env, base, cluster, consumers[j]));
  }

  lemma ConsumerListsStep(before: seq<Event>, env: Env, base: Request, cluster: string, lists: seq<Option<seq<string>>>, i: nat)
    requires i < |lists|
    ensures lists[i].Some? ==>
              before + Records(ConsumerListsEmissions(env, base, cluster, lists[..i + 1])) ==
              (before + Records(ConsumerListsEmissions(env, base, cluster, lists[..i]))) +
              Records(ConsumersEmissions(env, base, cluster, lists[i].value))
    ensures lists[i].None? ==>
              before + Records(ConsumerListsEmissions(env, base, cluster, lists[..i + 1])) ==
              before + Records(ConsumerListsEmissions(env, base, cluster, lists[..i]))
  {
    assert lists[..i + 1][..i] == lists[..i];
    var prev := ConsumerListsEmissions(env, base, cluster, lists[..i]);
    if lists[i].Some? {
      var more := ConsumersEmissions(env, base, cluster, lists[i].value);
      assert ConsumerListsEmissions(env, base, cluster, lists[..i + 1]) == prev + more;
      RecordsAppend(prev, more);
      assert before + (Records(prev) + Records(more)) == (before + Records(prev)) + Records(more);
    } else {
      assert ConsumerListsEmissions(env, base, cluster, lists[..i + 1]) == prev + [];
      assert prev + [] == prev;
    }
  }

  lemma ClustersStep(before: seq<Event>, env: Env, base: Request, clusters: seq<string>, j: nat)
    requires j < |clusters|
    ensures before + Records(ClustersEmissions(env, base, clusters[..j + 1])) ==
            (before + Records(ClustersEmissions(env, base, clusters[..j]))) + Records(ClusterEmissions(env, base, clusters[j]))
  {
    assert clusters[..j + 1][..j] == clusters[..j];
    RecordsAppend(ClustersEmissions(env, base, clusters[..j]), ClusterEmissions(env, base, clusters[j]));
  }

  lemma ClusterListsStep(before: seq<Event>, env: Env, base: Request, lists: seq<Option<seq<string>>>, i: nat)
    requires i < |lists|
    ensures lists[i].Some? ==>
              before + Records(ClusterListsEmissions(env, base, lists[..i + 1])) ==
              (before + Records(ClusterListsEmissions(env, base, lists[..i]))) +
              Records(ClustersEmissions(env, base, lists[i].value))
    ensures lists[i].None? ==>
              before + Records(ClusterListsEmissions(env, base, lists[..i + 1])) ==
              before + Records(ClusterListsEmissions(env, base, lists[..i]))
  {
    assert lists[..i + 1][..i] == lists[..i];
    var prev := ClusterListsEmissions(env, base, lists[..i]);
    if lists[i].Some? {
      var more := ClustersEmissions(env, base, lists[i].value);
      assert ClusterListsEmissions(env, base, lists[..i + 1]) == prev + more;
      RecordsAppend(prev, more);
      assert before + (Records(prev) + Records(more)) == (before + Records(prev)) + Records(more);
    } else {
      assert ClusterListsEmissions(env, base, lists[..i + 1]) == prev + [];
      assert prev + [] == prev;
    }
  }
}
