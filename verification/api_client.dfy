/**
 * The shared HTTP client of src/api/api.ts: a request interceptor that puts
 * the stored access token in the Authorization header, and a response
 * interceptor that answers a first 401 by refreshing the session once and
 * retrying, while later 401s wait in a queue for the refresh in flight.
 *
 * Concurrency is a sequence of events. Every request the client has sent
 * has an id; `Deliver(id, response)` is the network answering it. The
 * refresh the coordinator starts and the store's logout are requests of
 * this same client, so their answers pass through the same interceptor.
 */
module ApiClient {
  import opened Types
  import opened SessionStore

  type ReqId = nat

  /** Where a request goes: the two session calls the coordinator makes, or anything else. */
  datatype Endpoint = RefreshCall(hint: Option<int>) | LogoutCall | Resource(path: string)

  /** The fields of a request's config that the interceptors read and write. */
  datatype Config = Config(retry: bool, authorization: Option<string>)

  /** Who awaits a request's final outcome. */
  datatype Caller =
    | App        // application code
    | RefreshOf  // the store's `refresh`, called by the coordinator
    | LogoutOf   // the store's `logout`

  datatype Outcome = Resolved(reply: Reply) | Rejected(error: HttpError)

  datatype Phase =
    | InFlight                 // sent, no answer yet
    | Queued                   // got a first 401 while a refresh was running; waits in the queue
    | AwaitingRefresh          // got a first 401 and started the refresh; waits for it
    | Settled(outcome: Outcome)

  datatype Request = Request(endpoint: Endpoint, caller: Caller, config: Config, phase: Phase)

  /** One hand-over to the transport, with the config as the request interceptor left it. */
  datatype Sent = Sent(id: ReqId, endpoint: Endpoint, config: Config)

  /** A request as application code creates it: not yet retried, no Authorization header. */
  const FreshConfig: Config := Config(false, None)

  function Bearer(token: string): string
  {
    "Bearer " + token
  }

  /**
   * The request interceptor: a truthy stored token becomes the Authorization
   * header; otherwise the config goes out as it came.
   */
  function AttachToken(config: Config, token: Option<string>): (out: Config)
    ensures out.retry == config.retry
    ensures Truthy(token) ==> out.authorization == Some(Bearer(token.value))
    ensures !Truthy(token) ==> out == config
  {
    if Truthy(token) then config.(authorization := Some(Bearer(token.value))) else config
  }

  /** The header a retried request is given: from the token read after the refresh, or none. */
  function RetryAuthorization(token: Option<string>): (h: Option<string>)
    ensures h.Some? <==> Truthy(token)
    ensures Truthy(token) ==> h == Some(Bearer(token.value))
  {
    if Truthy(token) then Some(Bearer(token.value)) else None
  }

  /** The config of a retried request: marked, with the rebuilt header. */
  function RetryConfig(token: Option<string>): Config
  {
    Config(true, RetryAuthorization(token))
  }

  /** Sending a retried request through the interceptor keeps the header it was given. */
  lemma InterceptorKeepsRetryHeader(token: Option<string>)
    ensures AttachToken(RetryConfig(token), token) == RetryConfig(token)
  {
  }

  /** The interceptor applied twice with one token is the interceptor applied once. */
  lemma AttachTokenIdempotent(config: Config, token: Option<string>)
    ensures AttachToken(AttachToken(config, token), token) == AttachToken(config, token)
  {
  }

  /** The test of api.ts:31: a 401 on a request not yet marked for retry. */
  predicate FirstUnauthorized(response: Result<Reply, HttpError>, config: Config)
  {
    response.Err? && response.error.status == Some(401) && !config.retry
  }

  /** What the caller of a request receives when the interceptor lets an answer through. */
  function OutcomeOf(response: Result<Reply, HttpError>): (o: Outcome)
    ensures o.Resolved? <==> response.Ok?
    ensures response.Ok? ==> o.reply == response.value
    ensures response.Err? ==> o.error == response.error
  {
    match response
    case Ok(r) => Resolved(r)
    case Err(e) => Rejected(e)
  }

  /** How many times request `id` was handed to the transport. */
  function CountSent(log: seq<Sent>, id: ReqId): nat
  {
    if log == [] then 0
    else CountSent(log[..|log| - 1], id) + (if log[|log| - 1].id == id then 1 else 0)
  }

  lemma {:induction false} CountSentConcat(a: seq<Sent>, b: seq<Sent>, id: ReqId)
    ensures CountSent(a + b, id) == CountSent(a, id) + CountSent(b, id)
    decreases |b|
  {
    if b == [] {
      assert a + b == a;
    } else {
      assert (a + b)[..|a + b| - 1] == a + b[..|b| - 1];
      CountSentConcat(a, b[..|b| - 1], id);
    }
  }

  lemma {:induction false} CountSentAbsent(log: seq<Sent>, id: ReqId)
    requires forall i :: 0 <= i < |log| ==> log[i].id != id
    ensures CountSent(log, id) == 0
    decreases |log|
  {
    if log != [] {
      CountSentAbsent(log[..|log| - 1], id);
    }
  }

  predicate NoDup(q: seq<ReqId>)
  {
    forall i, j :: 0 <= i < j < |q| ==> q[i] != q[j]
  }

  /**
   * The hand-overs made when the waiters `q` are resumed, in queue order: each
   * retries its own request with the header rebuilt from `token`.
   */
  function Resumed(q: seq<ReqId>, requests: map<ReqId, Request>, token: Option<string>): (r: seq<Sent>)
    requires forall i :: 0 <= i < |q| ==> q[i] in requests
    ensures |r| == |q|
  {
    if q == [] then []
    else Resumed(q[..|q| - 1], requests, token) + [Sent(q[|q| - 1], requests[q[|q| - 1]].endpoint, RetryConfig(token))]
  }

  /** FIFO: the k-th retry handed over is the k-th waiter's, with the rebuilt header. */
  lemma {:induction false} ResumedAt(q: seq<ReqId>, requests: map<ReqId, Request>, token: Option<string>, k: nat)
    requires forall i :: 0 <= i < |q| ==> q[i] in requests
    requires k < |q|
    ensures Resumed(q, requests, token)[k] == Sent(q[k], requests[q[k]].endpoint, RetryConfig(token))
    decreases |q|
  {
    if k < |q| - 1 {
      ResumedAt(q[..|q| - 1], requests, token, k);
    }
  }

  /** Resuming a queue without duplicates hands each waiter over exactly once. */
  lemma {:induction false} CountResumed(q: seq<ReqId>, requests: map<ReqId, Request>, token: Option<string>, id: ReqId)
    requires forall i :: 0 <= i < |q| ==> q[i] in requests
    requires NoDup(q)
    ensures CountSent(Resumed(q, requests, token), id) == if id in q then 1 else 0
    decreases |q|
  {
    if q != [] {
      var p := q[..|q| - 1];
      CountResumed(p, requests, token, id);
      assert Resumed(q, requests, token)[..|q| - 1] == Resumed(p, requests, token);
      assert q == p + [q[|q| - 1]];
      assert q[|q| - 1] !in p;
    }
  }

  lemma CountSentAppend(log: seq<Sent>, s: Sent, id: ReqId)
    ensures CountSent(log + [s], id) == CountSent(log, id) + (if s.id == id then 1 else 0)
  {
    assert (log + [s])[..|log|] == log;
  }

  /*
   * The coordinator's state as a value. `isRefreshing` and `queue` are the
   * module-level variables of api.ts:21-22; `owner` and `refreshRequest` are
   * the suspended interceptor call that started the refresh in flight and the
   * /auth/refresh request it awaits; `requests` holds each request's config
   * and progress; `log` is every hand-over to the transport, in order.
   */
  datatype Coord = Coord(
    isRefreshing: bool,
    queue: seq<ReqId>,
    owner: Option<ReqId>,
    refreshRequest: Option<ReqId>,
    requests: map<ReqId, Request>,
    log: seq<Sent>,
    nextId: ReqId)

  const Idle: Coord := Coord(false, [], None, None, map[], [], 0)

  /** Ids are handed out in order, and every hand-over is of a known request. */
  ghost predicate IdsOk(c: Coord)
  {
    && (forall id :: id in c.requests ==> id < c.nextId)
    && (forall i :: 0 <= i < |c.log| ==> c.log[i].id in c.requests)
  }

  /**
   * Single flight: the flag, the owner and the refresh request exist together,
   * and no other refresh request is outstanding.
   */
  ghost predicate FlightOk(c: Coord)
  {
    && (c.isRefreshing <==> c.owner.Some?)
    && (c.isRefreshing <==> c.refreshRequest.Some?)
    && (c.owner.Some? ==>
          && c.owner.value in c.requests
          && c.requests[c.owner.value].phase == AwaitingRefresh
          && c.requests[c.owner.value].caller != RefreshOf)
    && (c.refreshRequest.Some? ==>
          && c.refreshRequest.value in c.requests
          && c.requests[c.refreshRequest.value].caller == RefreshOf
          && (c.requests[c.refreshRequest.value].phase == InFlight || c.requests[c.refreshRequest.value].phase == Queued))
    && (forall id :: id in c.requests && c.requests[id].phase == AwaitingRefresh ==> c.owner == Some(id))
    && (forall id :: id in c.requests && c.requests[id].caller == RefreshOf && !c.requests[id].phase.Settled? ==>
          c.refreshRequest == Some(id))
  }

  /** The queue holds exactly the waiting requests, each once, and is empty when idle. */
  ghost predicate QueueOk(c: Coord)
  {
    && (!c.isRefreshing ==> c.queue == [])
    && NoDup(c.queue)
    && (forall i :: 0 <= i < |c.queue| ==> c.queue[i] in c.requests && c.requests[c.queue[i]].phase == Queued)
    && (forall id :: id in c.requests && c.requests[id].phase == Queued ==> id in c.queue)
  }

  /** Request `id` is handed over once, or twice when it carries the retry mark. */
  ghost predicate RetryOkAt(c: Coord, id: ReqId)
    requires id in c.requests
  {
    && 1 <= CountSent(c.log, id) <= 2
    && (CountSent(c.log, id) == 2 ==> c.requests[id].config.retry)
    && (c.requests[id].phase == Queued || c.requests[id].phase == AwaitingRefresh ==>
          c.requests[id].config.retry && CountSent(c.log, id) == 1)
  }

  ghost predicate RetryOk(c: Coord)
  {
    forall id {:trigger RetryOkAt(c, id)} :: id in c.requests ==> RetryOkAt(c, id)
  }

  ghost predicate Inv(c: Coord)
  {
    IdsOk(c) && FlightOk(c) && QueueOk(c) && RetryOk(c)
  }

  /* ---------------- Steps ---------------- */

  /** Hand request `id` with `config` to the transport, through the request interceptor. */
  function Send(c: Coord, id: ReqId, config: Config, token: Option<string>): Coord
    requires id in c.requests
  {
    var out := AttachToken(config, token);
    c.(requests := c.requests[id := c.requests[id].(config := out, phase := InFlight)],
       log := c.log + [Sent(id, c.requests[id].endpoint, out)])
  }

  /** Create a request under the next id and send it. */
  function Start(c: Coord, endpoint: Endpoint, caller: Caller, token: Option<string>): Coord
  {
    var c1 := c.(requests := c.requests[c.nextId := Request(endpoint, caller, FreshConfig, InFlight)],
                 nextId := c.nextId + 1);
    Send(c1, c.nextId, FreshConfig, token)
  }

  /** api.ts:32: the request is marked for retry and parked in `phase`. */
  function Mark(r: Request, phase: Phase): Request
  {
    r.(config := r.config.(retry := true), phase := phase)
  }

  /** A first 401 while a refresh runs (api.ts:43-45): the request joins the back of the queue. */
  function Enqueue(c: Coord, id: ReqId): Coord
    requires id in c.requests
  {
    c.(requests := c.requests[id := Mark(c.requests[id], Queued)], queue := c.queue + [id])
  }

  /**
   * A first 401 while idle (api.ts:51-53): the flag is set, then the store's
   * `refresh` sends its request with the current user's id as hint.
   */
  function BeginRefresh(c: Coord, id: ReqId, user: Option<User>, token: Option<string>): Coord
    requires id in c.requests
  {
    var c1 := c.(isRefreshing := true, owner := Some(id), refreshRequest := Some(c.nextId),
                 requests := c.requests[id := Mark(c.requests[id], AwaitingRefresh)]);
    Start(c1, RefreshCall(RefreshHint(UserId(user))), RefreshOf, token)
  }

  /** The requests table after the waiters `q` are given the rebuilt header and sent again. */
  function RetryAll(requests: map<ReqId, Request>, q: seq<ReqId>, token: Option<string>): map<ReqId, Request>
  {
    map x | x in requests :: if x in q then requests[x].(config := RetryConfig(token), phase := InFlight) else requests[x]
  }

  /**
   * `runQueued` (api.ts:36-39): every waiter is resumed in queue order and
   * retries with the header rebuilt from `token`; the queue is emptied and
   * the flag cleared.
   */
  function ResumeAll(c: Coord, token: Option<string>): Coord
    requires forall i :: 0 <= i < |c.queue| ==> c.queue[i] in c.requests
  {
    c.(requests := RetryAll(c.requests, c.queue, token),
       log := c.log + Resumed(c.queue, c.requests, token),
       queue := [], isRefreshing := false)
  }

  function Settle(c: Coord, id: ReqId, outcome: Outcome): Coord
    requires id in c.requests
  {
    c.(requests := c.requests[id := c.requests[id].(phase := Settled(outcome))])
  }

  /** The refresh's own state is in place: flag, owner, refresh request, queue members. */
  ghost predicate Refreshing(c: Coord)
  {
    && c.owner.Some? && c.owner.value in c.requests
    && c.refreshRequest.Some? && c.refreshRequest.value in c.requests
    && (forall i :: 0 <= i < |c.queue| ==> c.queue[i] in c.requests)
  }

  /**
   * The refresh succeeded and the store now holds `token` (api.ts:53-57): the
   * owner retries with the new header, then the waiters follow in queue order.
   */
  function RefreshSucceeded(c: Coord, reply: Reply): Coord
    requires Refreshing(c)
  {
    var token := reply.accessToken;
    var c1 := Settle(c, c.refreshRequest.value, Resolved(reply));
    var c2 := Send(c1, c.owner.value, RetryConfig(token), token);
    var c3 := ResumeAll(c2, token);
    c3.(owner := None, refreshRequest := None)
  }

  /**
   * The refresh failed with `e` (api.ts:58-60 and 36-41): the store's
   * `logout` sends its request, the waiters are still resumed and retry with
   * the unchanged token, and the owner is rejected with the refresh's error.
   */
  function RefreshFailed(c: Coord, e: HttpError, token: Option<string>): Coord
    requires Refreshing(c)
  {
    var c1 := Settle(c, c.refreshRequest.value, Rejected(e));
    var c2 := Start(c1, LogoutCall, LogoutOf, token);
    var c3 := ResumeAll(c2, token);
    var c4 := Settle(c3, c.owner.value, Rejected(e));
    c4.(owner := None, refreshRequest := None)
  }

  /**
   * The network answers request `id`; `user` and `token` are the store's at
   * that moment. The response interceptor (api.ts:24-66) decides.
   */
  function Respond(c: Coord, id: ReqId, response: Result<Reply, HttpError>, user: Option<User>, token: Option<string>): Coord
    requires Inv(c)
    requires id in c.requests && c.requests[id].phase == InFlight
  {
    var r := c.requests[id];
    if FirstUnauthorized(response, r.config) then
      if c.isRefreshing then Enqueue(c, id) else BeginRefresh(c, id, user, token)
    else if r.caller == RefreshOf then
      match response
      case Ok(reply) => RefreshSucceeded(c, reply)
      case Err(e) => RefreshFailed(c, e, token)
    else
      Settle(c, id, OutcomeOf(response))
  }

  /**
   * The session (user, token) after `Respond`: a successful refresh installs
   * the reply's; the end of a logout call, or of an owner that was a logout
   * call rejected by a failed refresh, clears both; otherwise unchanged.
   */
  function SessionAfter(c: Coord, id: ReqId, response: Result<Reply, HttpError>, user: Option<User>, token: Option<string>): Snapshot
    requires Inv(c)
    requires id in c.requests && c.requests[id].phase == InFlight
  {
    var r := c.requests[id];
    if FirstUnauthorized(response, r.config) then Snapshot(user, token)
    else if r.caller == RefreshOf then
      match response
      case Ok(reply) => Snapshot(reply.user, reply.accessToken)
      case Err(_) =>
        if c.requests[c.owner.value].caller == LogoutOf then Snapshot(None, None) else Snapshot(user, token)
    else if r.caller == LogoutOf then Snapshot(None, None)
    else Snapshot(user, token)
  }

  /* ---------------- The invariant is kept ---------------- */

  lemma StartIdsFlightQueue(c: Coord, endpoint: Endpoint, caller: Caller, token: Option<string>)
    requires Inv(c) && caller != RefreshOf
    ensures IdsOk(Start(c, endpoint, caller, token))
    ensures FlightOk(Start(c, endpoint, caller, token)) && QueueOk(Start(c, endpoint, caller, token))
  {
  }

  lemma StartRetry(c: Coord, endpoint: Endpoint, caller: Caller, token: Option<string>)
    requires Inv(c)
    ensures RetryOk(Start(c, endpoint, caller, token))
  {
    var c' := Start(c, endpoint, caller, token);
    var n := c.nextId;
    assert forall i :: 0 <= i < |c.log| ==> c.log[i].id != n;
    CountSentAbsent(c.log, n);
    forall x | x in c'.requests
      ensures RetryOkAt(c', x)
    {
      CountSentAppend(c.log, c'.log[|c.log|], x);
      if x != n {
        assert RetryOkAt(c, x);
      }
    }
  }

  lemma StartKeepsInv(c: Coord, endpoint: Endpoint, caller: Caller, token: Option<string>)
    requires Inv(c) && caller != RefreshOf
    ensures Inv(Start(c, endpoint, caller, token))
  {
    StartIdsFlightQueue(c, endpoint, caller, token);
    StartRetry(c, endpoint, caller, token);
  }

  lemma EnqueueKeepsInv(c: Coord, id: ReqId)
    requires Inv(c) && c.isRefreshing
    requires id in c.requests && c.requests[id].phase == InFlight && !c.requests[id].config.retry
    ensures Inv(Enqueue(c, id))
  {
    assert id !in c.queue;
    var c' := Enqueue(c, id);
    forall x | x in c'.requests
      ensures RetryOkAt(c', x)
    {
      assert RetryOkAt(c, x);
    }
  }

  lemma BeginRefreshIdsQueue(c: Coord, id: ReqId, user: Option<User>, token: Option<string>)
    requires Inv(c) && !c.isRefreshing
    requires id in c.requests && c.requests[id].phase == InFlight
    ensures IdsOk(BeginRefresh(c, id, user, token)) && QueueOk(BeginRefresh(c, id, user, token))
  {
  }

  lemma BeginRefreshFlight(c: Coord, id: ReqId, user: Option<User>, token: Option<string>)
    requires Inv(c) && !c.isRefreshing
    requires id in c.requests && c.requests[id].phase == InFlight
    ensures FlightOk(BeginRefresh(c, id, user, token))
  {
    assert c.requests[id].caller != RefreshOf;
  }

  lemma BeginRefreshRetry(c: Coord, id: ReqId, user: Option<User>, token: Option<string>)
    requires Inv(c)
    requires id in c.requests && c.requests[id].phase == InFlight && !c.requests[id].config.retry
    ensures RetryOk(BeginRefresh(c, id, user, token))
  {
    var c' := BeginRefresh(c, id, user, token);
    var n := c.nextId;
    assert forall i :: 0 <= i < |c.log| ==> c.log[i].id != n;
    CountSentAbsent(c.log, n);
    forall x | x in c'.requests
      ensures RetryOkAt(c', x)
    {
      CountSentAppend(c.log, c'.log[|c.log|], x);
      if x != n {
        assert RetryOkAt(c, x);
      }
    }
  }

  lemma BeginRefreshKeepsInv(c: Coord, id: ReqId, user: Option<User>, token: Option<string>)
    requires Inv(c) && !c.isRefreshing
    requires id in c.requests && c.requests[id].phase == InFlight && !c.requests[id].config.retry
    ensures Inv(BeginRefresh(c, id, user, token))
  {
    BeginRefreshIdsQueue(c, id, user, token);
    BeginRefreshFlight(c, id, user, token);
    BeginRefreshRetry(c, id, user, token);
  }

  lemma SettleKeepsInv(c: Coord, id: ReqId, outcome: Outcome)
    requires Inv(c)
    requires id in c.requests && c.requests[id].phase == InFlight && c.requests[id].caller != RefreshOf
    ensures Inv(Settle(c, id, outcome))
  {
    var c' := Settle(c, id, outcome);
    forall x | x in c'.requests
      ensures RetryOkAt(c', x)
    {
      assert RetryOkAt(c, x);
    }
  }

  /** The facts about a refresh in flight that both of its endings rely on. */
  lemma RefreshFacts(c: Coord)
    requires Inv(c) && c.isRefreshing
    requires c.requests[c.refreshRequest.value].phase == InFlight
    ensures Refreshing(c)
    ensures c.owner.value != c.refreshRequest.value
    ensures c.owner.value !in c.queue && c.refreshRequest.value !in c.queue
    ensures forall i :: 0 <= i < |c.queue| ==> c.requests[c.queue[i]].caller != RefreshOf
  {
  }

  /** Counting hand-overs after the owner's retry (if any) and the waiters' retries. */
  lemma CountAfterResume(log: seq<Sent>, extra: seq<Sent>, q: seq<ReqId>, requests: map<ReqId, Request>, token: Option<string>, x: ReqId)
    requires forall i :: 0 <= i < |q| ==> q[i] in requests
    requires NoDup(q)
    ensures CountSent(log + extra + Resumed(q, requests, token), x)
         == CountSent(log, x) + CountSent(extra, x) + (if x in q then 1 else 0)
  {
    CountSentConcat(log + extra, Resumed(q, requests, token), x);
    CountSentConcat(log, extra, x);
    CountResumed(q, requests, token, x);
  }

  /** Every hand-over made when resuming `q` is of a waiter in `q`. */
  lemma ResumedIds(q: seq<ReqId>, requests: map<ReqId, Request>, token: Option<string>)
    requires forall i :: 0 <= i < |q| ==> q[i] in requests
    ensures forall k :: 0 <= k < |q| ==> Resumed(q, requests, token)[k].id == q[k]
  {
    forall k | 0 <= k < |q|
      ensures Resumed(q, requests, token)[k].id == q[k]
    {
      ResumedAt(q, requests, token, k);
    }
  }

  /** What a refresh in flight looks like right before its request is answered. */
  ghost predicate AboutToSettle(c: Coord)
  {
    Inv(c) && c.isRefreshing && c.requests[c.refreshRequest.value].phase == InFlight
  }

  lemma RefreshSucceededIds(c: Coord, reply: Reply)
    requires AboutToSettle(c)
    ensures Refreshing(c)
    ensures IdsOk(RefreshSucceeded(c, reply))
  {
    RefreshFacts(c);
    var token := reply.accessToken;
    var c1 := Settle(c, c.refreshRequest.value, Resolved(reply));
    var c2 := Send(c1, c.owner.value, RetryConfig(token), token);
    ResumedIds(c2.queue, c2.requests, token);
  }

  lemma RefreshSucceededFlight(c: Coord, reply: Reply)
    requires AboutToSettle(c)
    ensures Refreshing(c)
    ensures FlightOk(RefreshSucceeded(c, reply))
  {
    RefreshFacts(c);
  }

  lemma RefreshSucceededQueue(c: Coord, reply: Reply)
    requires AboutToSettle(c)
    ensures Refreshing(c)
    ensures QueueOk(RefreshSucceeded(c, reply))
  {
    RefreshFacts(c);
  }

  lemma RefreshSucceededRetry(c: Coord, reply: Reply)
    requires AboutToSettle(c)
    ensures Refreshing(c)
    ensures RetryOk(RefreshSucceeded(c, reply))
  {
    RefreshFacts(c);
    var token := reply.accessToken;
    var o := c.owner.value;
    var c1 := Settle(c, c.refreshRequest.value, Resolved(reply));
    var c2 := Send(c1, o, RetryConfig(token), token);
    var c' := RefreshSucceeded(c, reply);
    InterceptorKeepsRetryHeader(token);
    forall x | x in c'.requests
      ensures RetryOkAt(c', x)
    {
      CountAfterResume(c.log, [c2.log[|c.log|]], c.queue, c2.requests, token, x);
      assert CountSent([c2.log[|c.log|]], x) == CountSent([], x) + (if x == o then 1 else 0);
      assert RetryOkAt(c, x);
    }
  }

  lemma RefreshSucceededKeepsInv(c: Coord, reply: Reply)
    requires AboutToSettle(c)
    ensures Refreshing(c)
    ensures Inv(RefreshSucceeded(c, reply))
  {
    RefreshSucceededIds(c, reply);
    RefreshSucceededFlight(c, reply);
    RefreshSucceededQueue(c, reply);
    RefreshSucceededRetry(c, reply);
  }

  lemma RefreshFailedIds(c: Coord, e: HttpError, token: Option<string>)
    requires AboutToSettle(c)
    ensures Refreshing(c)
    ensures IdsOk(RefreshFailed(c, e, token))
  {
    RefreshFacts(c);
    var c1 := Settle(c, c.refreshRequest.value, Rejected(e));
    var c2 := Start(c1, LogoutCall, LogoutOf, token);
    ResumedIds(c2.queue, c2.requests, token);
  }

  lemma RefreshFailedFlight(c: Coord, e: HttpError, token: Option<string>)
    requires AboutToSettle(c)
    ensures Refreshing(c)
    ensures FlightOk(RefreshFailed(c, e, token))
  {
    RefreshFacts(c);
  }

  lemma RefreshFailedQueue(c: Coord, e: HttpError, token: Option<string>)
    requires AboutToSettle(c)
    ensures Refreshing(c)
    ensures QueueOk(RefreshFailed(c, e, token))
  {
    RefreshFacts(c);
  }

  lemma RefreshFailedRetryAt(c: Coord, e: HttpError, token: Option<string>, x: ReqId)
    requires AboutToSettle(c)
    requires Refreshing(c)
    requires x in RefreshFailed(c, e, token).requests
    ensures RetryOkAt(RefreshFailed(c, e, token), x)
  {
    RefreshFacts(c);
    var n := c.nextId;
    var c1 := Settle(c, c.refreshRequest.value, Rejected(e));
    var c2 := Start(c1, LogoutCall, LogoutOf, token);
    var c' := RefreshFailed(c, e, token);
    CountAfterResume(c.log, [c2.log[|c.log|]], c.queue, c2.requests, token, x);
    assert CountSent([c2.log[|c.log|]], x) == CountSent([], x) + (if x == n then 1 else 0);
    if x == n {
      assert forall i :: 0 <= i < |c.log| ==> c.log[i].id != n;
      CountSentAbsent(c.log, n);
    } else {
      assert x in c.requests && RetryOkAt(c, x);
    }
  }

  lemma RefreshFailedRetry(c: Coord, e: HttpError, token: Option<string>)
    requires AboutToSettle(c)
    ensures Refreshing(c)
    ensures RetryOk(RefreshFailed(c, e, token))
  {
    RefreshFacts(c);
    forall x | x in RefreshFailed(c, e, token).requests
      ensures RetryOkAt(RefreshFailed(c, e, token), x)
    {
      RefreshFailedRetryAt(c, e, token, x);
    }
  }

  lemma RefreshFailedKeepsInv(c: Coord, e: HttpError, token: Option<string>)
    requires AboutToSettle(c)
    ensures Refreshing(c)
    ensures Inv(RefreshFailed(c, e, token))
  {
    RefreshFailedIds(c, e, token);
    RefreshFailedFlight(c, e, token);
    RefreshFailedQueue(c, e, token);
    RefreshFailedRetry(c, e, token);
  }

  /** Every answer from the network keeps the coordinator's invariant. */
  lemma RespondKeepsInv(c: Coord, id: ReqId, response: Result<Reply, HttpError>, user: Option<User>, token: Option<string>)
    requires Inv(c)
    requires id in c.requests && c.requests[id].phase == InFlight
    ensures Inv(Respond(c, id, response, user, token))
  {
    var r := c.requests[id];
    if FirstUnauthorized(response, r.config) {
      if c.isRefreshing {
        EnqueueKeepsInv(c, id);
      } else {
        BeginRefreshKeepsInv(c, id, user, token);
      }
    } else if r.caller == RefreshOf {
      match response {
        case Ok(reply) => RefreshSucceededKeepsInv(c, reply);
        case Err(e) => RefreshFailedKeepsInv(c, e, token);
      }
    } else {
      SettleKeepsInv(c, id, OutcomeOf(response));
    }
  }

  /* ---------------- What the invariant and the steps promise ---------------- */

  /** Single flight: at most one refresh request is outstanding, and only while the flag is set. */
  lemma SingleFlight(c: Coord, a: ReqId, b: ReqId)
    requires Inv(c)
    requires a in c.requests && c.requests[a].caller == RefreshOf && !c.requests[a].phase.Settled?
    requires b in c.requests && c.requests[b].caller == RefreshOf && !c.requests[b].phase.Settled?
    ensures a == b && c.isRefreshing
  {
  }

  /** Retried at most once: a request goes out once, or twice with the retry mark on it. */
  lemma RetriedAtMostOnce(c: Coord, id: ReqId)
    requires Inv(c) && id in c.requests
    ensures 1 <= CountSent(c.log, id) <= 2
    ensures CountSent(c.log, id) == 2 ==> c.requests[id].config.retry
  {
    assert RetryOkAt(c, id);
  }

  /**
   * An answer that is not a first 401 reaches the request's caller unchanged
   * (api.ts:31, 64); in particular a 401 on a retried request is rejected
   * with that very error. Nothing is sent and the coordinator is untouched.
   */
  lemma PassThrough(c: Coord, id: ReqId, response: Result<Reply, HttpError>, user: Option<User>, token: Option<string>)
    requires Inv(c)
    requires id in c.requests && c.requests[id].phase == InFlight && c.requests[id].caller != RefreshOf
    requires !FirstUnauthorized(response, c.requests[id].config)
    ensures var c' := Respond(c, id, response, user, token);
      && (response.Err? ==> c'.requests[id].phase == Settled(Rejected(response.error)))
      && (response.Ok? ==> c'.requests[id].phase == Settled(Resolved(response.value)))
      && c'.log == c.log && c'.queue == c.queue && c'.isRefreshing == c.isRefreshing
      && (forall x :: x in c.requests && x != id ==> x in c'.requests && c'.requests[x] == c.requests[x])
  {
  }

  /**
   * A first 401 while no refresh runs makes its request the owner of a new
   * refresh: the flag is set and exactly one /auth/refresh goes out, with the
   * current user's id as hint; a first 401 during a refresh only joins the
   * back of the queue and sends nothing (api.ts:43-53).
   */
  lemma FirstUnauthorizedParks(c: Coord, id: ReqId, e: HttpError, user: Option<User>, token: Option<string>)
    requires Inv(c)
    requires id in c.requests && c.requests[id].phase == InFlight && !c.requests[id].config.retry
    requires e.status == Some(401)
    ensures var c' := Respond(c, id, Err(e), user, token);
      && c'.isRefreshing
      && c'.requests[id].config.retry
      && (c.isRefreshing ==>
            c'.queue == c.queue + [id] && c'.log == c.log && c'.requests[id].phase == Queued)
      && (!c.isRefreshing ==>
            && c'.owner == Some(id) && c'.requests[id].phase == AwaitingRefresh
            && c'.log == c.log + [Sent(c.nextId, RefreshCall(RefreshHint(UserId(user))), AttachToken(FreshConfig, token))]
            && c'.refreshRequest == Some(c.nextId)
            && c.nextId in c'.requests && c'.requests[c.nextId].phase == InFlight
            && !c'.requests[c.nextId].config.retry
            && c'.queue == [])
      && (c'.owner == c.owner || !c.isRefreshing) && c'.refreshRequest.Some?
      && (c.isRefreshing ==> c'.refreshRequest == c.refreshRequest)
      && (forall x :: x in c.requests && x != id ==> x in c'.requests && c'.requests[x] == c.requests[x])
      && c'.requests[id].endpoint == c.requests[id].endpoint
  {
  }

  /**
   * The answer to the refresh request goes to the refresh's own
   * continuation (api.ts:53-60), unless it is itself a first 401.
   */
  lemma RefreshAnswer(c: Coord, response: Result<Reply, HttpError>, user: Option<User>, token: Option<string>)
    requires AboutToSettle(c)
    requires response.Err? ==> response.error.status != Some(401)
    ensures Refreshing(c)
    ensures response.Ok? ==> Respond(c, c.refreshRequest.value, response, user, token) == RefreshSucceeded(c, response.value)
    ensures response.Err? ==> Respond(c, c.refreshRequest.value, response, user, token) == RefreshFailed(c, response.error, token)
  {
    RefreshFacts(c);
  }

  /**
   * A refresh that succeeds (api.ts:53-57, 36-39): the refresh request is
   * resolved, the owner and every waiter are in flight again, marked and
   * with the header rebuilt from the new token; the queue is empty and the
   * flag clear.
   */
  lemma RefreshSuccessRetriesAll(c: Coord, reply: Reply)
    requires AboutToSettle(c)
    ensures Refreshing(c)
    ensures var c', t := RefreshSucceeded(c, reply), reply.accessToken;
      && !c'.isRefreshing && c'.queue == [] && c'.owner == None && c'.refreshRequest == None
      && c'.requests[c.refreshRequest.value].phase == Settled(Resolved(reply))
      && c'.requests[c.owner.value].phase == InFlight && c'.requests[c.owner.value].config == RetryConfig(t)
      && (forall i :: 0 <= i < |c.queue| ==>
            c'.requests[c.queue[i]].phase == InFlight && c'.requests[c.queue[i]].config == RetryConfig(t))
  {
    RefreshFacts(c);
    InterceptorKeepsRetryHeader(reply.accessToken);
  }

  /**
   * The hand-overs a successful refresh makes: the owner goes out again
   * first, then every waiter in the order it was queued.
   */
  lemma {:induction false} RefreshSuccessLog(c: Coord, reply: Reply)
    requires AboutToSettle(c)
    ensures Refreshing(c)
    ensures var c', t := RefreshSucceeded(c, reply), reply.accessToken;
      && |c'.log| == |c.log| + 1 + |c.queue| && c'.log[..|c.log|] == c.log
      && c'.log[|c.log|] == Sent(c.owner.value, c.requests[c.owner.value].endpoint, RetryConfig(t))
      && (forall k :: 0 <= k < |c.queue| ==>
            c'.log[|c.log| + 1 + k] == Sent(c.queue[k], c.requests[c.queue[k]].endpoint, RetryConfig(t)))
  {
    RefreshFacts(c);
    var t := reply.accessToken;
    var c1 := Settle(c, c.refreshRequest.value, Resolved(reply));
    var c2 := Send(c1, c.owner.value, RetryConfig(t), t);
    InterceptorKeepsRetryHeader(t);
    var c' := RefreshSucceeded(c, reply);
    forall k | 0 <= k < |c.queue|
      ensures c'.log[|c.log| + 1 + k] == Sent(c.queue[k], c.requests[c.queue[k]].endpoint, RetryConfig(t))
    {
      ResumedAt(c.queue, c2.requests, t, k);
    }
  }

  /**
   * A refresh that fails with `e` (api.ts:58-60, 36-41): the owner is
   * rejected with the refresh's error rather than its own 401, the store's
   * logout is in flight, and every waiter is still resumed and retries with
   * the unchanged token's header; the queue is empty and the flag clear.
   */
  lemma RefreshFailureResumesWaiters(c: Coord, e: HttpError, token: Option<string>)
    requires AboutToSettle(c)
    ensures Refreshing(c)
    ensures var c' := RefreshFailed(c, e, token);
      && !c'.isRefreshing && c'.queue == [] && c'.owner == None && c'.refreshRequest == None
      && c'.requests[c.refreshRequest.value].phase == Settled(Rejected(e))
      && c'.requests[c.owner.value].phase == Settled(Rejected(e))
      && c'.requests[c.nextId].caller == LogoutOf && c'.requests[c.nextId].phase == InFlight
      && (forall i :: 0 <= i < |c.queue| ==>
            c'.requests[c.queue[i]].phase == InFlight && c'.requests[c.queue[i]].config == RetryConfig(token))
  {
    RefreshFacts(c);
    assert c.owner.value < c.nextId;
    InterceptorKeepsRetryHeader(token);
  }

  /**
   * The hand-overs a failed refresh makes: the logout request first, then
   * every waiter in the order it was queued.
   */
  lemma {:induction false} RefreshFailureLog(c: Coord, e: HttpError, token: Option<string>)
    requires AboutToSettle(c)
    ensures Refreshing(c)
    ensures var c' := RefreshFailed(c, e, token);
      && |c'.log| == |c.log| + 1 + |c.queue| && c'.log[..|c.log|] == c.log
      && c'.log[|c.log|] == Sent(c.nextId, LogoutCall, AttachToken(FreshConfig, token))
      && (forall k :: 0 <= k < |c.queue| ==>
            c'.log[|c.log| + 1 + k] == Sent(c.queue[k], c.requests[c.queue[k]].endpoint, RetryConfig(token)))
  {
    RefreshFacts(c);
    var c1 := Settle(c, c.refreshRequest.value, Rejected(e));
    var c2 := Start(c1, LogoutCall, LogoutOf, token);
    var c' := RefreshFailed(c, e, token);
    assert forall x :: x in c.requests ==> x < c.nextId;
    forall k | 0 <= k < |c.queue|
      ensures c'.log[|c.log| + 1 + k] == Sent(c.queue[k], c.requests[c.queue[k]].endpoint, RetryConfig(token))
    {
      ResumedAt(c.queue, c2.requests, token, k);
    }
  }

  /**
   * The refresh request answered 401 while its own refresh runs: it is a
   * first 401 like any other, so it joins the queue behind the refresh it
   * belongs to (api.ts:43-45), and no refresh request is in flight any more.
   */
  lemma RefreshQueuedBehindItself(c: Coord, e: HttpError, user: Option<User>, token: Option<string>)
    requires AboutToSettle(c)
    requires !c.requests[c.refreshRequest.value].config.retry
    requires e.status == Some(401)
    ensures var c' := Respond(c, c.refreshRequest.value, Err(e), user, token);
      && c'.isRefreshing && c'.refreshRequest == c.refreshRequest
      && c'.requests[c.refreshRequest.value].phase == Queued
      && c'.queue == c.queue + [c.refreshRequest.value] && c'.log == c.log
  {
    RefreshFacts(c);
  }

  /** A coordinator whose refresh request waits in its own queue. */
  ghost predicate Stuck(c: Coord)
  {
    Inv(c) && c.isRefreshing && c.requests[c.refreshRequest.value].phase == Queued
  }

  /**
   * No answer and no new request ever gets a stuck coordinator out: the flag
   * stays set, the refresh stays queued, and every later 401 queues too. The
   * model claims no liveness.
   */
  lemma StuckStaysStuck(c: Coord, id: ReqId, response: Result<Reply, HttpError>, user: Option<User>, token: Option<string>)
    requires Stuck(c)
    requires id in c.requests && c.requests[id].phase == InFlight
    ensures Stuck(Respond(c, id, response, user, token))
    ensures Respond(c, id, response, user, token).refreshRequest == c.refreshRequest
  {
    RespondKeepsInv(c, id, response, user, token);
    assert c.requests[id].caller != RefreshOf;
  }

  lemma StuckStartStaysStuck(c: Coord, endpoint: Endpoint, caller: Caller, token: Option<string>)
    requires Stuck(c) && caller != RefreshOf
    ensures Stuck(Start(c, endpoint, caller, token))
    ensures Start(c, endpoint, caller, token).refreshRequest == c.refreshRequest
  {
    StartKeepsInv(c, endpoint, caller, token);
  }

  /** One more waiter resumed: one more hand-over at the end, one more entry rewritten. */
  lemma ResumeStep(q: seq<ReqId>, base: map<ReqId, Request>, token: Option<string>, i: nat)
    requires forall k :: 0 <= k < |q| ==> q[k] in base
    requires i < |q|
    ensures Resumed(q[..i + 1], base, token)
         == Resumed(q[..i], base, token) + [Sent(q[i], base[q[i]].endpoint, RetryConfig(token))]
    ensures RetryAll(base, q[..i + 1], token)
         == RetryAll(base, q[..i], token)[q[i] := base[q[i]].(config := RetryConfig(token), phase := InFlight)]
  {
    assert q[..i + 1][..i] == q[..i];
    assert forall x :: x in q[..i + 1] <==> x in q[..i] || x == q[i];
  }

  /** The client: the coordinator's state as fields, and the store it reads the token from. */
  class Client {
    const store: AuthStore
    var isRefreshing: bool
    var queue: seq<ReqId>
    var owner: Option<ReqId>
    var refreshRequest: Option<ReqId>
    var requests: map<ReqId, Request>
    var log: seq<Sent>
    var nextId: ReqId

    function State(): Coord
      reads this
    {
      Coord(isRefreshing, queue, owner, refreshRequest, requests, log, nextId)
    }

    ghost predicate Valid()
      reads this
    {
      Inv(State())
    }

    constructor (store: AuthStore)
      ensures Valid() && State() == Idle
      ensures this.store == store
    {
      this.store := store;
      isRefreshing, queue, owner, refreshRequest := false, [], None, None;
      requests, log, nextId := map[], [], 0;
    }

    /** Hand request `id` with `config` to the transport, through the request interceptor. */
    method Dispatch(id: ReqId, config: Config)
      requires id in requests
      modifies this
      ensures State() == Send(old(State()), id, config, store.accessToken)
    {
      var out := AttachToken(config, store.accessToken);
      log := log + [Sent(id, requests[id].endpoint, out)];
      requests := requests[id := requests[id].(config := out, phase := InFlight)];
    }

    /** Create a request under the next id and send it. */
    method StartRequest(endpoint: Endpoint, caller: Caller) returns (id: ReqId)
      modifies this
      ensures id == old(nextId)
      ensures State() == Start(old(State()), endpoint, caller, store.accessToken)
    {
      id := nextId;
      nextId := nextId + 1;
      requests := requests[id := Request(endpoint, caller, FreshConfig, InFlight)];
      Dispatch(id, FreshConfig);
    }

    /** `runQueued`'s resumptions (api.ts:37-39): each waiter, in queue order, retries. */
    method ResumeQueued()
      requires forall i :: 0 <= i < |queue| ==> queue[i] in requests
      modifies this
      ensures State() == ResumeAll(old(State()), store.accessToken)
    {
      var q, token, base := queue, store.accessToken, requests;
      var reqs, sent := requests, log;
      var i := 0;
      while i < |q|
        invariant 0 <= i <= |q|
        invariant sent == log + Resumed(q[..i], base, token)
        invariant reqs == RetryAll(base, q[..i], token)
        invariant unchanged(this)
      {
        var w := q[i];
        InterceptorKeepsRetryHeader(token);
        var out := AttachToken(RetryConfig(token), token);
        ResumeStep(q, base, token, i);
        sent := sent + [Sent(w, base[w].endpoint, out)];
        reqs := reqs[w := base[w].(config := out, phase := InFlight)];
        i := i + 1;
      }
      assert q[..|q|] == q;
      log, requests, queue, isRefreshing := sent, reqs, [], false;
    }

    /**
     * The final outcome reaches a request's caller: application code, or the
     * store's `logout`, which then clears the session whatever the outcome.
     */
    method SettleFinal(id: ReqId, outcome: Outcome)
      requires id in requests && requests[id].caller != RefreshOf
      modifies this, store
      ensures State() == Settle(old(State()), id, outcome)
      ensures old(requests)[id].caller == LogoutOf ==> store.user == None && store.accessToken == None
      ensures old(requests)[id].caller == App ==>
                store.user == old(store.user) && store.accessToken == old(store.accessToken)
      ensures store.loading == old(store.loading)
    {
      var caller := requests[id].caller;
      requests := requests[id := requests[id].(phase := Settled(outcome))];
      if caller == LogoutOf {
        var _ := store.LogoutSettle(if outcome.Resolved? then Ok(()) else Err(outcome.error));
      }
    }

    /** Application code sends a request to `path`. */
    method Issue(path: string) returns (id: ReqId)
      requires Valid()
      modifies this
      ensures Valid()
      ensures id == old(nextId)
      ensures State() == Start(old(State()), Resource(path), App, store.accessToken)
    {
      StartKeepsInv(State(), Resource(path), App, store.accessToken);
      id := StartRequest(Resource(path), App);
    }

    /** Application code calls the store's `logout`, whose request goes through this client. */
    method Logout() returns (id: ReqId)
      requires Valid()
      modifies this
      ensures Valid()
      ensures id == old(nextId)
      ensures State() == Start(old(State()), LogoutCall, LogoutOf, store.accessToken)
    {
      StartKeepsInv(State(), LogoutCall, LogoutOf, store.accessToken);
      id := StartRequest(LogoutCall, LogoutOf);
    }

    /** A first 401 (api.ts:43-53): join the queue, or become the owner of a new refresh. */
    method Park(id: ReqId)
      requires id in requests
      modifies this
      ensures State() == if old(isRefreshing) then Enqueue(old(State()), id)
                         else BeginRefresh(old(State()), id, store.user, store.accessToken)
    {
      var r := requests[id];
      if isRefreshing {
        requests := requests[id := Mark(r, Queued)];
        queue := queue + [id];
      } else {
        isRefreshing, owner, refreshRequest := true, Some(id), Some(nextId);
        requests := requests[id := Mark(r, AwaitingRefresh)];
        var _ := StartRequest(RefreshCall(RefreshHint(UserId(store.user))), RefreshOf);
      }
    }

    /** The refresh request resolved with `reply`: the store installs it, then everyone retries. */
    method RefreshOk(reply: Reply)
      requires Refreshing(State())
      modifies this, store
      ensures State() == RefreshSucceeded(old(State()), reply)
      ensures store.user == reply.user && store.accessToken == reply.accessToken
      ensures store.loading == old(store.loading)
    {
      var o := owner.value;
      requests := requests[refreshRequest.value := requests[refreshRequest.value].(phase := Settled(Resolved(reply)))];
      var _ := store.RefreshSettle(Ok(reply));
      Dispatch(o, RetryConfig(store.accessToken));
      ResumeQueued();
      owner, refreshRequest := None, None;
    }

    /** The refresh request failed with `e`: logout starts, the waiters retry, the owner is rejected. */
    method RefreshErr(e: HttpError)
      requires Refreshing(State())
      requires owner.value != refreshRequest.value && owner.value < nextId
      requires requests[owner.value].caller != RefreshOf
      modifies this, store
      ensures State() == RefreshFailed(old(State()), e, old(store.accessToken))
      ensures old(requests)[old(owner).value].caller == LogoutOf ==> store.user == None && store.accessToken == None
      ensures old(requests)[old(owner).value].caller != LogoutOf ==>
                store.user == old(store.user) && store.accessToken == old(store.accessToken)
      ensures store.loading == old(store.loading)
    {
      var o := owner.value;
      requests := requests[refreshRequest.value := requests[refreshRequest.value].(phase := Settled(Rejected(e)))];
      var _ := store.RefreshSettle(Err(e));
      var _ := StartRequest(LogoutCall, LogoutOf);
      ResumeQueued();
      assert requests[o].caller == old(requests)[o].caller;
      assert store.user == old(store.user) && store.accessToken == old(store.accessToken);
      SettleFinal(o, Rejected(e));
      owner, refreshRequest := None, None;
    }

    /**
     * The network answers request `id` with `response`; the response
     * interceptor runs, and so does whatever awaited the request.
     */
    method Deliver(id: ReqId, response: Result<Reply, HttpError>)
      requires Valid()
      requires id in requests && requests[id].phase == InFlight
      modifies this, store
      ensures Valid()
      ensures State() == Respond(old(State()), id, response, old(store.user), old(store.accessToken))
      ensures Snapshot(store.user, store.accessToken)
           == SessionAfter(old(State()), id, response, old(store.user), old(store.accessToken))
      ensures store.loading == old(store.loading)
    {
      RespondKeepsInv(State(), id, response, store.user, store.accessToken);
      var r := requests[id];
      if FirstUnauthorized(response, r.config) {
        Park(id);
      } else if r.caller == RefreshOf {
        RefreshFacts(State());
        assert owner.value in requests;
        match response {
          case Ok(reply) => RefreshOk(reply);
          case Err(e) => RefreshErr(e);
        }
      } else {
        SettleFinal(id, OutcomeOf(response));
      }
    }
  }

  /* ---------------- Scenarios on a client ---------------- */

  /**
   * n requests go out and each is answered 401 before the refresh returns;
   * the refresh then succeeds. Exactly one /auth/refresh is sent (by the
   * first request's interceptor call, with the stored user's id as hint),
   * and afterwards every request goes out once more, the first one first
   * and the rest in the order their 401s arrived, each with the header
   * built from the new token.
   */
  method ConcurrentUnauthorized(stored: Option<Snapshot>, paths: seq<string>, e: HttpError, reply: Reply)
    returns (log: seq<Sent>)
    requires |paths| >= 1 && e.status == Some(401)
    ensures var n, s := |paths|, Rehydrate(stored);
      && |log| == 2 * n + 1
      && (forall j :: 0 <= j < n ==> log[j] == Sent(j, Resource(paths[j]), AttachToken(FreshConfig, s.accessToken)))
      && log[n] == Sent(n, RefreshCall(RefreshHint(UserId(s.user))), AttachToken(FreshConfig, s.accessToken))
      && (forall j :: 0 <= j < n ==> log[n + 1 + j] == Sent(j, Resource(paths[j]), RetryConfig(reply.accessToken)))
  {
    var store := new AuthStore(stored);
    var client := new Client(store);
    IssueAll(client, paths);
    ParkAll(client, paths, e);
    ghost var before, token, user := client.State(), store.accessToken, store.user;
    RefreshSucceeds(client, reply);
    log := client.log;
    ConcurrentLog(before, paths, token, user, reply);
  }

  /**
   * n requests sent with `token`, all answered 401, request 0 owning the
   * refresh (request n, sent with `user`'s hint), 1 .. n-1 queued in order.
   */
  ghost predicate AllParked(c: Coord, paths: seq<string>, token: Option<string>, user: Option<User>)
  {
    && |paths| >= 1 && AboutToSettle(c)
    && c.owner == Some(0) && c.refreshRequest == Some(|paths|)
    && Issued(c, paths, |paths|, token) && |c.log| == |paths| + 1
    && c.log[|paths|] == Sent(|paths|, RefreshCall(RefreshHint(UserId(user))), AttachToken(FreshConfig, token))
    && |c.queue| == |paths| - 1 && (forall i :: 0 <= i < |paths| - 1 ==> c.queue[i] == i + 1)
  }

  /** What the log of `ConcurrentUnauthorized` holds once the refresh has resolved. */
  lemma ConcurrentLog(c: Coord, paths: seq<string>, token: Option<string>, user: Option<User>, reply: Reply)
    requires AllParked(c, paths, token, user)
    ensures var log, n := RefreshSucceeded(c, reply).log, |paths|;
      && |log| == 2 * n + 1
      && (forall j :: 0 <= j < n ==> log[j] == Sent(j, Resource(paths[j]), AttachToken(FreshConfig, token)))
      && log[n] == Sent(n, RefreshCall(RefreshHint(UserId(user))), AttachToken(FreshConfig, token))
      && (forall j :: 0 <= j < n ==> log[n + 1 + j] == Sent(j, Resource(paths[j]), RetryConfig(reply.accessToken)))
  {
    RefreshSuccessLog(c, reply);
    var log := RefreshSucceeded(c, reply).log;
    assert log[..|c.log|] == c.log;
    RetriesInIdOrder(log, |c.log|, c.queue, c.requests, 0, paths, RetryConfig(reply.accessToken));
  }

  /** The retries after the refresh, read back by request id: the owner 0, then waiters 1, 2, ... */
  lemma RetriesInIdOrder(log: seq<Sent>, base: nat, q: seq<ReqId>, reqs: map<ReqId, Request>, owner: ReqId,
                         paths: seq<string>, config: Config)
    requires |paths| >= 1 && base == |paths| + 1 && |log| == base + 1 + |q| && |q| == |paths| - 1
    requires owner == 0 && forall i :: 0 <= i < |paths| - 1 ==> q[i] == i + 1
    requires forall j :: 0 <= j < |paths| ==> j in reqs && reqs[j].endpoint == Resource(paths[j])
    requires owner in reqs && log[base] == Sent(owner, reqs[owner].endpoint, config)
    requires forall k :: 0 <= k < |q| ==> q[k] in reqs && log[base + 1 + k] == Sent(q[k], reqs[q[k]].endpoint, config)
    ensures forall j :: 0 <= j < |paths| ==> log[|paths| + 1 + j] == Sent(j, Resource(paths[j]), config)
  {
    forall j | 1 <= j < |paths|
      ensures log[|paths| + 1 + j] == Sent(j, Resource(paths[j]), config)
    {
      assert log[base + 1 + (j - 1)] == Sent(q[j - 1], reqs[q[j - 1]].endpoint, config);
    }
  }

  /** The first `k` requests, one per path, as the interceptor sent them. */
  ghost predicate Issued(c: Coord, paths: seq<string>, k: nat, token: Option<string>)
    requires k <= |paths|
  {
    && |c.log| >= k
    && (forall j :: 0 <= j < k ==> c.log[j] == Sent(j, Resource(paths[j]), AttachToken(FreshConfig, token)))
    && (forall j :: 0 <= j < |paths| ==> j in c.requests && c.requests[j].endpoint == Resource(paths[j]))
  }

  /** Application code issues one request per path, from an idle client. */
  method IssueAll(client: Client, paths: seq<string>)
    requires client.Valid() && client.State() == Idle
    modifies client
    ensures client.Valid() && Issued(client.State(), paths, |paths|, client.store.accessToken)
    ensures client.nextId == |paths| && !client.isRefreshing && |client.log| == |paths|
    ensures forall j :: 0 <= j < |paths| ==> client.requests[j].phase == InFlight && !client.requests[j].config.retry
  {
    var k := 0;
    while k < |paths|
      invariant 0 <= k <= |paths|
      invariant client.Valid()
      invariant client.nextId == k && !client.isRefreshing && |client.log| == k
      invariant forall j :: 0 <= j < k ==> client.log[j] == Sent(j, Resource(paths[j]), AttachToken(FreshConfig, client.store.accessToken))
      invariant forall j :: 0 <= j < k ==>
                  j in client.requests && client.requests[j] == Request(Resource(paths[j]), App, AttachToken(FreshConfig, client.store.accessToken), InFlight)
    {
      var _ := client.Issue(paths[k]);
      k := k + 1;
    }
  }

  /** A first 401 reaches request `id` while no refresh runs: it starts one. */
  method StartsRefresh(client: Client, id: ReqId, e: HttpError)
    requires client.Valid() && e.status == Some(401) && !client.isRefreshing
    requires id in client.requests && client.requests[id].phase == InFlight && !client.requests[id].config.retry
    modifies client, client.store
    ensures client.Valid()
    ensures client.store.user == old(client.store.user) && client.store.accessToken == old(client.store.accessToken)
    ensures client.isRefreshing && client.queue == []
    ensures client.owner == Some(id) && client.refreshRequest == Some(old(client.nextId))
    ensures client.log == old(client.log) + [Sent(old(client.nextId), RefreshCall(RefreshHint(UserId(client.store.user))), AttachToken(FreshConfig, client.store.accessToken))]
    ensures old(client.nextId) in client.requests && client.requests[old(client.nextId)].phase == InFlight
    ensures forall x :: x in old(client.requests) && x != id ==> x in client.requests && client.requests[x] == old(client.requests)[x]
    ensures id in client.requests && client.requests[id].endpoint == old(client.requests)[id].endpoint
  {
    FirstUnauthorizedParks(client.State(), id, e, client.store.user, client.store.accessToken);
    client.Deliver(id, Err(e));
  }

  /** A first 401 reaches request `id` during a refresh: it joins the queue. */
  method Enqueued(client: Client, id: ReqId, e: HttpError)
    requires client.Valid() && e.status == Some(401) && client.isRefreshing
    requires id in client.requests && client.requests[id].phase == InFlight && !client.requests[id].config.retry
    modifies client, client.store
    ensures client.Valid()
    ensures client.store.user == old(client.store.user) && client.store.accessToken == old(client.store.accessToken)
    ensures client.State() == Enqueue(old(client.State()), id)
  {
    client.Deliver(id, Err(e));
  }

  /** The coordinator after requests 1 .. k-1 have queued behind the refresh started from `base`. */
  function Parked(base: Coord, k: nat): (c: Coord)
    ensures |c.queue| == |base.queue| + if k == 0 then 0 else k - 1
  {
    base.(queue := base.queue + seq(if k == 0 then 0 else k - 1, i => i + 1),
          requests := map j | j in base.requests :: if 1 <= j < k then Mark(base.requests[j], Queued) else base.requests[j])
  }

  lemma ParkStep(base: Coord, k: nat)
    requires 1 <= k && k in base.requests
    ensures k in Parked(base, k).requests
    ensures Enqueue(Parked(base, k), k) == Parked(base, k + 1)
  {
    var c, c' := Parked(base, k), Parked(base, k + 1);
    assert Enqueue(c, k).queue == c'.queue;
    assert Enqueue(c, k).requests == c'.requests;
  }

  /**
   * Every one of those requests is answered 401 before the refresh returns:
   * the first starts the refresh, the others queue in order.
   */
  method ParkAll(client: Client, paths: seq<string>, e: HttpError)
    requires |paths| >= 1 && e.status == Some(401)
    requires client.Valid() && Issued(client.State(), paths, |paths|, client.store.accessToken)
    requires client.nextId == |paths| && !client.isRefreshing && |client.log| == |paths|
    requires forall j :: 0 <= j < |paths| ==> client.requests[j].phase == InFlight && !client.requests[j].config.retry
    modifies client, client.store
    ensures client.store.user == old(client.store.user) && client.store.accessToken == old(client.store.accessToken)
    ensures AllParked(client.State(), paths, client.store.accessToken, client.store.user)
  {
    ghost var log0 := client.log;
    StartsRefresh(client, 0, e);
    ghost var base := client.State();
    EnqueueRest(client, |paths|, e);
    assert client.log[..|paths|] == log0;
    assert base.queue == [];
  }

  /** Requests 1 .. n-1 are answered 401 while request 0's refresh runs; they queue in order. */
  method EnqueueRest(client: Client, n: nat, e: HttpError)
    requires n >= 1 && e.status == Some(401)
    requires client.Valid() && client.isRefreshing
    requires forall j :: 1 <= j < n ==> j in client.requests && client.requests[j].phase == InFlight && !client.requests[j].config.retry
    modifies client, client.store
    ensures client.Valid()
    ensures client.store.user == old(client.store.user) && client.store.accessToken == old(client.store.accessToken)
    ensures client.State() == Parked(old(client.State()), n)
  {
    ghost var base := client.State();
    assert base == Parked(base, 1);
    var k := 1;
    while k < n
      invariant 1 <= k <= n
      invariant client.Valid()
      invariant client.store.user == old(client.store.user) && client.store.accessToken == old(client.store.accessToken)
      invariant client.State() == Parked(base, k)
    {
      ParkStep(base, k);
      Enqueued(client, k, e);
      k := k + 1;
    }
  }

  /** The refresh request resolves; the facts of `RefreshSuccessLog`, on the client. */
  method RefreshSucceeds(client: Client, reply: Reply)
    requires AboutToSettle(client.State())
    modifies client, client.store
    ensures Refreshing(old(client.State()))
    ensures client.log == RefreshSucceeded(old(client.State()), reply).log
  {
    RefreshAnswer(client.State(), Ok(reply), client.store.user, client.store.accessToken);
    client.Deliver(client.refreshRequest.value, Ok(reply));
  }

  /**
   * The deadlock is reachable from a fresh client: one request is answered
   * 401, and so is the refresh it starts. The result is stuck (see
   * `StuckStaysStuck`) with nothing left in flight.
   */
  method RefreshDeadlockReachable(stored: Option<Snapshot>, path: string, e: HttpError)
    returns (c: Coord)
    requires e.status == Some(401)
    ensures Stuck(c)
    ensures c.refreshRequest == Some(1) && c.queue == [1]
    ensures forall x :: x in c.requests ==> c.requests[x].phase != InFlight
  {
    var store := new AuthStore(stored);
    var client := new Client(store);
    var id := client.Issue(path);
    client.Deliver(id, Err(e));
    client.Deliver(1, Err(e));
    c := client.State();
  }
}
