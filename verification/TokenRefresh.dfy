/**
 Single-flight token refresh (frontend/src/api/http-client.ts).

 Requests are numbered.  `Client` is the state the response interceptor works on: the two module
 variables, the `_retry` flag and progress of every request, and a history of what happened.
 `Apply` is one handler invocation.  The class at the end mutates the same variables.
 */
module TokenRefresh {
  import opened Common

  datatype Phase =
    | Idle                // not sent yet
    | InFlight            // sent, no response yet
    | Waiting             // parked in failedQueue
    | Leading             // its handler awaits the refresh call
    | Settled(ok: bool)

  datatype Request = Request(phase: Phase, retry: bool, sends: nat)

  datatype Reply = Success | Unauthorized | OtherError

  /** A parked entry: the request and the number of the refresh it waits for. */
  datatype Parked = Parked(request: nat, refresh: nat)

  /** A released entry, with the outcome it was released with. */
  datatype Release = Release(entry: Parked, ok: bool)

  datatype ClientVars = Client(
    requests: seq<Request>,
    failedQueue: seq<nat>,
    isRefreshing: bool,
    leaders: seq<nat>,        // who called /auth/refresh, in order
    outcomes: seq<bool>,      // how each completed refresh call ended
    parked: seq<Parked>,      // every push to failedQueue
    releases: seq<Release>    // every entry that processQueue settled
  )

  /** The queue only ever holds requests of this client. */
  type Client = c: ClientVars | InRange(c.failedQueue, |c.requests|) witness Client([], [], false, [], [], [], [])

  datatype Event =
    | Send(r: nat)
    | Respond(r: nat, reply: Reply)
    | RefreshDone(leader: nat, ok: bool)

  function Start(n: nat): Client {
    Client(seq(n, _ => Request(Idle, false, 0)), [], false, [], [], [], [])
  }

  predicate Enabled(c: Client, e: Event) {
    match e
    case Send(r) => r < |c.requests| && c.requests[r].phase.Idle?
    case Respond(r, _) => r < |c.requests| && c.requests[r].phase.InFlight?
    case RefreshDone(leader, _) => leader < |c.requests| && c.requests[leader].phase.Leading?
  }

  function Resend(q: Request): Request {
    q.(phase := InFlight, sends := q.sends + 1)
  }

  function Settle(q: Request, ok: bool): Request {
    q.(phase := Settled(ok))
  }

  function Released(q: Request, ok: bool): Request {
    if ok then Resend(q) else Settle(q, false)
  }

  ghost predicate InRange(queue: seq<nat>, n: nat) {
    forall i :: 0 <= i < |queue| ==> queue[i] < n
  }

  /** The request rows after processQueue has gone through `queue`. */
  function ReleaseAll(requests: seq<Request>, queue: seq<nat>, ok: bool): (r: seq<Request>)
    requires InRange(queue, |requests|)
    ensures |r| == |requests|
    decreases queue
  {
    if queue == [] then requests
    else
      ReleaseAll(requests[queue[0] := Released(requests[queue[0]], ok)], queue[1..], ok)
  }

  function ReleaseLog(queue: seq<nat>, refresh: nat, ok: bool): seq<Release> {
    seq(|queue|, i requires 0 <= i < |queue| => Release(Parked(queue[i], refresh), ok))
  }

  /** The 401 branch of the response interceptor, up to its first await. */
  function OnUnauthorized(c: Client, r: nat): Client
    requires r < |c.requests|
  {
    var q := c.requests[r];
    if q.retry then
      c.(requests := c.requests[r := Settle(q, false)])
    else if c.isRefreshing then
      c.(requests := c.requests[r := q.(phase := Waiting)],
         failedQueue := c.failedQueue + [r],
         parked := c.parked + [Parked(r, |c.leaders|)])
    else
      c.(requests := c.requests[r := q.(phase := Leading, retry := true)],
         isRefreshing := true,
         leaders := c.leaders + [r])
  }

  /** Completion of the refresh call: processQueue, the leader's own retry, `finally`. */
  function OnRefreshDone(c: Client, leader: nat, ok: bool): Client
    requires leader < |c.requests|
  {
    var released := ReleaseAll(c.requests, c.failedQueue, ok);
    c.(requests := released[leader := Released(released[leader], ok)],
       failedQueue := [],
       isRefreshing := false,
       outcomes := c.outcomes + [ok],
       releases := c.releases + ReleaseLog(c.failedQueue, |c.leaders|, ok))
  }

  function Apply(c: Client, e: Event): Client
    requires Enabled(c, e)
  {
    match e
    case Send(r) => c.(requests := c.requests[r := Resend(c.requests[r])])
    case Respond(r, Unauthorized) => OnUnauthorized(c, r)
    case Respond(r, reply) => c.(requests := c.requests[r := Settle(c.requests[r], reply.Success?)])
    case RefreshDone(leader, ok) => OnRefreshDone(c, leader, ok)
  }

  // ---- The invariant ------------------------------------------------------------------------

  ghost predicate QueueInv(c: Client) {
    && InRange(c.failedQueue, |c.requests|)
    && Distinct(c.failedQueue)
    && forall r :: 0 <= r < |c.requests| ==> (c.requests[r].phase.Waiting? <==> r in c.failedQueue)
  }

  /** A refresh is in flight exactly when some request leads, and then that is the newest leader. */
  ghost predicate LeaderInv(c: Client) {
    && (forall r :: 0 <= r < |c.requests| && c.requests[r].phase.Leading? ==>
          c.isRefreshing && c.leaders != [] && r == c.leaders[|c.leaders| - 1])
    && (c.isRefreshing ==>
          c.leaders != [] && c.leaders[|c.leaders| - 1] < |c.requests| &&
          c.requests[c.leaders[|c.leaders| - 1]].phase.Leading?)
    && (c.failedQueue != [] ==> c.isRefreshing)
    && Distinct(c.leaders)
    && InRange(c.leaders, |c.requests|)
    && (forall r :: 0 <= r < |c.requests| ==> (c.requests[r].retry <==> r in c.leaders))
    && |c.leaders| == |c.outcomes| + (if c.isRefreshing then 1 else 0)
  }

  ghost predicate SendInv(c: Client) {
    forall r :: 0 <= r < |c.requests| ==>
      var q := c.requests[r];
      && (q.phase.Idle? ==> q.sends == 0 && !q.retry)
      && (q.phase.Waiting? ==> !q.retry)
      && q.sends <= |c.outcomes| + 1
  }

  /** Everything ever parked is either released, in order, or still in the queue, in order. */
  ghost predicate LogInv(c: Client) {
    && c.parked == Entries(c.releases) + Current(c)
    && forall i :: 0 <= i < |c.releases| ==>
         var entry := c.releases[i];
         1 <= entry.entry.refresh <= |c.outcomes| && entry.ok == c.outcomes[entry.entry.refresh - 1]
  }

  function Entries(log: seq<Release>): seq<Parked> {
    seq(|log|, i requires 0 <= i < |log| => log[i].entry)
  }

  function Current(c: Client): seq<Parked> {
    seq(|c.failedQueue|, i requires 0 <= i < |c.failedQueue| => Parked(c.failedQueue[i], |c.leaders|))
  }

  ghost predicate Inv(c: Client) {
    QueueInv(c) && LeaderInv(c) && SendInv(c) && LogInv(c)
  }

  /** processQueue releases exactly the queued requests, each once. */
  lemma {:induction false} ReleaseAllAt(requests: seq<Request>, queue: seq<nat>, ok: bool, r: nat)
    requires InRange(queue, |requests|) && Distinct(queue) && r < |requests|
    ensures ReleaseAll(requests, queue, ok)[r] ==
            if r in queue then Released(requests[r], ok) else requests[r]
    decreases queue
  {
    if queue != [] {
      var next := requests[queue[0] := Released(requests[queue[0]], ok)];
      assert queue == [queue[0]] + queue[1..];
      assert queue[0] !in queue[1..];
      ReleaseAllAt(next, queue[1..], ok, r);
    }
  }

  lemma {:induction false} RefreshDoneAt(c: Client, leader: nat, ok: bool, r: nat)
    requires Inv(c) && Enabled(c, RefreshDone(leader, ok)) && r < |c.requests|
    ensures OnRefreshDone(c, leader, ok).requests[r] ==
            if r in c.failedQueue || r == leader then Released(c.requests[r], ok) else c.requests[r]
  {
    ReleaseAllAt(c.requests, c.failedQueue, ok, r);
  }

  lemma StartInv(n: nat)
    ensures Inv(Start(n))
  {
    var c := Start(n);
    assert c.parked == Entries(c.releases) + Current(c);
  }

  lemma UnauthorizedKeepsInv(c: Client, r: nat)
    requires Inv(c) && Enabled(c, Respond(r, Unauthorized))
    ensures Inv(OnUnauthorized(c, r))
  {
    var d := OnUnauthorized(c, r);
    var q := c.requests[r];
    if !q.retry && c.isRefreshing {
      assert Current(d) == Current(c) + [Parked(r, |c.leaders|)];
      assert d.parked == Entries(d.releases) + Current(d);
    } else {
      assert Current(d) == Current(c);
    }
  }

  lemma RefreshDoneKeepsInv(c: Client, leader: nat, ok: bool)
    requires Inv(c) && Enabled(c, RefreshDone(leader, ok))
    ensures Inv(OnRefreshDone(c, leader, ok))
  {
    var d := OnRefreshDone(c, leader, ok);
    forall r | 0 <= r < |c.requests|
      ensures d.requests[r] ==
              if r in c.failedQueue || r == leader then Released(c.requests[r], ok) else c.requests[r]
    {
      RefreshDoneAt(c, leader, ok, r);
    }
    assert Entries(d.releases) == Entries(c.releases) + Current(c);
    assert Current(d) == [];
  }

  lemma SendKeepsInv(c: Client, r: nat)
    requires Inv(c) && Enabled(c, Send(r))
    ensures Inv(Apply(c, Send(r)))
  {
    assert Current(Apply(c, Send(r))) == Current(c);
  }

  lemma SettleKeepsInv(c: Client, r: nat, reply: Reply)
    requires Inv(c) && Enabled(c, Respond(r, reply)) && reply != Unauthorized
    ensures Inv(Apply(c, Respond(r, reply)))
  {
    assert Current(Apply(c, Respond(r, reply))) == Current(c);
  }

  lemma ApplyKeepsInv(c: Client, e: Event)
    requires Inv(c) && Enabled(c, e)
    ensures Inv(Apply(c, e)) && |Apply(c, e).requests| == |c.requests|
  {
    hide Inv;
    match e
    case Send(r) => SendKeepsInv(c, r);
    case Respond(r, Unauthorized) => UnauthorizedKeepsInv(c, r);
    case Respond(r, reply) => SettleKeepsInv(c, r, reply);
    case RefreshDone(leader, ok) => RefreshDoneKeepsInv(c, leader, ok);
  }

  // ---- Runs ---------------------------------------------------------------------------------

  ghost predicate IsRun(c: Client, events: seq<Event>)
    decreases |events|
  {
    events != [] ==> Enabled(c, events[0]) && IsRun(Apply(c, events[0]), events[1..])
  }

  ghost function After(c: Client, events: seq<Event>): Client
    requires IsRun(c, events)
    decreases |events|
  {
    if events == [] then c else After(Apply(c, events[0]), events[1..])
  }

  lemma {:induction false} RunKeepsInv(c: Client, events: seq<Event>)
    requires Inv(c) && IsRun(c, events)
    ensures Inv(After(c, events)) && |After(c, events).requests| == |c.requests|
    decreases |events|
  {
    if events != [] {
      ApplyKeepsInv(c, events[0]);
      RunKeepsInv(Apply(c, events[0]), events[1..]);
    }
  }

  /**
   Single flight, over all runs of n requests: never two leaders, the queue is non-empty only while
   a refresh is in flight, and every entry ever parked has been released exactly once, in order,
   with the outcome of the refresh it waited on, or is still parked for the one in flight.
   */
  lemma SingleFlight(n: nat, events: seq<Event>)
    requires IsRun(Start(n), events)
    ensures
      var c := After(Start(n), events);
      && (forall i, j | 0 <= i < |c.requests| && 0 <= j < |c.requests| ::
            c.requests[i].phase.Leading? && c.requests[j].phase.Leading? ==> i == j)
      && (c.isRefreshing <==> exists i :: 0 <= i < |c.requests| && c.requests[i].phase.Leading?)
      && (c.failedQueue != [] ==> c.isRefreshing)
      && |c.releases| + |c.failedQueue| == |c.parked|
      && (forall k :: 0 <= k < |c.releases| ==>
            && c.releases[k].entry == c.parked[k]
            && 1 <= c.parked[k].refresh <= |c.outcomes|
            && c.releases[k].ok == c.outcomes[c.parked[k].refresh - 1])
      && (forall k :: |c.releases| <= k < |c.parked| ==>
            c.parked[k] == Parked(c.failedQueue[k - |c.releases|], |c.outcomes| + 1))
  {
    hide IsRun, After, Start, SendInv;
    StartInv(n);
    RunKeepsInv(Start(n), events);
    var c := After(Start(n), events);
    assert Current(c) == c.parked[|c.releases|..];
    assert Entries(c.releases) == c.parked[..|c.releases|];
  }

  /** At most one refresh per request, and at most one send more than there were refreshes. */
  lemma CallsAreBounded(n: nat, events: seq<Event>)
    requires IsRun(Start(n), events)
    ensures
      var c := After(Start(n), events);
      && Distinct(c.leaders)
      && |c.leaders| <= n == |c.requests|
      && (forall r :: 0 <= r < n ==> c.requests[r].sends <= n + 1)
  {
    StartInv(n);
    RunKeepsInv(Start(n), events);
    DistinctBelow(After(Start(n), events).leaders, n);
  }

  // ---- Outcomes -----------------------------------------------------------------------------

  /** What one handler does to one request, in terms of the answer and of whom it was waiting for. */
  lemma StepOutcome(c: Client, e: Event, r: nat)
    requires Inv(c) && Enabled(c, e) && r < |c.requests|
    ensures
      var q, after := c.requests[r], Apply(c, e).requests[r];
      match e
      case Send(s) => after == if r == s then Request(InFlight, q.retry, q.sends + 1) else q
      case Respond(s, Success) => after == if r == s then q.(phase := Settled(true)) else q
      case Respond(s, OtherError) => after == if r == s then q.(phase := Settled(false)) else q
      case Respond(s, Unauthorized) =>
        if r != s then after == q
        else if q.retry then after == q.(phase := Settled(false))
        else if c.isRefreshing then after == q.(phase := Waiting)
        else after == q.(phase := Leading, retry := true)
      case RefreshDone(leader, ok) =>
        if r != leader && !q.phase.Waiting? then after == q
        else if ok then after == Request(InFlight, q.retry, q.sends + 1)
        else after == q.(phase := Settled(false))
  {
    if e.RefreshDone? {
      RefreshDoneAt(c, e.leader, e.ok, r);
    }
  }

  lemma {:induction false} ResolvedAfter(c: Client, events: seq<Event>, r: nat)
    requires Inv(c) && IsRun(c, events) && r < |c.requests|
    ensures r < |After(c, events).requests|
    ensures
      After(c, events).requests[r].phase == Settled(true)
      <==> c.requests[r].phase == Settled(true) || Respond(r, Success) in events
    decreases |events|
  {
    hide Inv, Apply;
    if events != [] {
      var e := events[0];
      ApplyKeepsInv(c, e);
      StepOutcome(c, e, r);
      ResolvedAfter(Apply(c, e), events[1..], r);
      assert events == [e] + events[1..];
    }
  }

  /**
   A request resolves exactly if it was answered with success at some time; so in a run that cannot go
   on every other one was rejected.
   */
  lemma ResolvedIff(n: nat, events: seq<Event>, r: nat)
    requires IsRun(Start(n), events) && r < n
    ensures r < |After(Start(n), events).requests|
    ensures
      var c := After(Start(n), events);
      && (c.requests[r].phase == Settled(true) <==> Respond(r, Success) in events)
      && ((forall e :: !Enabled(c, e)) ==>
           (c.requests[r].phase == Settled(false) <==> Respond(r, Success) !in events))
  {
    StartInv(n);
    ResolvedAfter(Start(n), events, r);
    StuckMeansSettled(n, events);
    RunKeepsInv(Start(n), events);
  }

  // ---- Termination --------------------------------------------------------------------------

  /** What one request can still cost, among n requests. */
  function Cost(q: Request, n: nat): nat {
    (if q.retry then 0 else n + 1) +
    match q.phase
    case Idle => 3
    case InFlight => 2
    case Waiting => 1
    case Leading => n + 2
    case Settled(_) => 0
  }

  function Potential(requests: seq<Request>, n: nat): nat {
    if requests == [] then 0 else Potential(requests[..|requests| - 1], n) + Cost(requests[|requests| - 1], n)
  }

  lemma {:induction false} PotentialUpdate(requests: seq<Request>, r: nat, q: Request, n: nat)
    requires r < |requests|
    ensures Potential(requests[r := q], n) == Potential(requests, n) - Cost(requests[r], n) + Cost(q, n)
  {
    var last := |requests| - 1;
    if r == last {
      assert requests[r := q][..last] == requests[..last];
    } else {
      PotentialUpdate(requests[..last], r, q, n);
      assert requests[r := q][..last] == requests[..last][r := q];
    }
  }

  /** Releasing a queue of waiting requests adds at most one per entry. */
  lemma {:induction false} ReleaseCost(requests: seq<Request>, queue: seq<nat>, ok: bool, n: nat)
    requires InRange(queue, |requests|) && Distinct(queue)
    requires forall r :: r in queue ==> requests[r].phase.Waiting?
    ensures Potential(ReleaseAll(requests, queue, ok), n) <= Potential(requests, n) + |queue|
    decreases queue
  {
    if queue != [] {
      var next := requests[queue[0] := Released(requests[queue[0]], ok)];
      assert queue == [queue[0]] + queue[1..];
      PotentialUpdate(requests, queue[0], next[queue[0]], n);
      ReleaseCost(next, queue[1..], ok, n);
    }
  }

  lemma RefreshDoneLowersPotential(c: Client, leader: nat, ok: bool)
    requires Inv(c) && Enabled(c, RefreshDone(leader, ok))
    ensures Potential(OnRefreshDone(c, leader, ok).requests, |c.requests|) < Potential(c.requests, |c.requests|)
  {
    var n := |c.requests|;
    var released := ReleaseAll(c.requests, c.failedQueue, ok);
    ReleaseCost(c.requests, c.failedQueue, ok, n);
    assert released[leader] == c.requests[leader] by {
      ReleaseAllAt(c.requests, c.failedQueue, ok, leader);
    }
    PotentialUpdate(released, leader, Released(released[leader], ok), n);
    assert |c.failedQueue| < n by {
      DistinctBelow(c.failedQueue + [leader], n);
    }
  }

  lemma ApplyLowersPotential(c: Client, e: Event)
    requires Inv(c) && Enabled(c, e)
    ensures Potential(Apply(c, e).requests, |c.requests|) < Potential(c.requests, |c.requests|)
  {
    match e
    case Send(r) =>
      PotentialUpdate(c.requests, r, Resend(c.requests[r]), |c.requests|);
    case Respond(r, _) =>
      PotentialUpdate(c.requests, r, Apply(c, e).requests[r], |c.requests|);
    case RefreshDone(leader, ok) =>
      RefreshDoneLowersPotential(c, leader, ok);
  }

  lemma {:induction false} RunLength(c: Client, events: seq<Event>)
    requires Inv(c) && IsRun(c, events)
    ensures |events| <= Potential(c.requests, |c.requests|)
    decreases |events|
  {
    if events != [] {
      ApplyKeepsInv(c, events[0]);
      ApplyLowersPotential(c, events[0]);
      RunLength(Apply(c, events[0]), events[1..]);
    }
  }

  lemma {:induction false} StartPotential(k: nat, n: nat)
    ensures Potential(Start(k).requests, n) == k * (n + 4)
  {
    if k > 0 {
      assert Start(k).requests[..k - 1] == Start(k - 1).requests;
      StartPotential(k - 1, n);
    }
  }

  /** Whatever the server answers and in whatever order, n requests are over after n*(n+4) steps. */
  lemma EveryRunEnds(n: nat, events: seq<Event>)
    requires IsRun(Start(n), events)
    ensures |events| <= n * (n + 4)
  {
    StartInv(n);
    RunLength(Start(n), events);
    StartPotential(n, n);
  }

  /** Nobody is stuck: a run can go on exactly as long as some request is not settled. */
  lemma StuckMeansSettled(n: nat, events: seq<Event>)
    requires IsRun(Start(n), events)
    ensures
      var c := After(Start(n), events);
      (exists e :: Enabled(c, e)) <==> (exists r :: 0 <= r < |c.requests| && !c.requests[r].phase.Settled?)
  {
    StartInv(n);
    RunKeepsInv(Start(n), events);
    var c := After(Start(n), events);
    if r: nat :| r < |c.requests| && !c.requests[r].phase.Settled? {
      match c.requests[r].phase
      case Idle => assert Enabled(c, Send(r));
      case InFlight => assert Enabled(c, Respond(r, Success));
      case Leading => assert Enabled(c, RefreshDone(r, true));
      case Waiting => assert Enabled(c, RefreshDone(c.leaders[|c.leaders| - 1], true));
    }
  }

  // ---- The module variables and the handlers that mutate them --------------------------------

  class HttpClient {
    var requests: seq<Request>
    var failedQueue: seq<nat>
    var isRefreshing: bool
    ghost var leaders: seq<nat>
    ghost var outcomes: seq<bool>
    ghost var parked: seq<Parked>
    ghost var releases: seq<Release>

    ghost predicate Valid()
      reads this
    {
      InRange(failedQueue, |requests|) && Inv(State())
    }

    ghost function State(): Client
      reads this
      requires InRange(failedQueue, |requests|)
    {
      Client(requests, failedQueue, isRefreshing, leaders, outcomes, parked, releases)
    }

    constructor (n: nat)
      ensures Valid() && State() == Start(n)
    {
      requests := seq(n, _ => Request(Idle, false, 0));
      failedQueue, isRefreshing := [], false;
      leaders, outcomes, parked, releases := [], [], [], [];
      new;
      StartInv(n);
    }

    method SendRequest(r: nat)
      requires Valid() && Enabled(State(), Send(r))
      modifies this
      ensures Valid() && State() == Apply(old(State()), Send(r))
    {
      ApplyKeepsInv(State(), Send(r));
      requests := requests[r := Resend(requests[r])];
    }

    /** The response interceptor, up to its first await. */
    method OnResponse(r: nat, reply: Reply)
      requires Valid() && Enabled(State(), Respond(r, reply))
      modifies this
      ensures Valid() && State() == Apply(old(State()), Respond(r, reply))
    {
      ApplyKeepsInv(State(), Respond(r, reply));
      var q := requests[r];
      if reply != Unauthorized {
        requests := requests[r := Settle(q, reply.Success?)];
      } else if q.retry {
        requests := requests[r := Settle(q, false)];
      } else if isRefreshing {
        requests := requests[r := q.(phase := Waiting)];
        failedQueue := failedQueue + [r];
        parked := parked + [Parked(r, |leaders|)];
      } else {
        requests := requests[r := q.(phase := Leading, retry := true)];
        isRefreshing := true;
        leaders := leaders + [r];
      }
    }

    /** Resolve or reject every queued entry, then empty the queue. */
    method ProcessQueue(ok: bool)
      requires InRange(failedQueue, |requests|)
      modifies this`requests, this`failedQueue, this`releases
      ensures requests == ReleaseAll(old(requests), old(failedQueue), ok) && failedQueue == []
      ensures releases == old(releases) + ReleaseLog(old(failedQueue), |leaders|, ok)
    {
      for i := 0 to |failedQueue|
        invariant failedQueue == old(failedQueue) && releases == old(releases)
        invariant |requests| == |old(requests)|
        invariant ReleaseAll(requests, failedQueue[i..], ok) == ReleaseAll(old(requests), failedQueue, ok)
      {
        assert failedQueue[i..][1..] == failedQueue[i + 1..];
        requests := requests[failedQueue[i] := Released(requests[failedQueue[i]], ok)];
      }
      releases := releases + ReleaseLog(failedQueue, |leaders|, ok);
      failedQueue := [];
    }

    /** The rest of the leader's handler, once the refresh call has answered. */
    method OnRefreshAnswer(leader: nat, ok: bool)
      requires Valid() && Enabled(State(), RefreshDone(leader, ok))
      modifies this
      ensures Valid() && State() == Apply(old(State()), RefreshDone(leader, ok))
    {
      RefreshDoneKeepsInv(State(), leader, ok);
      ProcessQueue(ok);
      requests := requests[leader := Released(requests[leader], ok)];
      outcomes := outcomes + [ok];
      isRefreshing := false;
    }
  }
}
