/**
 Outbound webhook delivery: the event table, the job queue and the retry table
 (backend/src/modules/integrations: webhook-delivery.processor.ts, outbound-webhooks.service.ts,
 integrations.constants.ts).

 An event is identified by its position in the table; rows are never removed.  A job stays in
 `jobs` from the moment it is queued until its processing is over.
 */
module WebhookDelivery {
  import opened Common

  const RETRY_DELAYS_MS: seq<nat> := [30_000, 2 * 60_000, 10 * 60_000, 30 * 60_000, 2 * 60 * 60_000]

  const MAX_ATTEMPTS: nat := |RETRY_DELAYS_MS| + 1

  const SUPPORTED_EVENTS: seq<string> :=
    ["order.status-changed", "route.built", "route.updated", "route.cancelled"]

  datatype Status = Pending | Processing | Retrying | Succeeded | Failed

  /** `sends` and `delayed` are history: HTTP requests made, and the sum of the delays scheduled. */
  datatype Row = Row(integration: Id, eventType: string, status: Status, attempts: nat, sends: nat, delayed: nat)

  /** Where `process` stands: not picked, row read, or waiting for the HTTP answer. */
  datatype Stage = Queued(delay: nat) | Loaded(attempts: nat) | Sending(attempt: nat)

  datatype Job = Job(event: nat, stage: Stage)

  datatype Tables = Tables(events: seq<Row>, jobs: seq<Job>)

  datatype Integration = Integration(
    id: Id, company: Id, isActive: bool, url: Option<string>, secret: Option<string>,
    eventTypes: Option<seq<string>>)

  // ---- Fan-out of one domain event ------------------------------------------------------------

  predicate Subscribes(i: Integration, eventType: string) {
    match i.eventTypes
    case None => eventType in SUPPORTED_EVENTS
    case Some(types) => eventType in SUPPORTED_EVENTS && eventType in types
  }

  predicate Receives(i: Integration, company: Id, eventType: string) {
    i.company == company && i.isActive && i.url.Some? && i.secret.Some? && Subscribes(i, eventType)
  }

  function Receivers(all: seq<Integration>, company: Id, eventType: string): seq<Integration> {
    if all == [] then []
    else
      var rest, last := Receivers(all[..|all| - 1], company, eventType), all[|all| - 1];
      if Receives(last, company, eventType) then rest + [last] else rest
  }

  /** An active integration of the company with url and secret, and a known event type it has not filtered out. */
  ghost predicate WantsEvent(i: Integration, company: Id, eventType: string) {
    && i.company == company && i.isActive && i.url != None && i.secret != None
    && eventType in ["order.status-changed", "route.built", "route.updated", "route.cancelled"]
    && (i.eventTypes.Some? ==> eventType in i.eventTypes.value)
  }

  lemma ReceivesIff(i: Integration, company: Id, eventType: string)
    ensures Receives(i, company, eventType) <==> WantsEvent(i, company, eventType)
  {
  }

  /** `at` lists, in ascending order, the positions of the integrations that receive the event. */
  ghost predicate ReceivingAt(all: seq<Integration>, company: Id, eventType: string, at: seq<nat>) {
    && (forall k, l :: 0 <= k < l < |at| ==> at[k] < at[l])
    && (forall k :: 0 <= k < |at| ==> at[k] < |all|)
    && (forall i: nat :: i < |all| ==> (WantsEvent(all[i], company, eventType) <==> i in at))
  }

  /** The receivers are exactly the active subscribed integrations, each once, in table order. */
  lemma {:induction false} ReceiversInOrder(all: seq<Integration>, company: Id, eventType: string)
    returns (at: seq<nat>)
    ensures ReceivingAt(all, company, eventType, at)
    ensures |at| == |Receivers(all, company, eventType)|
    ensures forall k :: 0 <= k < |at| ==> Receivers(all, company, eventType)[k] == all[at[k]]
  {
    hide Receives, WantsEvent;
    at := [];
    if all != [] {
      var n := |all| - 1;
      var front := all[..n];
      ReceivesIff(all[n], company, eventType);
      at := ReceiversInOrder(front, company, eventType);
      assert forall i: nat :: i < n ==> front[i] == all[i];
      if Receives(all[n], company, eventType) {
        var longer := at + [n];
        forall i: nat | i < |all|
          ensures WantsEvent(all[i], company, eventType) <==> i in longer
        {
          assert i in longer <==> i in at || i == n;
        }
        at := longer;
      }
    }
  }

  /** The row of one receiver, after the queue accepted or refused its job. */
  function PublishedRow(integration: Id, eventType: string, added: bool): Row {
    Row(integration, eventType, if added then Pending else Failed, 0, 0, 0)
  }

  /** One receiver: insert the row, then try to queue a job for it. */
  function PublishOne(t: Tables, integration: Id, eventType: string, added: bool): Tables {
    Tables(t.events + [PublishedRow(integration, eventType, added)],
           t.jobs + (if added then [Job(|t.events|, Queued(0))] else []))
  }

  /** `added[k]` tells whether the queue accepts the job of the k-th receiver. */
  function Publish(t: Tables, receivers: seq<Integration>, eventType: string, added: seq<bool>): Tables
    requires |added| == |receivers|
    decreases |receivers|
  {
    if receivers == [] then t
    else
      var last := |receivers| - 1;
      PublishOne(Publish(t, receivers[..last], eventType, added[..last]), receivers[last].id, eventType, added[last])
  }

  // ---- Processing one job ---------------------------------------------------------------------

  function Without(jobs: seq<Job>, j: nat): seq<Job>
    requires j < |jobs|
  {
    jobs[..j] + jobs[j + 1..]
  }

  /** The first await of `process`: the event row is read. */
  function Load(t: Tables, j: nat): Tables
    requires j < |t.jobs|
  {
    var e := t.jobs[j].event;
    if e < |t.events| then t.(jobs := t.jobs[j := Job(e, Loaded(t.events[e].attempts))])
    else t.(jobs := Without(t.jobs, j))
  }

  function MarkFailed(t: Tables, j: nat, attempts: nat): Tables
    requires j < |t.jobs| && t.jobs[j].event < |t.events|
  {
    var e := t.jobs[j].event;
    Tables(t.events[e := t.events[e].(status := Failed, attempts := attempts)], Without(t.jobs, j))
  }

  /** Reject an unusable integration or payload, or count the attempt and send the request. */
  function Begin(t: Tables, j: nat, usable: bool): Tables
    requires j < |t.jobs| && t.jobs[j].event < |t.events| && t.jobs[j].stage.Loaded?
  {
    var e, seen := t.jobs[j].event, t.jobs[j].stage.attempts;
    if !usable then MarkFailed(t, j, seen)
    else
      Tables(
        t.events[e := t.events[e].(status := Processing, attempts := seen + 1, sends := t.events[e].sends + 1)],
        t.jobs[j := Job(e, Sending(seen + 1))])
  }

  function HandleDeliveryFailure(t: Tables, j: nat, attempts: nat): Tables
    requires j < |t.jobs| && t.jobs[j].event < |t.events| && attempts > 0
  {
    var e := t.jobs[j].event;
    if attempts - 1 < |RETRY_DELAYS_MS| then
      var delay := RETRY_DELAYS_MS[attempts - 1];
      Tables(
        t.events[e := t.events[e].(status := Retrying, delayed := t.events[e].delayed + delay)],
        Without(t.jobs, j) + [Job(e, Queued(delay))])
    else MarkFailed(t, j, attempts)
  }

  /** The HTTP answer: `ok` is a response with a success status. */
  function Finish(t: Tables, j: nat, ok: bool): Tables
    requires j < |t.jobs| && t.jobs[j].event < |t.events| && t.jobs[j].stage.Sending? && t.jobs[j].stage.attempt > 0
  {
    var e := t.jobs[j].event;
    if ok then Tables(t.events[e := t.events[e].(status := Succeeded)], Without(t.jobs, j))
    else HandleDeliveryFailure(t, j, t.jobs[j].stage.attempt)
  }

  datatype Action =
    | Fanout(receivers: seq<Integration>, eventType: string, added: seq<bool>)
    | Pick(job: nat)
    | Attempt(job: nat, usable: bool)
    | Answer(job: nat, ok: bool)

  predicate Enabled(t: Tables, a: Action) {
    match a
    case Fanout(receivers, _, added) => |added| == |receivers|
    case Pick(j) => j < |t.jobs| && t.jobs[j].stage.Queued?
    case Attempt(j, _) => j < |t.jobs| && t.jobs[j].stage.Loaded? && t.jobs[j].event < |t.events|
    case Answer(j, _) =>
      j < |t.jobs| && t.jobs[j].stage.Sending? && t.jobs[j].stage.attempt > 0 && t.jobs[j].event < |t.events|
  }

  function Apply(t: Tables, a: Action): Tables
    requires Enabled(t, a)
  {
    match a
    case Fanout(receivers, eventType, added) => Publish(t, receivers, eventType, added)
    case Pick(j) => Load(t, j)
    case Attempt(j, usable) => Begin(t, j, usable)
    case Answer(j, ok) => Finish(t, j, ok)
  }

  // ---- The queue invariant ----------------------------------------------------------------------

  predicate Live(row: Row) {
    row.status.Pending? || row.status.Processing? || row.status.Retrying?
  }

  predicate Finished(row: Row) {
    row.status.Succeeded? || row.status.Failed?
  }

  function Total(delays: seq<nat>): nat {
    if delays == [] then 0 else Total(delays[..|delays| - 1]) + delays[|delays| - 1]
  }

  /** How many retries have been scheduled for a row. */
  function Retries(row: Row): int {
    match row.status
    case Pending => 0
    case Processing => row.attempts - 1
    case Retrying => row.attempts
    case Succeeded => row.attempts - 1
    case Failed => if row.attempts == MAX_ATTEMPTS then |RETRY_DELAYS_MS| else row.attempts
  }

  ghost predicate RowInv(row: Row) {
    && row.sends == row.attempts <= MAX_ATTEMPTS
    && (row.status.Pending? ==> row.attempts == 0)
    && 0 <= Retries(row) <= |RETRY_DELAYS_MS|
    && row.delayed == Total(RETRY_DELAYS_MS[..Retries(row)])
  }

  ghost predicate JobInv(job: Job, row: Row) {
    match job.stage
    case Queued(delay) =>
      || (row.status.Pending? && delay == 0)
      || (row.status.Retrying? && 1 <= row.attempts <= |RETRY_DELAYS_MS| && delay == RETRY_DELAYS_MS[row.attempts - 1])
    case Loaded(attempts) =>
      (row.status.Pending? || row.status.Retrying?) && attempts == row.attempts <= |RETRY_DELAYS_MS|
    case Sending(attempt) => row.status.Processing? && attempt == row.attempts >= 1
  }

  ghost predicate Inv(t: Tables) {
    && (forall i :: 0 <= i < |t.events| ==> RowInv(t.events[i]))
    && (forall j :: 0 <= j < |t.jobs| ==> t.jobs[j].event < |t.events|)
    && (forall j :: 0 <= j < |t.jobs| ==> JobInv(t.jobs[j], t.events[t.jobs[j].event]))
    && (forall i, j :: 0 <= i < j < |t.jobs| ==> t.jobs[i].event != t.jobs[j].event)
    && (forall e :: 0 <= e < |t.events| && Live(t.events[e]) ==> HasJob(t.jobs, e))
  }

  ghost predicate HasJob(jobs: seq<Job>, e: nat) {
    exists j :: 0 <= j < |jobs| && jobs[j].event == e
  }

  lemma PublishOneKeepsInv(t: Tables, integration: Id, eventType: string, added: bool)
    requires Inv(t)
    ensures Inv(PublishOne(t, integration, eventType, added))
  {
    var u := PublishOne(t, integration, eventType, added);
    assert RETRY_DELAYS_MS[..0] == [];
    forall e | 0 <= e < |u.events| && Live(u.events[e])
      ensures HasJob(u.jobs, e)
    {
      if e < |t.events| {
        var j :| 0 <= j < |t.jobs| && t.jobs[j].event == e;
        assert u.jobs[j].event == e;
      } else {
        assert u.jobs[|t.jobs|].event == e;
      }
    }
  }

  lemma {:induction false} PublishKeepsInv(t: Tables, receivers: seq<Integration>, eventType: string, added: seq<bool>)
    requires Inv(t) && |added| == |receivers|
    ensures Inv(Publish(t, receivers, eventType, added))
    decreases |receivers|
  {
    if receivers != [] {
      var last := |receivers| - 1;
      PublishKeepsInv(t, receivers[..last], eventType, added[..last]);
      var before := Publish(t, receivers[..last], eventType, added[..last]);
      PublishOneKeepsInv(before, receivers[last].id, eventType, added[last]);
    }
  }

  /** A job changes its stage and its event's row, which stays live. */
  lemma AdvanceKeepsInv(t: Tables, j: nat, row: Row, stage: Stage)
    requires Inv(t) && j < |t.jobs|
    requires RowInv(row) && Live(row) && JobInv(Job(t.jobs[j].event, stage), row)
    ensures Inv(Tables(t.events[t.jobs[j].event := row], t.jobs[j := Job(t.jobs[j].event, stage)]))
  {
    hide RowInv, JobInv;
    var u := Tables(t.events[t.jobs[j].event := row], t.jobs[j := Job(t.jobs[j].event, stage)]);
    forall e | 0 <= e < |u.events| && Live(u.events[e])
      ensures HasJob(u.jobs, e)
    {
      if e == t.jobs[j].event {
        assert u.jobs[j].event == e;
      } else {
        var k :| 0 <= k < |t.jobs| && t.jobs[k].event == e;
        assert u.jobs[k].event == e;
      }
    }
  }

  /** A job is over and its event's row is finished. */
  lemma RetireKeepsInv(t: Tables, j: nat, row: Row)
    requires Inv(t) && j < |t.jobs|
    requires RowInv(row) && Finished(row)
    ensures Inv(Tables(t.events[t.jobs[j].event := row], Without(t.jobs, j)))
  {
    hide RowInv, JobInv;
    var u := Tables(t.events[t.jobs[j].event := row], Without(t.jobs, j));
    forall e | 0 <= e < |u.events| && Live(u.events[e])
      ensures HasJob(u.jobs, e)
    {
      var k :| 0 <= k < |t.jobs| && t.jobs[k].event == e;
      assert u.jobs[if k < j then k else k - 1].event == e;
    }
  }

  /** A job is over and a new one is queued for the same, still live, event. */
  lemma RequeueKeepsInv(t: Tables, j: nat, row: Row, stage: Stage)
    requires Inv(t) && j < |t.jobs|
    requires RowInv(row) && Live(row) && JobInv(Job(t.jobs[j].event, stage), row)
    ensures Inv(Tables(t.events[t.jobs[j].event := row], Without(t.jobs, j) + [Job(t.jobs[j].event, stage)]))
  {
    hide RowInv, JobInv;
    var u := Tables(t.events[t.jobs[j].event := row], Without(t.jobs, j) + [Job(t.jobs[j].event, stage)]);
    forall e | 0 <= e < |u.events| && Live(u.events[e])
      ensures HasJob(u.jobs, e)
    {
      if e == t.jobs[j].event {
        assert u.jobs[|t.jobs| - 1].event == e;
      } else {
        var k :| 0 <= k < |t.jobs| && t.jobs[k].event == e;
        assert u.jobs[if k < j then k else k - 1].event == e;
      }
    }
  }

  lemma LoadKeepsInv(t: Tables, j: nat)
    requires Inv(t) && Enabled(t, Pick(j))
    ensures Inv(Load(t, j))
  {
    var e := t.jobs[j].event;
    AdvanceKeepsInv(t, j, t.events[e], Loaded(t.events[e].attempts));
    assert t.events[e := t.events[e]] == t.events;
  }

  lemma BeginKeepsInv(t: Tables, j: nat, usable: bool)
    requires Inv(t) && Enabled(t, Attempt(j, usable))
    ensures Inv(Begin(t, j, usable))
  {
    var e, seen := t.jobs[j].event, t.jobs[j].stage.attempts;
    var u := Begin(t, j, usable);
    assert Retries(u.events[e]) == Retries(t.events[e]);
    if usable {
      AdvanceKeepsInv(t, j, u.events[e], Sending(seen + 1));
    } else {
      RetireKeepsInv(t, j, u.events[e]);
    }
  }

  lemma FinishKeepsInv(t: Tables, j: nat, ok: bool)
    requires Inv(t) && Enabled(t, Answer(j, ok))
    ensures Inv(Finish(t, j, ok))
  {
    var e, n := t.jobs[j].event, t.jobs[j].stage.attempt;
    var u := Finish(t, j, ok);
    if !ok && n - 1 < |RETRY_DELAYS_MS| {
      assert RETRY_DELAYS_MS[..n][..n - 1] == RETRY_DELAYS_MS[..n - 1];
      RequeueKeepsInv(t, j, u.events[e], Queued(RETRY_DELAYS_MS[n - 1]));
    } else {
      RetireKeepsInv(t, j, u.events[e]);
    }
  }

  lemma ApplyKeepsInv(t: Tables, a: Action)
    requires Inv(t) && Enabled(t, a)
    ensures Inv(Apply(t, a))
  {
    match a
    case Fanout(receivers, eventType, added) => PublishKeepsInv(t, receivers, eventType, added);
    case Pick(j) => LoadKeepsInv(t, j);
    case Attempt(j, usable) => BeginKeepsInv(t, j, usable);
    case Answer(j, ok) => FinishKeepsInv(t, j, ok);
  }

  // ---- Runs -------------------------------------------------------------------------------------

  ghost predicate IsRun(t: Tables, actions: seq<Action>)
    decreases |actions|
  {
    actions != [] ==> Enabled(t, actions[0]) && IsRun(Apply(t, actions[0]), actions[1..])
  }

  ghost function After(t: Tables, actions: seq<Action>): Tables
    requires IsRun(t, actions)
    decreases |actions|
  {
    if actions == [] then t else After(Apply(t, actions[0]), actions[1..])
  }

  const EMPTY: Tables := Tables([], [])

  lemma {:induction false} RunKeepsInv(t: Tables, actions: seq<Action>)
    requires Inv(t) && IsRun(t, actions)
    ensures Inv(After(t, actions))
    decreases |actions|
  {
    if actions != [] {
      ApplyKeepsInv(t, actions[0]);
      RunKeepsInv(Apply(t, actions[0]), actions[1..]);
    }
  }

  /** The number of queued or running jobs of an event. */
  function JobsFor(jobs: seq<Job>, e: nat): nat {
    if jobs == [] then 0 else JobsFor(jobs[1..], e) + (if jobs[0].event == e then 1 else 0)
  }

  lemma {:induction false} DistinctJobs(jobs: seq<Job>, e: nat)
    requires forall i, j :: 0 <= i < j < |jobs| ==> jobs[i].event != jobs[j].event
    ensures JobsFor(jobs, e) == if HasJob(jobs, e) then 1 else 0
  {
    if jobs != [] {
      DistinctJobs(jobs[1..], e);
      if HasJob(jobs[1..], e) {
        var j :| 0 <= j < |jobs[1..]| && jobs[1..][j].event == e;
        assert jobs[j + 1].event == e;
      }
      assert forall j :: 0 < j < |jobs| ==> jobs[j] == jobs[1..][j - 1];
    }
  }

  /**
   In every reachable state an unfinished event has exactly one job and a finished one has none; an
   event is sent at most six times, with at most 9,750,000 ms of scheduled delay, and one that failed
   on its last attempt was sent six times with exactly that delay.
   */
  lemma QueueInvariant(actions: seq<Action>, e: nat)
    requires IsRun(EMPTY, actions) && e < |After(EMPTY, actions).events|
    ensures
      var t := After(EMPTY, actions);
      && JobsFor(t.jobs, e) == (if Finished(t.events[e]) then 0 else 1)
      && t.events[e].sends == t.events[e].attempts <= 6
      && t.events[e].delayed <= 9_750_000
      && (t.events[e].status.Failed? && t.events[e].sends == 6 ==> t.events[e].delayed == 9_750_000)
  {
    RunKeepsInv(EMPTY, actions);
    var t := After(EMPTY, actions);
    DistinctJobs(t.jobs, e);
    if HasJob(t.jobs, e) {
      var j :| 0 <= j < |t.jobs| && t.jobs[j].event == e;
      assert JobInv(t.jobs[j], t.events[e]);
    }
    DelayTotals(Retries(t.events[e]));
  }

  lemma DelayTotals(k: nat)
    requires k <= |RETRY_DELAYS_MS|
    ensures Total(RETRY_DELAYS_MS[..k]) <= 9_750_000
    ensures k == 5 ==> Total(RETRY_DELAYS_MS[..k]) == 9_750_000
  {
    var d := RETRY_DELAYS_MS;
    assert d[..0] == [];
    assert d[..1][..0] == d[..0] && d[..2][..1] == d[..1] && d[..3][..2] == d[..2];
    assert d[..4][..3] == d[..3] && d[..5][..4] == d[..4];
    assert Total(d[..1]) == 30_000 && Total(d[..2]) == 150_000 && Total(d[..3]) == 750_000;
    assert Total(d[..4]) == 2_550_000 && Total(d[..5]) == 9_750_000;
  }

  // ---- Outcomes ---------------------------------------------------------------------------------

  ghost predicate SameEventsBut(t: Tables, u: Tables, e: nat) {
    |u.events| == |t.events| && forall f :: 0 <= f < |t.events| && f != e ==> u.events[f] == t.events[f]
  }

  /** Reading the row changes no event, and the job then knows how often the event was tried. */
  lemma PickOutcome(t: Tables, j: nat)
    requires Inv(t) && Enabled(t, Pick(j))
    ensures
      var u := Apply(t, Pick(j));
      u.events == t.events && |u.jobs| == |t.jobs|
      && u.jobs[j] == Job(t.jobs[j].event, Loaded(t.events[t.jobs[j].event].attempts))
  {
  }

  /** An unusable event fails without being sent; any other one is counted and sent. */
  lemma AttemptOutcome(t: Tables, j: nat, usable: bool)
    requires Inv(t) && Enabled(t, Attempt(j, usable))
    ensures
      var u, e := Apply(t, Attempt(j, usable)), t.jobs[j].event;
      var row := t.events[e];
      && SameEventsBut(t, u, e)
      && u.events[e] ==
         (if usable then row.(status := Processing, attempts := row.attempts + 1, sends := row.sends + 1)
          else row.(status := Failed))
      && JobsFor(u.jobs, e) == (if usable then 1 else 0)
      && (usable ==> Job(e, Sending(row.attempts + 1)) in u.jobs)
  {
    var u, e := Apply(t, Attempt(j, usable)), t.jobs[j].event;
    BeginKeepsInv(t, j, usable);
    JobsOfEvent(u, e);
    if usable {
      assert u.jobs[j] == Job(e, Sending(t.events[e].attempts + 1));
    }
  }

  /**
   An answer with a success status ends the delivery; any other one schedules the next attempt after the
   delay of the table, or after the sixth attempt ends the delivery as failed.
   */
  lemma AnswerOutcome(t: Tables, j: nat, ok: bool)
    requires Inv(t) && Enabled(t, Answer(j, ok))
    ensures
      var u, e := Apply(t, Answer(j, ok)), t.jobs[j].event;
      var row := t.events[e];
      && SameEventsBut(t, u, e) && 1 <= row.attempts <= 6
      && (if ok then u.events[e] == row.(status := Succeeded) && JobsFor(u.jobs, e) == 0
          else if row.attempts <= 5 then
            var delay := RETRY_DELAYS_MS[row.attempts - 1];
            && u.events[e] == row.(status := Retrying, delayed := row.delayed + delay)
            && JobsFor(u.jobs, e) == 1 && Job(e, Queued(delay)) in u.jobs
          else u.events[e] == row.(status := Failed) && JobsFor(u.jobs, e) == 0)
  {
    hide Inv, Apply, JobsFor;
    var u, e := Apply(t, Answer(j, ok)), t.jobs[j].event;
    AnsweredRow(t, j, ok);
    ApplyKeepsInv(t, Answer(j, ok));
    JobsOfEvent(u, e);
  }

  lemma AnsweredRow(t: Tables, j: nat, ok: bool)
    requires Inv(t) && Enabled(t, Answer(j, ok))
    ensures
      var u, e := Apply(t, Answer(j, ok)), t.jobs[j].event;
      var row := t.events[e];
      && SameEventsBut(t, u, e) && 1 <= row.attempts <= 6
      && (if ok then u.events[e] == row.(status := Succeeded)
          else if row.attempts <= 5 then
            var delay := RETRY_DELAYS_MS[row.attempts - 1];
            && u.events[e] == row.(status := Retrying, delayed := row.delayed + delay)
            && Job(e, Queued(delay)) in u.jobs
          else u.events[e] == row.(status := Failed))
  {
    hide HasJob, Total;
    var u, e := Apply(t, Answer(j, ok)), t.jobs[j].event;
    assert JobInv(t.jobs[j], t.events[e]) && RowInv(t.events[e]);
    if !ok && t.events[e].attempts <= 5 {
      assert u.jobs[|u.jobs| - 1] == Job(e, Queued(RETRY_DELAYS_MS[t.events[e].attempts - 1]));
    }
  }

  /** One job for an unfinished event, none for a finished one. */
  lemma JobsOfEvent(t: Tables, e: nat)
    requires Inv(t) && e < |t.events|
    ensures JobsFor(t.jobs, e) == if Finished(t.events[e]) then 0 else 1
  {
    DistinctJobs(t.jobs, e);
    if HasJob(t.jobs, e) {
      var j :| 0 <= j < |t.jobs| && t.jobs[j].event == e;
      assert JobInv(t.jobs[j], t.events[e]);
    }
  }

  /** The last answer that the receiver of an event gave in a run. */
  ghost function LastAnswer(t: Tables, actions: seq<Action>, e: nat): Option<bool>
    requires IsRun(t, actions)
    decreases |actions|
  {
    if actions == [] then None
    else
      var a, later := actions[0], LastAnswer(Apply(t, actions[0]), actions[1..], e);
      if later.Some? then later
      else if a.Answer? && t.jobs[a.job].event == e then Some(a.ok)
      else None
  }

  ghost predicate HasSucceeded(t: Tables, e: nat) {
    e < |t.events| && t.events[e].status.Succeeded?
  }

  lemma {:induction false} StepSucceeds(t: Tables, a: Action, e: nat)
    requires Inv(t) && Enabled(t, a)
    ensures
      HasSucceeded(Apply(t, a), e)
      <==> if a.Answer? && t.jobs[a.job].event == e then a.ok else HasSucceeded(t, e)
  {
    hide RowInv, JobInv;
    match a
    case Fanout(receivers, eventType, added) =>
      var u := Apply(t, a);
      FanoutRows(t, receivers, eventType, added);
      if e < |t.events| {
        assert u.events[..|t.events|][e] == t.events[e];
      } else if e < |u.events| {
        var k: nat := e - |t.events|;
        assert u.events[|t.events| + k] ==
            Row(receivers[k].id, eventType, if added[k] then Pending else Failed, 0, 0, 0);
      }
    case Pick(j) => PickOutcome(t, j);
    case Attempt(j, usable) =>
      AttemptOutcome(t, j, usable);
      JobIsUnfinished(t, j);
    case Answer(j, ok) => AnswerOutcome(t, j, ok);
  }

  lemma JobIsUnfinished(t: Tables, j: nat)
    requires Inv(t) && j < |t.jobs|
    ensures t.jobs[j].event < |t.events| && !Finished(t.events[t.jobs[j].event])
  {
    assert JobInv(t.jobs[j], t.events[t.jobs[j].event]);
  }

  lemma {:induction false} SucceededAfter(t: Tables, actions: seq<Action>, e: nat)
    requires Inv(t) && IsRun(t, actions)
    ensures
      HasSucceeded(After(t, actions), e)
      <==> var last := LastAnswer(t, actions, e); if last.Some? then last.value else HasSucceeded(t, e)
    decreases |actions|
  {
    hide Inv, Apply, Enabled, HasSucceeded;
    if actions != [] {
      ApplyKeepsInv(t, actions[0]);
      StepSucceeds(t, actions[0], e);
      SucceededAfter(Apply(t, actions[0]), actions[1..], e);
    }
  }

  /** In every run an event has succeeded exactly if its receiver's last answer was a success. */
  lemma SucceededIff(actions: seq<Action>, e: nat)
    requires IsRun(EMPTY, actions)
    ensures HasSucceeded(After(EMPTY, actions), e) <==> LastAnswer(EMPTY, actions, e) == Some(true)
  {
    SucceededAfter(EMPTY, actions, e);
  }

  /** A finished event is never touched, and so never sent, again. */
  lemma {:induction false} FinishedIsFinal(t: Tables, actions: seq<Action>, e: nat)
    requires Inv(t) && IsRun(t, actions)
    requires e < |t.events| && Finished(t.events[e])
    ensures e < |After(t, actions).events| && After(t, actions).events[e] == t.events[e]
    decreases |actions|
  {
    if actions != [] {
      ApplyKeepsInv(t, actions[0]);
      if actions[0].Fanout? {
        FanoutRows(t, actions[0].receivers, actions[0].eventType, actions[0].added);
      } else {
        assert JobInv(t.jobs[actions[0].job], t.events[t.jobs[actions[0].job].event]);
      }
      FinishedIsFinal(Apply(t, actions[0]), actions[1..], e);
    }
  }

  /**
   One domain event makes one row per receiver, in order; the rows whose job the queue accepted are
   pending with one job each, in order, the others are failed with none; nothing else changes.
   */
  lemma {:induction false} FanoutRows(t: Tables, receivers: seq<Integration>, eventType: string, added: seq<bool>)
    requires |added| == |receivers|
    ensures
      var u := Publish(t, receivers, eventType, added);
      && |u.events| == |t.events| + |receivers|
      && u.events[..|t.events|] == t.events
      && (forall k :: 0 <= k < |receivers| ==>
            u.events[|t.events| + k]
            == Row(receivers[k].id, eventType, if added[k] then Pending else Failed, 0, 0, 0))
    decreases |receivers|
  {
    if receivers != [] {
      var last := |receivers| - 1;
      FanoutRows(t, receivers[..last], eventType, added[..last]);
    }
  }

  lemma {:induction false} FanoutJobs(t: Tables, receivers: seq<Integration>, eventType: string, added: seq<bool>)
    requires |added| == |receivers| && Inv(t)
    ensures
      var u := Publish(t, receivers, eventType, added);
      && |t.jobs| <= |u.jobs| && u.jobs[..|t.jobs|] == t.jobs
      && (forall k :: 0 <= k < |receivers| ==>
            JobsFor(u.jobs, |t.events| + k) == if added[k] then 1 else 0)
    decreases |receivers|
  {
    hide Inv, JobsFor;
    var u := Publish(t, receivers, eventType, added);
    PublishKeepsInv(t, receivers, eventType, added);
    FanoutRows(t, receivers, eventType, added);
    forall k | 0 <= k < |receivers|
      ensures JobsFor(u.jobs, |t.events| + k) == if added[k] then 1 else 0
    {
      JobsOfEvent(u, |t.events| + k);
      assert u.events[|t.events| + k].status == if added[k] then Pending else Failed;
    }
    if receivers != [] {
      var last := |receivers| - 1;
      FanoutJobs(t, receivers[..last], eventType, added[..last]);
    }
  }

  // ---- Termination ------------------------------------------------------------------------------

  /** Steps a job can still cause: three for each attempt that is left. */
  function JobCost(job: Job, events: seq<Row>): int
    requires job.event < |events|
  {
    match job.stage
    case Queued(_) => 3 * (MAX_ATTEMPTS - events[job.event].attempts)
    case Loaded(attempts) => 3 * (MAX_ATTEMPTS - attempts) - 1
    case Sending(attempt) => 3 * (MAX_ATTEMPTS - attempt) + 1
  }

  function Cost(jobs: seq<Job>, events: seq<Row>): int
    requires forall j :: 0 <= j < |jobs| ==> jobs[j].event < |events|
  {
    if jobs == [] then 0
    else Cost(jobs[..|jobs| - 1], events) + JobCost(jobs[|jobs| - 1], events)
  }

  lemma {:induction false} CostFrame(jobs: seq<Job>, before: seq<Row>, after: seq<Row>)
    requires forall j :: 0 <= j < |jobs| ==> jobs[j].event < |before| && jobs[j].event < |after|
    requires forall j :: 0 <= j < |jobs| ==> before[jobs[j].event].attempts == after[jobs[j].event].attempts
    ensures Cost(jobs, before) == Cost(jobs, after)
  {
    if jobs != [] {
      CostFrame(jobs[..|jobs| - 1], before, after);
    }
  }

  lemma {:induction false} CostSplit(a: seq<Job>, b: seq<Job>, events: seq<Row>)
    requires forall j :: 0 <= j < |a| ==> a[j].event < |events|
    requires forall j :: 0 <= j < |b| ==> b[j].event < |events|
    ensures Cost(a + b, events) == Cost(a, events) + Cost(b, events)
  {
    if b == [] {
      assert a + b == a;
    } else {
      CostSplit(a, b[..|b| - 1], events);
      assert (a + b)[..|a + b| - 1] == a + b[..|b| - 1];
    }
  }

  lemma CostWithout(jobs: seq<Job>, j: nat, events: seq<Row>)
    requires forall k :: 0 <= k < |jobs| ==> jobs[k].event < |events|
    requires j < |jobs|
    ensures Cost(jobs, events) == Cost(Without(jobs, j), events) + JobCost(jobs[j], events)
  {
    hide JobCost, Cost;
    CostSplit(jobs[..j], jobs[j..], events);
    CostSplit([jobs[j]], jobs[j + 1..], events);
    CostSplit(jobs[..j], jobs[j + 1..], events);
    assert jobs == jobs[..j] + jobs[j..];
    assert jobs[j..] == [jobs[j]] + jobs[j + 1..];
    CostOfOne(jobs[j], events);
  }

  lemma CostOfOne(job: Job, events: seq<Row>)
    requires job.event < |events|
    ensures Cost([job], events) == JobCost(job, events)
  {
    assert [job][..0] == [];
  }

  lemma CostNonNegative(t: Tables, k: nat)
    requires Inv(t) && k <= |t.jobs|
    ensures Cost(t.jobs[..k], t.events) >= 0
  {
    if k > 0 {
      CostNonNegative(t, k - 1);
      assert t.jobs[..k][..k - 1] == t.jobs[..k - 1];
      assert JobInv(t.jobs[k - 1], t.events[t.jobs[k - 1].event]);
    }
  }

  /** Without job `j`, whatever happens to the row of its event. */
  lemma RetireCost(t: Tables, j: nat, row: Row)
    requires Inv(t) && j < |t.jobs|
    ensures Cost(Without(t.jobs, j), t.events[t.jobs[j].event := row]) ==
            Cost(t.jobs, t.events) - JobCost(t.jobs[j], t.events)
  {
    hide JobCost;
    CostWithout(t.jobs, j, t.events);
    CostFrame(Without(t.jobs, j), t.events, t.events[t.jobs[j].event := row]);
  }

  lemma AdvanceCost(t: Tables, j: nat, row: Row, stage: Stage)
    requires Inv(t) && j < |t.jobs|
    ensures
      var events := t.events[t.jobs[j].event := row];
      var job := Job(t.jobs[j].event, stage);
      Cost(t.jobs[j := job], events) == Cost(t.jobs, t.events) - JobCost(t.jobs[j], t.events) + JobCost(job, events)
  {
    hide JobCost;
    var jobs := t.jobs[j := Job(t.jobs[j].event, stage)];
    RetireCost(t, j, row);
    CostWithout(jobs, j, t.events[t.jobs[j].event := row]);
    assert Without(jobs, j) == Without(t.jobs, j);
  }

  lemma RequeueCost(t: Tables, j: nat, row: Row, stage: Stage)
    requires Inv(t) && j < |t.jobs|
    ensures
      var events := t.events[t.jobs[j].event := row];
      var job := Job(t.jobs[j].event, stage);
      Cost(Without(t.jobs, j) + [job], events) ==
        Cost(t.jobs, t.events) - JobCost(t.jobs[j], t.events) + JobCost(job, events)
  {
    var jobs := Without(t.jobs, j) + [Job(t.jobs[j].event, stage)];
    RetireCost(t, j, row);
    assert jobs[..|jobs| - 1] == Without(t.jobs, j);
  }

  lemma AttemptCost(t: Tables, j: nat, usable: bool)
    requires Inv(t) && Enabled(t, Attempt(j, usable))
    ensures Inv(Begin(t, j, usable))
    ensures Cost(Begin(t, j, usable).jobs, Begin(t, j, usable).events) < Cost(t.jobs, t.events)
  {
    hide Cost;
    var e, seen := t.jobs[j].event, t.jobs[j].stage.attempts;
    var row := Begin(t, j, usable).events[e];
    BeginKeepsInv(t, j, usable);
    assert JobInv(t.jobs[j], t.events[e]);
    if usable {
      AdvanceCost(t, j, row, Sending(seen + 1));
    } else {
      RetireCost(t, j, row);
    }
  }

  lemma AnswerCost(t: Tables, j: nat, ok: bool)
    requires Inv(t) && Enabled(t, Answer(j, ok))
    ensures Inv(Finish(t, j, ok)) && Cost(Finish(t, j, ok).jobs, Finish(t, j, ok).events) < Cost(t.jobs, t.events)
  {
    hide Cost;
    var e, n := t.jobs[j].event, t.jobs[j].stage.attempt;
    var row := Finish(t, j, ok).events[e];
    FinishKeepsInv(t, j, ok);
    assert JobInv(t.jobs[j], t.events[e]);
    if !ok && n - 1 < |RETRY_DELAYS_MS| {
      RequeueCost(t, j, row, Queued(RETRY_DELAYS_MS[n - 1]));
    } else {
      RetireCost(t, j, row);
    }
  }

  /** Every step on a job costs at least one unit. */
  lemma StepLowersCost(t: Tables, a: Action)
    requires Inv(t) && Enabled(t, a) && !a.Fanout?
    ensures Inv(Apply(t, a)) && Cost(Apply(t, a).jobs, Apply(t, a).events) < Cost(t.jobs, t.events)
  {
    match a
    case Pick(j) =>
      var e := t.jobs[j].event;
      LoadKeepsInv(t, j);
      AdvanceCost(t, j, t.events[e], Loaded(t.events[e].attempts));
      assert t.events[e := t.events[e]] == t.events;
    case Attempt(j, usable) => AttemptCost(t, j, usable);
    case Answer(j, ok) => AnswerCost(t, j, ok);
  }

  lemma PublishOneCost(t: Tables, integration: Id, eventType: string, added: bool)
    requires Inv(t)
    ensures
      var u := PublishOne(t, integration, eventType, added);
      Inv(u) && Cost(u.jobs, u.events) <= Cost(t.jobs, t.events) + 18
  {
    PublishOneKeepsInv(t, integration, eventType, added);
    var u := PublishOne(t, integration, eventType, added);
    CostFrame(t.jobs, t.events, u.events);
    if added {
      assert u.jobs[..|u.jobs| - 1] == t.jobs;
    } else {
      assert u.jobs == t.jobs;
    }
  }

  lemma {:induction false} FanoutCost(t: Tables, receivers: seq<Integration>, eventType: string, added: seq<bool>)
    requires Inv(t) && |added| == |receivers|
    ensures
      var u := Publish(t, receivers, eventType, added);
      Inv(u) && Cost(u.jobs, u.events) <= Cost(t.jobs, t.events) + 18 * |receivers|
    decreases |receivers|
  {
    if receivers != [] {
      var last := |receivers| - 1;
      FanoutCost(t, receivers[..last], eventType, added[..last]);
      var before := Publish(t, receivers[..last], eventType, added[..last]);
      PublishOneCost(before, receivers[last].id, eventType, added[last]);
    }
  }

  function JobSteps(actions: seq<Action>): nat {
    if actions == [] then 0 else JobSteps(actions[1..]) + (if actions[0].Fanout? then 0 else 1)
  }

  lemma {:induction false} StepsArePaid(t: Tables, actions: seq<Action>)
    requires Inv(t) && IsRun(t, actions)
    ensures |After(t, actions).events| >= |t.events|
    ensures JobSteps(actions) <= Cost(t.jobs, t.events) + 18 * (|After(t, actions).events| - |t.events|)
    decreases |actions|
  {
    hide Inv, Cost, Publish;
    if actions == [] {
      CostNonNegative(t, |t.jobs|);
      assert t.jobs[..|t.jobs|] == t.jobs;
    } else {
      ApplyKeepsInv(t, actions[0]);
      StepsArePaid(Apply(t, actions[0]), actions[1..]);
      if actions[0].Fanout? {
        FanoutCost(t, actions[0].receivers, actions[0].eventType, actions[0].added);
        FanoutRows(t, actions[0].receivers, actions[0].eventType, actions[0].added);
      } else {
        StepLowersCost(t, actions[0]);
      }
    }
  }

  /** Delivery ends: whatever the receivers answer, each event causes at most 18 processing steps. */
  lemma DeliveryEnds(actions: seq<Action>)
    requires IsRun(EMPTY, actions)
    ensures JobSteps(actions) <= 18 * |After(EMPTY, actions).events|
  {
    StepsArePaid(EMPTY, actions);
  }

  /** While an event is unfinished, some step on its job is possible. */
  lemma UnfinishedCanProceed(actions: seq<Action>, e: nat)
    requires IsRun(EMPTY, actions)
    requires e < |After(EMPTY, actions).events| && !Finished(After(EMPTY, actions).events[e])
    ensures
      var t := After(EMPTY, actions);
      exists a: Action :: !a.Fanout? && Enabled(t, a) && t.jobs[a.job].event == e
  {
    RunKeepsInv(EMPTY, actions);
    var t := After(EMPTY, actions);
    assert HasJob(t.jobs, e);
    var j: nat :| j < |t.jobs| && t.jobs[j].event == e;
    assert JobInv(t.jobs[j], t.events[e]);
    match t.jobs[j].stage
    case Queued(_) => assert Enabled(t, Pick(j)) && Pick(j).job == j;
    case Loaded(_) => assert Enabled(t, Attempt(j, true)) && Attempt(j, true).job == j;
    case Sending(_) => assert Enabled(t, Answer(j, true)) && Answer(j, true).job == j;
  }

  // ---- The services that write the tables ---------------------------------------------------------

  class WebhookTables {
    var events: seq<Row>
    var jobs: seq<Job>

    ghost function State(): Tables
      reads this
    {
      Tables(events, jobs)
    }

    constructor ()
      ensures State() == EMPTY
    {
      events, jobs := [], [];
    }

    /** `queueAccepts[k]` is the outcome of the k-th `webhookQueue.add`. */
    method EnqueueOutboundWebhooks(integrations: seq<Integration>, company: Id, eventType: string,
                                   queueAccepts: seq<bool>)
      requires |queueAccepts| == |Receivers(integrations, company, eventType)|
      modifies this
      ensures State() == Publish(old(State()), Receivers(integrations, company, eventType), eventType, queueAccepts)
    {
      var receivers := Receivers(integrations, company, eventType);
      for k := 0 to |receivers|
        invariant State() == Publish(old(State()), receivers[..k], eventType, queueAccepts[..k])
      {
        assert receivers[..k + 1][..k] == receivers[..k] && queueAccepts[..k + 1][..k] == queueAccepts[..k];
        var id := |events|;
        events := events + [Row(receivers[k].id, eventType, Pending, 0, 0, 0)];
        if queueAccepts[k] {
          jobs := jobs + [Job(id, Queued(0))];
        } else {
          events := events[id := events[id].(status := Failed)];
        }
      }
      assert receivers[..|receivers|] == receivers && queueAccepts[..|receivers|] == queueAccepts;
    }

    /** First await of `process`. */
    method LoadEvent(j: nat)
      requires Enabled(State(), Pick(j))
      modifies this`jobs
      ensures State() == Apply(old(State()), Pick(j))
    {
      var e := jobs[j].event;
      if e < |events| {
        jobs := jobs[j := Job(e, Loaded(events[e].attempts))];
      } else {
        jobs := Without(jobs, j);
      }
    }

    method RecordFailure(j: nat, attempts: nat)
      requires j < |jobs| && jobs[j].event < |events|
      modifies this
      ensures State() == MarkFailed(old(State()), j, attempts)
    {
      var e := jobs[j].event;
      events := events[e := events[e].(status := Failed, attempts := attempts)];
      jobs := Without(jobs, j);
    }

    /** From the loaded row to the HTTP request. */
    method StartAttempt(j: nat, usable: bool)
      requires Enabled(State(), Attempt(j, usable))
      modifies this
      ensures State() == Apply(old(State()), Attempt(j, usable))
    {
      var e, nextAttempt := jobs[j].event, jobs[j].stage.attempts + 1;
      if !usable {
        RecordFailure(j, nextAttempt - 1);
        return;
      }
      events := events[e := events[e].(status := Processing, attempts := nextAttempt, sends := events[e].sends + 1)];
      jobs := jobs[j := Job(e, Sending(nextAttempt))];
    }

    /** From the HTTP answer to the end of `process`. */
    method HandleAnswer(j: nat, ok: bool)
      requires Enabled(State(), Answer(j, ok))
      modifies this
      ensures State() == Apply(old(State()), Answer(j, ok))
    {
      var e, attempts := jobs[j].event, jobs[j].stage.attempt;
      if ok {
        events := events[e := events[e].(status := Succeeded)];
        jobs := Without(jobs, j);
      } else if attempts - 1 < |RETRY_DELAYS_MS| {
        var delay := RETRY_DELAYS_MS[attempts - 1];
        events := events[e := events[e].(status := Retrying, delayed := events[e].delayed + delay)];
        jobs := Without(jobs, j) + [Job(e, Queued(delay))];
      } else {
        RecordFailure(j, attempts);
      }
    }
  }
}
