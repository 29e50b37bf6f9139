/**
 * The polling protocol of `pollForJobCompletion` (src/index.ts): one initial
 * wait, up to `maxAttempts` status fetches with a wait after each one that is
 * not `"done"`, then one forced final fetch whose reply is returned whatever it is.
 */
module Polling {
  import opened Wrappers
  import opened Types
  import opened Remote

  const Done := "done"
  const InitialDelayMs := 1000
  const DefaultMaxAttempts := 60
  const DefaultIntervalMs := 500

  /** A fetch that ends the loop early: it threw, or the job is done. */
  predicate EndsPolling(reply: Reply<JobStatus>) {
    reply.Err? || reply.value.status == Done
  }

  /** The loop with `remaining` attempts left, against the queue of status replies. */
  function PollLoop(statuses: seq<Reply<JobStatus>>, jobId: string, remaining: int, intervalMs: int): (run: Run<JobStatus>)
    ensures 1 <= |run.events| <= 2 * Max0(remaining) + 1
    decreases remaining
  {
    var fetched := Next(statuses);
    if remaining <= 0 || EndsPolling(fetched) then
      Run([GetJobStatus(jobId)], fetched)
    else
      var rest := PollLoop(Rest(statuses), jobId, remaining - 1, intervalMs);
      Run([GetJobStatus(jobId), Wait(intervalMs)] + rest.events, rest.result)
  }

  /** `pollForJobCompletion(jobId, maxAttempts, intervalMs)`. */
  function PollRun(statuses: seq<Reply<JobStatus>>, jobId: string, maxAttempts: int, intervalMs: int): (run: Run<JobStatus>)
    ensures 2 <= |run.events| <= 2 * Max0(maxAttempts) + 2 && run.events[0] == Wait(InitialDelayMs)
  {
    var loop := PollLoop(statuses, jobId, maxAttempts, intervalMs);
    Run([Wait(InitialDelayMs)] + loop.events, loop.result)
  }

  function Max0(n: int): nat {
    if n < 0 then 0 else n
  }

  /**
   * The index of the fetch that ends polling: the first one in the budget that
   * throws or is done, otherwise the forced fetch after the budget.
   */
  function StopIndex(statuses: seq<Reply<JobStatus>>, maxAttempts: int): (k: nat)
    ensures k <= Max0(maxAttempts)
    ensures forall j :: 0 <= j < k ==> !EndsPolling(Nth(statuses, j))
    ensures k < maxAttempts ==> EndsPolling(Nth(statuses, k))
    decreases maxAttempts
  {
    if maxAttempts <= 0 || EndsPolling(Next(statuses)) then 0
    else
      RestShifts(statuses);
      1 + StopIndex(Rest(statuses), maxAttempts - 1)
  }

  /** k rounds of a fetch followed by a wait of intervalMs. */
  function Rounds(jobId: string, intervalMs: int, k: nat): seq<Event> {
    if k == 0 then [] else [GetJobStatus(jobId), Wait(intervalMs)] + Rounds(jobId, intervalMs, k - 1)
  }

  predicate IsFetch(e: Event) { e.GetJobStatus? }

  predicate IsWait(e: Event) { e.Wait? }

  /** The number of status fetches of a trace. */
  function Fetches(events: seq<Event>): nat {
    CountWhere(events, IsFetch)
  }

  /** The number of waits of a trace. */
  function Waits(events: seq<Event>): nat {
    CountWhere(events, IsWait)
  }

  lemma {:induction false} RoundsCount(jobId: string, intervalMs: int, k: nat)
    ensures Fetches(Rounds(jobId, intervalMs, k)) == k
    ensures Waits(Rounds(jobId, intervalMs, k)) == k
    ensures forall e :: e in Rounds(jobId, intervalMs, k) ==> e == GetJobStatus(jobId) || e == Wait(intervalMs)
  {
    if k > 0 {
      var rest := Rounds(jobId, intervalMs, k - 1);
      RoundsCount(jobId, intervalMs, k - 1);
      CountWhereConcat([GetJobStatus(jobId), Wait(intervalMs)], rest, IsFetch);
      CountWhereConcat([GetJobStatus(jobId), Wait(intervalMs)], rest, IsWait);
    }
  }

  /** The loop's whole behaviour: rounds up to the stopping fetch, which is the last event and whose reply is returned. */
  lemma {:induction false} PollLoopShape(statuses: seq<Reply<JobStatus>>, jobId: string, remaining: int, intervalMs: int)
    ensures var k := StopIndex(statuses, remaining);
      PollLoop(statuses, jobId, remaining, intervalMs)
        == Run(Rounds(jobId, intervalMs, k) + [GetJobStatus(jobId)], Nth(statuses, k))
    decreases remaining
  {
    if remaining > 0 && !EndsPolling(Next(statuses)) {
      PollLoopShape(Rest(statuses), jobId, remaining - 1, intervalMs);
      var k := StopIndex(Rest(statuses), remaining - 1);
      assert Nth(Rest(statuses), k) == Nth(statuses, k + 1);
      assert [GetJobStatus(jobId), Wait(intervalMs)] + (Rounds(jobId, intervalMs, k) + [GetJobStatus(jobId)])
        == Rounds(jobId, intervalMs, k + 1) + [GetJobStatus(jobId)];
    }
  }

  /**
   * Every poll: an initial wait of 1000, then k rounds of a fetch and a wait of
   * intervalMs, then the stopping fetch, whose reply is returned. So it makes
   * k + 1 fetches, at most maxAttempts + 1, never waits after its last fetch,
   * and returns the reply to its last fetch.
   */
  lemma PollShape(statuses: seq<Reply<JobStatus>>, jobId: string, maxAttempts: int, intervalMs: int)
    ensures var k := StopIndex(statuses, maxAttempts);
      var run := PollRun(statuses, jobId, maxAttempts, intervalMs);
      && run.events == [Wait(InitialDelayMs)] + Rounds(jobId, intervalMs, k) + [GetJobStatus(jobId)]
      && run.result == Nth(statuses, k)
      && Fetches(run.events) == k + 1
      && Waits(run.events) == k + 1
      && 1 <= Fetches(run.events) <= Max0(maxAttempts) + 1
  {
    var k := StopIndex(statuses, maxAttempts);
    PollLoopShape(statuses, jobId, maxAttempts, intervalMs);
    RoundsCount(jobId, intervalMs, k);
    var rounds := Rounds(jobId, intervalMs, k);
    assert [Wait(InitialDelayMs)] + (rounds + [GetJobStatus(jobId)]) == [Wait(InitialDelayMs)] + rounds + [GetJobStatus(jobId)];
    CountWhereConcat([Wait(InitialDelayMs)], rounds + [GetJobStatus(jobId)], IsFetch);
    CountWhereConcat([Wait(InitialDelayMs)], rounds + [GetJobStatus(jobId)], IsWait);
    CountWhereConcat(rounds, [GetJobStatus(jobId)], IsFetch);
    CountWhereConcat(rounds, [GetJobStatus(jobId)], IsWait);
  }

  /** A round added at the end is a round added at the front: all rounds are alike. */
  lemma {:induction false} RoundsSnoc(jobId: string, intervalMs: int, k: nat)
    ensures Rounds(jobId, intervalMs, k + 1) == Rounds(jobId, intervalMs, k) + [GetJobStatus(jobId), Wait(intervalMs)]
  {
    if k > 0 {
      RoundsSnoc(jobId, intervalMs, k - 1);
    }
  }

  /**
   * Polling is determined by where it stops: if the first k fetches neither
   * throw nor are done, and the k-th does or the budget is spent, the run is k
   * rounds and the stopping fetch, and returns that fetch's reply.
   */
  lemma PollStopsAt(statuses: seq<Reply<JobStatus>>, jobId: string, maxAttempts: int, intervalMs: int, k: nat)
    requires k <= Max0(maxAttempts)
    requires forall j :: 0 <= j < k ==> !EndsPolling(Nth(statuses, j))
    requires k == Max0(maxAttempts) || EndsPolling(Nth(statuses, k))
    ensures StopIndex(statuses, maxAttempts) == k
    ensures var run := PollRun(statuses, jobId, maxAttempts, intervalMs);
      && run.events == [Wait(InitialDelayMs)] + Rounds(jobId, intervalMs, k) + [GetJobStatus(jobId)]
      && run.result == Nth(statuses, k)
  {
    var stop := StopIndex(statuses, maxAttempts);
    assert stop == k;
    PollShape(statuses, jobId, maxAttempts, intervalMs);
  }

  /** The first `"done"` at loop index k < maxAttempts is returned after exactly k + 1 fetches. */
  lemma PollReturnsFirstDone(statuses: seq<Reply<JobStatus>>, jobId: string, maxAttempts: int, intervalMs: int, k: nat)
    requires k < maxAttempts
    requires forall j :: 0 <= j < k ==> Nth(statuses, j).Ok? && Nth(statuses, j).value.status != Done
    requires Nth(statuses, k).Ok? && Nth(statuses, k).value.status == Done
    ensures var run := PollRun(statuses, jobId, maxAttempts, intervalMs);
      run.result == Nth(statuses, k) && Fetches(run.events) == k + 1
  {
    var stop := StopIndex(statuses, maxAttempts);
    assert EndsPolling(Nth(statuses, k));
    assert stop < maxAttempts ==> EndsPolling(Nth(statuses, stop));
    assert stop == k;
    PollShape(statuses, jobId, maxAttempts, intervalMs);
  }

  /**
   * When no fetch of the loop throws or is done, polling makes maxAttempts + 1
   * fetches (one when maxAttempts <= 0) and returns the last one's reply,
   * whatever its status: exhausting the budget throws nothing.
   */
  lemma PollExhausted(statuses: seq<Reply<JobStatus>>, jobId: string, maxAttempts: int, intervalMs: int)
    requires forall j :: 0 <= j < maxAttempts ==> Nth(statuses, j).Ok? && Nth(statuses, j).value.status != Done
    ensures var run := PollRun(statuses, jobId, maxAttempts, intervalMs);
      && run.result == Nth(statuses, Max0(maxAttempts))
      && Fetches(run.events) == Max0(maxAttempts) + 1
    ensures maxAttempts <= 0 ==>
      PollRun(statuses, jobId, maxAttempts, intervalMs).events == [Wait(InitialDelayMs), GetJobStatus(jobId)]
  {
    var stop := StopIndex(statuses, maxAttempts);
    assert stop == Max0(maxAttempts);
    PollShape(statuses, jobId, maxAttempts, intervalMs);
    if maxAttempts <= 0 {
      assert Rounds(jobId, intervalMs, 0) == [];
    }
  }

  /** A fetch that throws inside the budget ends polling with that error, unchanged, and nothing is fetched after it. */
  lemma PollPropagatesFailure(statuses: seq<Reply<JobStatus>>, jobId: string, maxAttempts: int, intervalMs: int, k: nat)
    requires k < maxAttempts
    requires forall j :: 0 <= j < k ==> Nth(statuses, j).Ok? && Nth(statuses, j).value.status != Done
    requires Nth(statuses, k).Err?
    ensures var run := PollRun(statuses, jobId, maxAttempts, intervalMs);
      run.result == Nth(statuses, k) && Fetches(run.events) == k + 1
      && run.events[|run.events| - 1] == GetJobStatus(jobId)
  {
    var stop := StopIndex(statuses, maxAttempts);
    assert EndsPolling(Nth(statuses, k));
    assert stop < maxAttempts ==> EndsPolling(Nth(statuses, stop));
    assert stop == k;
    PollShape(statuses, jobId, maxAttempts, intervalMs);
  }

  /** Every status fetch of a poll is for the polled job. */
  lemma PollFetchesOnlyJob(statuses: seq<Reply<JobStatus>>, jobId: string, maxAttempts: int, intervalMs: int)
    ensures forall e :: e in PollRun(statuses, jobId, maxAttempts, intervalMs).events && e.GetJobStatus? ==> e.jobId == jobId
  {
    var k := StopIndex(statuses, maxAttempts);
    var rounds := Rounds(jobId, intervalMs, k);
    PollShape(statuses, jobId, maxAttempts, intervalMs);
    RoundsCount(jobId, intervalMs, k);
    forall e | e in [Wait(InitialDelayMs)] + rounds + [GetJobStatus(jobId)] && e.GetJobStatus?
      ensures e.jobId == jobId
    {
      if e !in rounds {
        assert e in [Wait(InitialDelayMs)] || e in [GetJobStatus(jobId)];
      }
    }
  }

  /** Answering k rounds uses up k status replies and nothing else. */
  lemma {:induction false} AfterRounds(s: Script, jobId: string, intervalMs: int, k: nat)
    ensures s.After(Rounds(jobId, intervalMs, k)) == s.(jobStatuses := Drop(s.jobStatuses, k))
    decreases k
  {
    if k == 0 {
      assert Drop(s.jobStatuses, 0) == s.jobStatuses;
    } else {
      var round := [GetJobStatus(jobId), Wait(intervalMs)];
      var prev := Rounds(jobId, intervalMs, k - 1);
      var t := s.(jobStatuses := Drop(s.jobStatuses, k - 1));
      RoundsSnoc(jobId, intervalMs, k - 1);
      calc {
        s.After(Rounds(jobId, intervalMs, k));
        s.After(prev + round);
        { AfterConcat(s, prev, round); }
        s.After(prev).After(round);
        { AfterRounds(s, jobId, intervalMs, k - 1); }
        t.After(round);
        { AfterRound(t, jobId, intervalMs); }
        t.(jobStatuses := Rest(Drop(s.jobStatuses, k - 1)));
        { DropRest(s.jobStatuses, k - 1); }
        s.(jobStatuses := Drop(s.jobStatuses, k));
      }
    }
  }

  /** Answering one round uses up one status reply. */
  lemma AfterRound(s: Script, jobId: string, intervalMs: int)
    ensures s.After([GetJobStatus(jobId), Wait(intervalMs)]) == s.(jobStatuses := Rest(s.jobStatuses))
  {
    var round := [GetJobStatus(jobId), Wait(intervalMs)];
    assert round[..1] == [GetJobStatus(jobId)];
    assert [GetJobStatus(jobId)][..0] == [];
    assert s.After(round) == s.After([GetJobStatus(jobId)]).Consume(Wait(intervalMs));
    assert s.After([GetJobStatus(jobId)]) == s.Consume(GetJobStatus(jobId));
  }

  /**
   * A poll uses up one status reply per fetch, k + 1 for the stop index k,
   * and no reply of any other endpoint.
   */
  lemma PollConsumes(s: Script, jobId: string, maxAttempts: int, intervalMs: int)
    ensures var k := StopIndex(s.jobStatuses, maxAttempts);
      s.After(PollRun(s.jobStatuses, jobId, maxAttempts, intervalMs).events)
        == s.(jobStatuses := Drop(s.jobStatuses, k + 1))
  {
    var k := StopIndex(s.jobStatuses, maxAttempts);
    var rounds := Rounds(jobId, intervalMs, k);
    PollShape(s.jobStatuses, jobId, maxAttempts, intervalMs);
    assert [Wait(InitialDelayMs)][..0] == [];
    AfterConcat(s, [Wait(InitialDelayMs)], rounds);
    AfterRounds(s, jobId, intervalMs, k);
    AfterSnoc(s, [Wait(InitialDelayMs)] + rounds, GetJobStatus(jobId));
    DropRest(s.jobStatuses, k);
  }

  /**
   * Where an implementation of the poll stops, its trace and remaining script
   * are those of the poll: k rounds after the initial wait, then the stopping
   * fetch, and k + 1 status replies used up.
   */
  lemma PollExit(s0: Script, start: seq<Event>, jobId: string, maxAttempts: int, intervalMs: int, k: nat,
                 trace: seq<Event>, script: Script)
    requires k <= Max0(maxAttempts)
    requires forall j :: 0 <= j < k ==> !EndsPolling(Nth(s0.jobStatuses, j))
    requires k == Max0(maxAttempts) || EndsPolling(Nth(s0.jobStatuses, k))
    requires trace == start + [Wait(InitialDelayMs)] + Rounds(jobId, intervalMs, k) + [GetJobStatus(jobId)]
    requires script == s0.(jobStatuses := Drop(s0.jobStatuses, k + 1))
    ensures var run := PollRun(s0.jobStatuses, jobId, maxAttempts, intervalMs);
      && trace == start + run.events
      && script == s0.After(run.events)
      && run.result == Nth(s0.jobStatuses, k)
  {
    PollStopsAt(s0.jobStatuses, jobId, maxAttempts, intervalMs, k);
    PollTraceAssoc(start, jobId, intervalMs, k);
    PollConsumes(s0, jobId, maxAttempts, intervalMs);
  }

  /** Regrouping the poll's trace: the wait, the rounds, then the stopping fetch. */
  lemma PollTraceAssoc(start: seq<Event>, jobId: string, intervalMs: int, k: nat)
    ensures start + [Wait(InitialDelayMs)] + Rounds(jobId, intervalMs, k) + [GetJobStatus(jobId)]
      == start + ([Wait(InitialDelayMs)] + Rounds(jobId, intervalMs, k) + [GetJobStatus(jobId)])
  {
    var rounds := Rounds(jobId, intervalMs, k);
    ConcatAssoc(start, [Wait(InitialDelayMs)], rounds);
    ConcatAssoc(start, [Wait(InitialDelayMs)] + rounds, [GetJobStatus(jobId)]);
  }
}
