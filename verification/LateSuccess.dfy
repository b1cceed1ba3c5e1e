/** A run in which an aggregate is told of a success after it asked the job to cancel: the
    first holder's lease lapses, the job is claimed again, the aggregate cancels it, and the
    first holder reports late. */
module EngineLateSuccess {
  import opened Common
  import opened EngineTypes
  import opened EngineTables
  import opened EngineMachine
  import opened EngineOwnership
  import opened EngineDelivery
  import opened EngineFencing
  import opened EngineCancels

  const OWNER := AggregateRef("owner", "1")
  const JOB := "job"
  const START := NewEvent(Named("start"), OWNER, "start", Source.Local, Raw([]), None)
  const STOP := NewEvent(Named("stop"), OWNER, "stop", Source.Local, Raw([]), None)

  /** An aggregate that enqueues one job when started and cancels it when stopped. */
  function Decision(kind: string): Effects {
    if kind == "start" then NO_EFFECTS.(jobs := [JobSpec(JOB, "phase", "action", Cpu, [], None, None)])
    else NO_EFFECTS.(cancels := [CancelJob(JOB)])
  }

  function Engine(): Config<int> {
    Config(_ => true, (input: ApplyInput<int>) => Decided(Accept, Decision(input.row.kind), 0, [], []), _ => 0, _ => 0,
           (a, b) => false)
  }

  /** Between two events: nothing is blocked, submitted or about to run. */
  ghost predicate AtRest(s: System<int>) {
    && s.shards == 1 && s.submitters == map[] && s.db.poison == map[] && WorkerOf(s, 0).Idle?
    && forall id | id in s.db.inbox :: id.Named? && s.db.inbox[id].state.Applied?
  }

  lemma Extend(run: seq<System<int>>, steps: seq<Step<int>>, step: Step<int>)
    requires IsRun(Engine(), run, steps) && Enabled(Engine(), run[|steps|], step)
    ensures IsRun(Engine(), run + [Next(Engine(), run[|steps|], step)], steps + [step])
  {
    var more, all := run + [Next(Engine(), run[|steps|], step)], steps + [step];
    forall i | 0 <= i < |all|
      ensures Enabled(Engine(), more[i], all[i]) && more[i + 1] == Next(Engine(), more[i], all[i])
    {
      if i < |steps| { assert more[i] == run[i] && more[i + 1] == run[i + 1] && all[i] == steps[i]; }
    }
  }

  // ------------------------------------------------------------ one event handled

  /** The event has just been inserted; the others are applied. */
  ghost predicate OnlyRunnable(s: System<int>, e: NewEvent, now: int) {
    && s.shards == 1 && s.submitters == map[] && s.db.poison == map[] && WorkerOf(s, 0).Idle?
    && e.id in s.db.inbox && s.db.inbox[e.id] == NewInboxRow(e, s.db.inbox[e.id].seqNo, now)
    && forall id | id in s.db.inbox && id != e.id :: id.Named? && s.db.inbox[id].state.Applied?
  }

  lemma Inserted(s: System<int>, e: NewEvent, now: int)
    requires AtRest(s) && e.id.Named? && e.id !in s.db.inbox
    ensures Enabled(Engine(), s, Submit(InsertEvent(0, e, now)))
    ensures var t := Next(Engine(), s, Submit(InsertEvent(0, e, now)));
            OnlyRunnable(t, e, now) && t.db.jobs == s.db.jobs && t.holders == s.holders
            && t.db.inbox.Keys == s.db.inbox.Keys + {e.id}
  {
  }

  lemma LoadedNext(s: System<int>, e: NewEvent, now: int)
    requires OnlyRunnable(s, e, now)
    ensures Enabled(Engine(), s, Work(0, Load(e.id, now)))
    ensures Next(Engine(), s, Work(0, Load(e.id, now)))
            == s.(workers := s.workers[0 := Loaded(e.id, s.db.inbox[e.id])])
  {
    assert Shard(Engine(), s.db.inbox[e.id].aggregate, s.shards) == 0;
    assert Runnable(s.db, e.id, now);
  }

  lemma Decides(s: System<int>, e: NewEvent, now: int)
    requires s.shards == 1 && s.submitters == map[] && s.db.poison == map[] && e.id.Named?
    requires e.id in s.db.inbox && s.db.inbox[e.id] == NewInboxRow(e, s.db.inbox[e.id].seqNo, now)
    requires WorkerOf(s, 0) == Loaded(e.id, s.db.inbox[e.id])
    requires forall id | id in s.db.inbox && id != e.id :: id.Named? && s.db.inbox[id].state.Applied?
    ensures Enabled(Engine(), s, Work(0, Apply(now, 0, 0)))
    ensures var t, effects := Next(Engine(), s, Work(0, Apply(now, 0, 0))), Decision(e.kind);
            && t.shards == 1 && t.submitters == map[] && t.db.poison == map[] && WorkerOf(t, 0).Acking?
            && t.holders == s.holders && t.db.inbox.Keys == s.db.inbox.Keys
            && (forall id | id in t.db.inbox :: id.Named? && t.db.inbox[id].state.Applied?)
            && t.db.jobs == CommitJobs(s.db.jobs, e.aggregate, [], effects.jobs, effects.cancels, now)
  {
    var input := InputOf(s, 0, now, 0);
    var reply := Engine().handler(input);
    CommitReplyJobs(s.db, input, reply, 0);
    CommitMark(s.db, input, reply, 0);
    assert CommitInbox(s.db, input, reply, 0) == CommitReply(s.db, input, reply, 0).inbox;
    assert InsertInboxAll(s.db, [], now) == s.db;
  }

  /** Submit an event, load it, apply it, and go back to rest. */
  lemma Handles(run: seq<System<int>>, steps: seq<Step<int>>, e: NewEvent, now: int)
    returns (more: seq<System<int>>, all: seq<Step<int>>)
    requires IsRun(Engine(), run, steps) && AtRest(run[|steps|]) && e.id.Named? && e.id !in run[|steps|].db.inbox
    ensures IsRun(Engine(), more, all) && more[0] == run[0] && AtRest(more[|all|])
    ensures more[|all|].holders == run[|steps|].holders
    ensures more[|all|].db.inbox.Keys == run[|steps|].db.inbox.Keys + {e.id}
    ensures var effects := Decision(e.kind);
            more[|all|].db.jobs == CommitJobs(run[|steps|].db.jobs, e.aggregate, [], effects.jobs, effects.cancels, now)
  {
    Inserted(run[|steps|], e, now);
    more, all := Step1(run, steps, Submit(InsertEvent(0, e, now)));
    LoadedNext(more[|all|], e, now);
    more, all := Step1(more, all, Work(0, Load(e.id, now)));
    Decides(more[|all|], e, now);
    more, all := Step1(more, all, Work(0, Apply(now, 0, 0)));
    more, all := Step1(more, all, Work(0, DispatchAcks([])));
  }

  lemma Step1(run: seq<System<int>>, steps: seq<Step<int>>, step: Step<int>)
    returns (more: seq<System<int>>, all: seq<Step<int>>)
    requires IsRun(Engine(), run, steps) && Enabled(Engine(), run[|steps|], step)
    ensures IsRun(Engine(), more, all) && more[0] == run[0] && |all| == |steps| + 1
    ensures more[|all|] == Next(Engine(), run[|steps|], step)
  {
    Extend(run, steps, step);
    more, all := run + [Next(Engine(), run[|steps|], step)], steps + [step];
  }

  // ------------------------------------------------------------------- the run

  /** The job was enqueued and is due. */
  lemma Enqueued(jobs: map<string, JobRow>)
    requires jobs == CommitJobs(map[], OWNER, [], Decision("start").jobs, Decision("start").cancels, 0)
    ensures jobs.Keys == {JOB} && jobs[JOB].state.Pending? && jobs[JOB].generation == 0 && jobs[JOB].nextAt == 0
    ensures !jobs[JOB].cancelRequested
  {
    assert InsertJobs(map[], OWNER, [], 0) == map[];
  }

  lemma Cancelled(before: map<string, JobRow>, after: map<string, JobRow>)
    requires before.Keys == {JOB} && before[JOB].state.Running?
    requires after == CommitJobs(before, OWNER, [], Decision("stop").jobs, Decision("stop").cancels, 1)
    ensures after.Keys == {JOB} && after[JOB].cancelRequested && after[JOB].state.Running?
    ensures after[JOB].generation == before[JOB].generation
  {
    assert Decision("stop").jobs == [];
    assert CancelsRow(Decision("stop").cancels[0], OWNER, JOB, before[JOB]);
  }

  /** The holder of the first claim is still at work. */
  predicate FirstHolder(s: System<int>) {
    0 in s.holders && s.holders[0].job == JOB && s.holders[0].row.generation == 1 && s.holders[0].finish.None?
  }

  /** Two claims in a row: the second one after the first lease lapsed. */
  lemma ClaimedTwice(run: seq<System<int>>, steps: seq<Step<int>>) returns (more: seq<System<int>>, all: seq<Step<int>>)
    requires IsRun(Engine(), run, steps) && AtRest(run[|steps|]) && run[|steps|].holders == map[]
    requires var jobs := run[|steps|].db.jobs;
             && jobs.Keys == {JOB} && jobs[JOB].state.Pending? && jobs[JOB].generation == 0 && jobs[JOB].nextAt == 0
             && !jobs[JOB].cancelRequested
    ensures IsRun(Engine(), more, all) && more[0] == run[0] && AtRest(more[|all|])
    ensures more[|all|].db.inbox == run[|steps|].db.inbox
    ensures var s := more[|all|];
            && s.db.jobs.Keys == {JOB} && s.db.jobs[JOB].state.Running? && s.db.jobs[JOB].generation == 2
            && FirstHolder(s)
  {
    assert Claimable(run[|steps|].db.jobs, JOB, 0);
    more, all := Step1(run, steps, Exec(Claim(0, JOB, 1, 0)));
    assert Claimable(more[|all|].db.jobs, JOB, 1);
    more, all := Step1(more, all, Exec(Claim(1, JOB, 9, 1)));
  }

  /** The first holder ends its run with a success and records it. */
  lemma ReportsLate(run: seq<System<int>>, steps: seq<Step<int>>) returns (more: seq<System<int>>, all: seq<Step<int>>)
    requires IsRun(Engine(), run, steps) && AtRest(run[|steps|])
    requires var s := run[|steps|];
             && JOB in s.db.jobs && s.db.jobs[JOB].cancelRequested && s.db.jobs[JOB].generation == 2
             && FirstHolder(s)
    ensures IsRun(Engine(), more, all) && more[0] == run[0] && |all| == |steps| + 2
    ensures more[..|run|] == run && all[..|steps|] == steps
    ensures LateSuccess(more[|steps| + 1], all[|steps| + 1], JOB)
    ensures forall m | |steps| <= m <= |steps| + 1 :: more[m].db.jobs == run[|steps|].db.jobs
  {
    var done := Exec(EndRun(0, Finish.Done([])));
    var record := Exec(RecordCompletion(0, 2, true));
    Extend(run, steps, done);
    var mid := run + [Next(Engine(), run[|steps|], done)];
    assert ResultOf(JOB, 1) !in mid[|steps| + 1].db.inbox;
    Extend(mid, steps + [done], record);
    more := mid + [Next(Engine(), mid[|steps| + 1], record)];
    all := steps + [done] + [record];
  }

  /** Some run from the empty engine tells an aggregate of a success after it asked the job
      to cancel, with the job kept all along. */
  lemma SuccessCanFollowACancel() returns (run: seq<System<int>>, steps: seq<Step<int>>, i: nat, k: nat)
    ensures IsRun(Engine(), run, steps) && run[0] == Init(0, 1) && i <= k <= |steps|
    ensures Kept(run, JOB, i, k) && run[i].db.jobs[JOB].cancelRequested && |run[i].log| <= |run[k].log|
    ensures TellsDone(run[k].log[|run[i].log|..], JOB)
  {
    var start := [Init(0, 1)];
    assert IsRun(Engine(), start, []) && AtRest(start[0]);
    var run1, steps1 := Handles(start, [], START, 0);
    Enqueued(run1[|steps1|].db.jobs);
    var run2, steps2 := ClaimedTwice(run1, steps1);
    assert STOP.id != START.id;
    var run3, steps3 := Handles(run2, steps2, STOP, 1);
    Cancelled(run2[|steps2|].db.jobs, run3[|steps3|].db.jobs);
    run, steps := ReportsLate(run3, steps3);
    i, k := |steps3|, |steps3| + 2;
    assert run[i] == run3[i];
    LateIsKept(run, steps, i);
    ToldOfSuccessIff(Engine(), run, steps, 0, 1, JOB, i, k);
  }

  lemma LateIsKept(run: seq<System<int>>, steps: seq<Step<int>>, i: nat)
    requires IsRun(Engine(), run, steps) && |steps| == i + 2 && JOB in run[i].db.jobs
    requires forall m | i <= m <= i + 1 :: run[m].db.jobs == run[i].db.jobs
    requires steps[i + 1].Exec?
    ensures Kept(run, JOB, i, i + 2)
  {
    assert Enabled(Engine(), run[i + 1], steps[i + 1]) && run[i + 1 + 1] == Next(Engine(), run[i + 1], steps[i + 1]);
    ExecMoves(run[i + 1].db, run[i + 1].holders, steps[i + 1].exec, Engine().poisonBackoff);
    assert JOB in run[i + 1].db.jobs;
  }
}
