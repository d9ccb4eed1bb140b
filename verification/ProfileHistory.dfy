/** What holds over any number of profile operations, one after the other. */
module ProfileHistory {
  import opened Wrappers
  import opened ProfileScript
  import opened ProfileProofs

  // Creations asked for right after a miss. LoadedCreations below shows that these are the ones with a table loaded.
  function PaidCreations(trace: seq<Event>): nat {
    if |trace| < 2 then 0
    else
      PaidCreations(trace[..|trace| - 1])
        + if trace[|trace| - 2].Missed? && IsCreation(trace[|trace| - 1]) then 1 else 0
  }

  function Misses(trace: seq<Event>): nat {
    Count(trace, IsMissed)
  }

  lemma PaidCreationsLog(trace: seq<Event>, e: Event)
    ensures PaidCreations(trace + [e]) ==
            PaidCreations(trace) + if trace != [] && trace[|trace| - 1].Missed? && IsCreation(e) then 1 else 0
  {
    assert (trace + [e])[..|trace|] == trace;
  }

  lemma {:induction false} PaidCreationsUnchanged(before: seq<Event>, after: seq<Event>)
    requires before <= after
    requires forall i :: |before| <= i < |after| ==> !IsCreation(after[i])
    ensures PaidCreations(after) == PaidCreations(before)
  {
    if |before| < |after| {
      PaidCreationsUnchanged(before, after[..|after| - 1]);
    } else {
      assert before == after;
    }
  }

  // What is still owed to the three misses that a creation costs.
  function Balance(w: World): int {
    3 * PaidCreations(w.trace) + w.store.createRetry - Misses(w.trace)
  }

  // Stages that neither check nor create keep the account.
  lemma StageKeepsAccount(op: Operation, stage: Stage, w: World, o: Oracle)
    requires !stage.Verify? && !stage.Add?
    ensures var after := Perform(op, stage, w, o).world;
            Balance(after) == Balance(w) && after.store.createRetry == w.store.createRetry
  {
    var after := Perform(op, stage, w, o).world;
    StageAppends(op, stage, w, o);
    CountUnchanged(w.trace, after.trace, IsMissed);
    PaidCreationsUnchanged(w.trace, after.trace);
  }

  lemma EndKeepsAccount(w: World, e: Event)
    requires e.Released? || e.ProcessExit?
    ensures Balance(Log(w, e)) == Balance(w)
  {
    CountLog(w.trace, e, IsMissed);
    PaidCreationsLog(w.trace, e);
  }

  // A check leaves the account level, except that a third miss before a creation lends it three.
  lemma VerifyAccount(op: Operation, w: World)
    requires w.store.createRetry <= 2
    ensures var after := PerformVerify(op, w).world;
            && after.store.createRetry <= 2
            && (w.store.table.None? ==> after == w)
            && (w.store.table.Some? && after.present ==>
                  Balance(after) <= Balance(w) && (!op.Modify? ==> Balance(after) == Balance(w)))
            && (w.store.table.Some? && !after.present ==>
                  && after.trace == w.trace + [Missed]
                  && after.store.fetchRetry == 0
                  && Balance(after) == Balance(w) - if after.store.createRetry == 0 then 3 else 0)
  {
    hide Agrees;
    if w.store.table.Some? {
      var table, after := w.store.table.value, PerformVerify(op, w).world;
      VerifyDecidesByAgreement(op, w);
      PaidCreationsLog(w.trace, Missed);
      CountLog(w.trace, Missed, IsMissed);
      if after.present && FirstMatch(table, Wanted(w), op.Modify?, 0).None? {
        assert op.Modify?;
      }
    }
  }

  predicate Settles(stage: Stage) {
    !stage.Verify? && !stage.Add?
  }

  lemma {:induction false} RunKeepsAccount(op: Operation, stages: seq<Stage>, w: World, o: Oracle)
    requires forall i :: 0 <= i < |stages| ==> Settles(stages[i])
    ensures var end := Run(op, stages, w, o);
            Balance(end) == Balance(w) && end.store.createRetry == w.store.createRetry
    decreases |stages|
  {
    if stages == [] {
      EndKeepsAccount(w, Released);
    } else {
      var d := Perform(op, stages[0], w, o);
      StageKeepsAccount(op, stages[0], w, o);
      StageAppends(op, stages[0], w, o);
      match d.verdict
      case Proceed => RunKeepsAccount(op, stages[1..], d.world, o);
      case Skip => EndKeepsAccount(d.world, Released);
      case Exit => EndKeepsAccount(d.world, ProcessExit);
    }
  }

  // A creation asked for right after a miss.
  predicate Paying(w: World) {
    Unhindered(w.store) && !w.present && w.trace != [] && w.trace[|w.trace| - 1].Missed?
  }

  // The creation pays back what the third miss lent.
  lemma CreationAccount(w: World, o: Oracle)
    ensures Balance(PerformAdd(w, o).world) == Balance(w) + if Paying(w) then 3 else 0
    ensures PerformAdd(w, o).world.store.createRetry == w.store.createRetry
  {
    if Unhindered(w.store) && !w.present {
      var asking := Ask(w, CreateProfile(w.input));
      CountLog(w.trace, Asked(CreateProfile(w.input)), IsMissed);
      PaidCreationsLog(w.trace, Asked(CreateProfile(w.input)));
      var told := Told("unknown", IPv4, NotReady);
      CountLog(asking.trace, told, IsMissed);
      PaidCreationsLog(asking.trace, told);
    }
  }

  lemma AddAccount(w: World, o: Oracle)
    ensures var end := Run(Create, Script(Create)[4..], w, o);
            && Balance(end) == Balance(w) + (if Paying(w) then 3 else 0)
            && end.store.createRetry == w.store.createRetry
  {
    hide Balance, Paying, Then;
    var d := PerformAdd(w, o);
    CreationAccount(w, o);
    assert Script(Create)[4..][0] == Add && Script(Create)[4..][1..] == Script(Create)[5..];
    AfterAdd(d, o);
  }

  lemma AfterAdd(d: Outcome, o: Oracle)
    requires !d.verdict.Exit?
    ensures var end := Then(Create, d, Script(Create)[5..], o);
            Balance(end) == Balance(d.world) && end.store.createRetry == d.world.store.createRetry
  {
    if d.verdict.Proceed? {
      RunKeepsAccount(Create, Script(Create)[5..], d.world, o);
    } else {
      EndKeepsAccount(d.world, Released);
    }
  }

  predicate MissedLast(trace: seq<Event>) {
    trace != [] && trace[|trace| - 1].Missed?
  }

  // The account of one task: the counter stays below three, and nothing is created on credit. Only a modify may lose
  // misses, by wrapping the counter without creating anything.
  predicate Settled(op: Operation, before: World, end: World) {
    && end.store.createRetry <= 2
    && Balance(end) <= Balance(before)
    && (!op.Modify? ==> Balance(end) == Balance(before))
  }

  lemma OpeningStage(k: nat, w: World, o: Oracle)
    requires k <= 2
    ensures var d := Perform(Create, Script(Create)[k], w, o);
            && d.world.present == w.present
            && Balance(d.world) == Balance(w)
            && d.world.store.createRetry == w.store.createRetry
            && !d.verdict.Exit?
            && (k == 2 && d.world.store.table.None? ==> !MissedLast(d.world.trace))
  {
    var stage := Script(Create)[k];
    StageKeepsAccount(Create, stage, w, o);
    StageAppends(Create, stage, w, o);
    if k == 2 {
      ListLeaves(w, o);
    }
  }

  lemma ListLeaves(w: World, o: Oracle)
    ensures var d := PerformReadList(Create, w, o);
            && d.world.present == w.present
            && (w.store.table.Some? ==> d.world == w)
            && (w.store.table.None? ==> |w.trace| < |d.world.trace| && !MissedLast(d.world.trace))
  {
    if w.store.table.None? {
      ListAppends(Create, w, o);
      var asking := Ask(w.(store := w.store.(collected := false)), GetProfileList);
      match Answer(asking, o)
      case Listed(entries) =>
        if entries != [] {
          FillAppends(asking.(store := asking.store.(table := Some([]))), o, entries, 0);
        }
      case _ =>
    }
  }

  // A creation comes right after a miss exactly when a table is loaded.
  lemma MissedMeansLoaded(w: World)
    requires w.store.table.None? ==> !MissedLast(w.trace)
    ensures var after := PerformVerify(Create, w).world;
            !after.present && Unhindered(after.store) ==> (after.store.table.Some? <==> MissedLast(after.trace))
  {
    if w.store.table.Some? {
      VerifyDecidesByAgreement(Create, w);
    }
  }

  lemma CheckedCreate(w: World, o: Oracle)
    requires w.store.createRetry <= 2 && (w.store.table.None? ==> !MissedLast(w.trace))
    ensures Settled(Create, w, Run(Create, Script(Create)[3..], w, o))
  {
    CheckAccount(w);
    CreateAfterCheck(w, PerformVerify(Create, w), o);
    CheckGoesOn(w, o);
  }

  lemma CheckGoesOn(w: World, o: Oracle)
    ensures Run(Create, Script(Create)[3..], w, o) == Then(Create, PerformVerify(Create, w), Script(Create)[4..], o)
  {
    assert Script(Create)[3..][0] == Verify && Script(Create)[3..][1..] == Script(Create)[4..];
  }

  lemma CheckAccount(w: World)
    requires w.store.createRetry <= 2
    ensures Checked(w, PerformVerify(Create, w))
  {
    VerifyAccount(Create, w);
    VerifyAppends(Create, w);
  }

  // What a check does to the account.
  predicate Checked(w: World, d: Outcome) {
    && !d.verdict.Skip? && (d.verdict.Exit? ==> d.world == w) && d.world.store.createRetry <= 2
    && (w.store.table.None? ==> d.world == w)
    && (w.store.table.Some? && d.world.present ==> Balance(d.world) == Balance(w))
    && (w.store.table.Some? && !d.world.present ==>
          && MissedLast(d.world.trace) && d.world.store.fetchRetry == 0
          && Balance(d.world) == Balance(w) - if d.world.store.createRetry == 0 then 3 else 0)
  }

  // The account from the check on, given what the check did to it.
  lemma CreateAfterCheck(w: World, d: Outcome, o: Oracle)
    requires w.store.createRetry <= 2 && (w.store.table.None? ==> !MissedLast(w.trace))
    requires Checked(w, d)
    ensures Settled(Create, w, Then(Create, d, Script(Create)[4..], o))
  {
    if d.verdict.Exit? {
      EndKeepsAccount(w, ProcessExit);
    } else {
      AddAccount(d.world, o);
      SettledByCreation(w, d, Run(Create, Script(Create)[4..], d.world, o));
    }
  }

  // What the check lent is what the creation pays back.
  lemma SettledByCreation(w: World, d: Outcome, end: World)
    requires Checked(w, d) && (w.store.table.None? ==> !MissedLast(w.trace))
    requires end.store.createRetry == d.world.store.createRetry
    requires Balance(end) == Balance(d.world) + if Paying(d.world) then 3 else 0
    ensures Settled(Create, w, end)
  {
  }

  lemma {:induction false} CreateAccount(k: nat, w: World, o: Oracle)
    requires k <= 2 && w.store.createRetry <= 2
    ensures Settled(Create, w, Run(Create, Script(Create)[k..], w, o))
    decreases 3 - k
  {
    var d := Perform(Create, Script(Create)[k], w, o);
    OpeningStage(k, w, o);
    assert Script(Create)[k..][0] == Script(Create)[k] && Script(Create)[k..][1..] == Script(Create)[k + 1..];
    if d.verdict.Skip? {
      EndKeepsAccount(d.world, Released);
    } else if k < 2 {
      CreateAccount(k + 1, d.world, o);
    } else {
      CheckedCreate(d.world, o);
    }
  }

  lemma ModifyAccount(w: World, o: Oracle)
    requires w.store.createRetry <= 2 && !w.present
    ensures Settled(Modify, w, Run(Modify, Script(Modify), w, o))
  {
    StageKeepsAccount(Modify, Allocate, w, o);
    ModifyAfterAllocate(w, PerformAllocate(w, o), o);
  }

  lemma ModifyAfterAllocate(w: World, d: Outcome, o: Oracle)
    requires w.store.createRetry <= 2 && !d.verdict.Exit?
    requires Balance(d.world) == Balance(w) && d.world.store.createRetry == w.store.createRetry
    ensures Settled(Modify, w, Then(Modify, d, Script(Modify)[1..], o))
  {
    if d.verdict.Skip? {
      EndKeepsAccount(d.world, Released);
    } else {
      CheckedModify(d.world, o);
    }
  }

  lemma CheckedModify(w: World, o: Oracle)
    requires w.store.createRetry <= 2
    ensures Settled(Modify, w, Run(Modify, Script(Modify)[1..], w, o))
  {
    hide PerformVerify, Balance;
    var d := PerformVerify(Modify, w);
    VerifyAccount(Modify, w);
    assert Script(Modify)[1..][0] == Verify && Script(Modify)[1..][1..] == Script(Modify)[2..];
    CheckedModifyEnds(d, o);
  }

  lemma CheckedModifyEnds(d: Outcome, o: Oracle)
    ensures var end := Then(Modify, d, Script(Modify)[2..], o);
            Balance(end) == Balance(d.world) && end.store.createRetry == d.world.store.createRetry
  {
    match d.verdict
    case Proceed => RunKeepsAccount(Modify, Script(Modify)[2..], d.world, o);
    case Skip => EndKeepsAccount(d.world, Released);
    case Exit => EndKeepsAccount(d.world, ProcessExit);
  }

  lemma TaskAccount(op: Operation, w: World, o: Oracle)
    requires w.store.createRetry <= 2 && !w.present
    ensures Settled(op, w, Run(op, Script(op), w, o))
  {
    hide Run, Balance;
    match op
    case Create =>
      assert Script(Create)[0..] == Script(Create);
      CreateAccount(0, w, o);
    case Modify => ModifyAccount(w, o);
    case _ => RunKeepsAccount(op, Script(op), w, o);
  }

  // ---- any number of calls ----

  // A call of an entry point. Between calls other code may have changed the store at will, except for the two
  // counters that only these operations touch.
  datatype Job = Job(
    op: Operation, profile: Option<Profile>, callback: bool, deviceOpen: bool, inTime: bool, fromDb: Profile,
    store: Store, o: Oracle)

  predicate Proper(job: Job) {
    job.op.Delete? ==> job.profile.Some?
  }

  function Resumed(w: World, job: Job): World {
    w.(store := job.store.(matched := w.store.matched, createRetry := w.store.createRetry))
  }

  predicate Exited(w: World) {
    w.trace != [] && w.trace[|w.trace| - 1].ProcessExit?
  }

  function Called(w: World, job: Job): World
    requires Proper(job)
  {
    var from := Resumed(w, job);
    Operated(from, job.op, job.profile, job.callback, job.deviceOpen, job.fromDb, job.inTime, job.o).world
  }

  function History(w: World, jobs: seq<Job>): World
    requires forall i :: 0 <= i < |jobs| ==> Proper(jobs[i])
    decreases |jobs|
  {
    if jobs == [] || Exited(w) then w
    else
      assert Proper(jobs[0]);
      History(Called(w, jobs[0]), jobs[1..])
  }

  lemma CallAccount(w: World, job: Job)
    requires Proper(job) && w.store.createRetry <= 2
    ensures Settled(job.op, w, Called(w, job))
  {
    var from := Resumed(w, job);
    if !job.deviceOpen {
      var told := Told("unknown", IPv4, NotReady);
      CountLog(from.trace, told, IsMissed);
      PaidCreationsLog(from.trace, told);
    } else if !(job.op.Modify? && job.profile.None?) {
      TaskAccount(job.op, Started(from, job.op, job.profile, job.callback, job.fromDb), job.o);
    }
  }

  lemma {:induction false} HistoryAccount(w: World, jobs: seq<Job>)
    requires forall i :: 0 <= i < |jobs| ==> Proper(jobs[i])
    requires w.store.createRetry <= 2
    ensures var end := History(w, jobs);
            && end.store.createRetry <= 2
            && Balance(end) <= Balance(w)
            && ((forall i :: 0 <= i < |jobs| ==> !jobs[i].op.Modify?) ==> Balance(end) == Balance(w))
    decreases |jobs|
  {
    if jobs != [] && !Exited(w) {
      assert Proper(jobs[0]);
      CallAccount(w, jobs[0]);
      HistoryAccount(Called(w, jobs[0]), jobs[1..]);
    }
  }

  // ---- creations with a table loaded ----

  // The world in which the given stages leave a task, if none of them stops it.
  function Reached(op: Operation, stages: seq<Stage>, w: World, o: Oracle): Option<World>
    decreases |stages|
  {
    if stages == [] then Some(w)
    else
      var d := Perform(op, stages[0], w, o);
      if d.verdict.Proceed? then Reached(op, stages[1..], d.world, o) else None
  }

  predicate Creates(w: World) {
    Unhindered(w.store) && !w.present
  }

  // A create asks for its profile with a table loaded: it gets as far as the creation, which nothing holds back, and
  // there is a table then.
  predicate CreatesLoaded(w: World, o: Oracle) {
    var at := Reached(Create, Script(Create)[..4], w, o);
    at.Some? && Creates(at.value) && at.value.store.table.Some?
  }

  // The creations with a table loaded in a history of calls.
  function LoadedCreations(w: World, jobs: seq<Job>): nat
    requires forall i :: 0 <= i < |jobs| ==> Proper(jobs[i])
    decreases |jobs|
  {
    if jobs == [] || Exited(w) then 0
    else
      var job := jobs[0];
      assert Proper(job);
      var loaded :=
        job.deviceOpen && job.op.Create?
        && CreatesLoaded(Started(Resumed(w, job), Create, job.profile, job.callback, job.fromDb), job.o);
      (if loaded then 1 else 0) + LoadedCreations(Called(w, job), jobs[1..])
  }

  // Stages without the creation pay for none.
  lemma {:induction false} RunPaysNothing(op: Operation, stages: seq<Stage>, w: World, o: Oracle)
    requires Add !in stages
    ensures PaidCreations(Run(op, stages, w, o).trace) == PaidCreations(w.trace)
    decreases |stages|
  {
    if stages == [] {
      PaidCreationsLog(w.trace, Released);
    } else {
      var d := Perform(op, stages[0], w, o);
      StagePaysNothing(op, stages[0], w, o);
      match d.verdict
      case Proceed => RunPaysNothing(op, stages[1..], d.world, o);
      case Skip => PaidCreationsLog(d.world.trace, Released);
      case Exit => PaidCreationsLog(d.world.trace, ProcessExit);
    }
  }

  lemma StagePaysNothing(op: Operation, stage: Stage, w: World, o: Oracle)
    requires !stage.Add?
    ensures PaidCreations(Perform(op, stage, w, o).world.trace) == PaidCreations(w.trace)
  {
    StageAppends(op, stage, w, o);
    PaidCreationsUnchanged(w.trace, Perform(op, stage, w, o).world.trace);
  }

  // The creation pays if and only if it comes right after a miss.
  lemma AddPays(w: World, o: Oracle)
    ensures PaidCreations(Run(Create, Script(Create)[4..], w, o).trace) ==
            PaidCreations(w.trace) + if Creates(w) && MissedLast(w.trace) then 1 else 0
  {
    var after := AddStep(w, o);
    RestPaysNothing(after, o);
  }

  lemma AddStep(w: World, o: Oracle) returns (d: Outcome)
    ensures Run(Create, Script(Create)[4..], w, o) == Then(Create, d, Script(Create)[5..], o) && !d.verdict.Exit?
    ensures PaidCreations(d.world.trace) ==
            PaidCreations(w.trace) + if Creates(w) && MissedLast(w.trace) then 1 else 0
  {
    d := PerformAdd(w, o);
    assert Script(Create)[4..][0] == Add && Script(Create)[4..][1..] == Script(Create)[5..];
    AddPaid(w, o);
  }

  lemma AddPaid(w: World, o: Oracle)
    ensures var d := PerformAdd(w, o);
            && !d.verdict.Exit?
            && PaidCreations(d.world.trace) ==
               PaidCreations(w.trace) + if Creates(w) && MissedLast(w.trace) then 1 else 0
  {
    if Creates(w) {
      var asking := Ask(w, CreateProfile(w.input));
      PaidCreationsLog(w.trace, Asked(CreateProfile(w.input)));
      PaidCreationsLog(asking.trace, Told("unknown", IPv4, NotReady));
    }
  }

  lemma RestPaysNothing(d: Outcome, o: Oracle)
    requires !d.verdict.Exit?
    ensures PaidCreations(Then(Create, d, Script(Create)[5..], o).trace) == PaidCreations(d.world.trace)
  {
    if d.verdict.Proceed? {
      assert Script(Create)[5..] == [SetDefault, Attach, Notify];
      RunPaysNothing(Create, Script(Create)[5..], d.world, o);
    } else {
      PaidCreationsLog(d.world.trace, Released);
    }
  }

  // From the check on, a creation pays if and only if it has a table.
  lemma CheckPays(w: World, o: Oracle)
    requires w.store.table.None? ==> !MissedLast(w.trace)
    ensures var d := PerformVerify(Create, w);
            PaidCreations(Run(Create, Script(Create)[3..], w, o).trace) ==
            PaidCreations(w.trace)
              + if d.verdict.Proceed? && Creates(d.world) && d.world.store.table.Some? then 1 else 0
  {
    hide PerformVerify, PaidCreations, Run, Then;
    CheckGoesOn(w, o);
    StagePaysNothing(Create, Verify, w, o);
    MissedMeansLoaded(w);
    VerifyAppends(Create, w);
    CheckedPays(PerformVerify(Create, w), o);
  }

  lemma CheckedPays(d: Outcome, o: Oracle)
    requires !d.verdict.Skip?
    ensures PaidCreations(Then(Create, d, Script(Create)[4..], o).trace) ==
            PaidCreations(d.world.trace)
              + if d.verdict.Proceed? && Creates(d.world) && MissedLast(d.world.trace) then 1 else 0
  {
    if d.verdict.Proceed? {
      AddPays(d.world, o);
    } else {
      PaidCreationsLog(d.world.trace, ProcessExit);
    }
  }

  // Over all create tasks: the creation is one that comes right after a miss exactly if it is made with a table loaded.
  lemma {:induction false} CreatePays(k: nat, w: World, o: Oracle)
    requires k <= 3 && (k == 3 && w.store.table.None? ==> !MissedLast(w.trace))
    ensures var at := Reached(Create, Script(Create)[k..4], w, o);
            PaidCreations(Run(Create, Script(Create)[k..], w, o).trace) ==
            PaidCreations(w.trace) + if at.Some? && Creates(at.value) && at.value.store.table.Some? then 1 else 0
    decreases 3 - k
  {
    hide PerformAllocate, PerformReadDefault, PerformReadList, PerformVerify, PaidCreations, Creates;
    assert Script(Create)[k..4][1..] == Script(Create)[k + 1..4];
    if k == 3 {
      CheckPays(w, o);
    } else {
      var d := Perform(Create, Script(Create)[k], w, o);
      OpeningStage(k, w, o);
      StagePaysNothing(Create, Script(Create)[k], w, o);
      assert Script(Create)[k..][1..] == Script(Create)[k + 1..];
      if d.verdict.Proceed? {
        CreatePays(k + 1, d.world, o);
      } else {
        PaidCreationsLog(d.world.trace, Released);
      }
    }
  }

  lemma CallPays(w: World, job: Job)
    requires Proper(job)
    ensures var start := Started(Resumed(w, job), Create, job.profile, job.callback, job.fromDb);
            PaidCreations(Called(w, job).trace) ==
            PaidCreations(w.trace) + if job.deviceOpen && job.op.Create? && CreatesLoaded(start, job.o) then 1 else 0
  {
    var from := Resumed(w, job);
    if !job.deviceOpen {
      PaidCreationsLog(from.trace, Told("unknown", IPv4, NotReady));
    } else if job.op.Create? {
      assert Script(Create)[0..] == Script(Create) && Script(Create)[0..4] == Script(Create)[..4];
      CreatePays(0, Started(from, Create, job.profile, job.callback, job.fromDb), job.o);
    } else if !(job.op.Modify? && job.profile.None?) {
      RunPaysNothing(job.op, Script(job.op), Started(from, job.op, job.profile, job.callback, job.fromDb), job.o);
    }
  }

  lemma {:induction false} HistoryPays(w: World, jobs: seq<Job>)
    requires forall i :: 0 <= i < |jobs| ==> Proper(jobs[i])
    ensures PaidCreations(History(w, jobs).trace) == PaidCreations(w.trace) + LoadedCreations(w, jobs)
    decreases |jobs|
  {
    if jobs != [] && !Exited(w) {
      assert Proper(jobs[0]);
      CallPays(w, jobs[0]);
      HistoryPays(Called(w, jobs[0]), jobs[1..]);
    }
  }

  // Over any calls of the four operations, from process start: every creation with a loaded table has cost three
  // misses, and the counter is what is left over. Without a modify nothing is lost.
  lemma ThreeMissesPerCreation(w: World, jobs: seq<Job>)
    requires forall i :: 0 <= i < |jobs| ==> Proper(jobs[i])
    requires w.trace == [] && w.store.createRetry == 0
    ensures var end := History(w, jobs);
            && 0 <= end.store.createRetry <= 2
            && 3 * LoadedCreations(w, jobs) + end.store.createRetry <= Misses(end.trace)
            && ((forall i :: 0 <= i < |jobs| ==> !jobs[i].op.Modify?) ==>
                  3 * LoadedCreations(w, jobs) + end.store.createRetry == Misses(end.trace))
  {
    HistoryAccount(w, jobs);
    HistoryPays(w, jobs);
  }
}
