/** What the scripts of the profile operations guarantee, over every answer of the modem. */
module ProfileProofs {
  import opened Wrappers
  import opened ProfileScript

  // ---- counting events ----

  function Count(trace: seq<Event>, kind: Event -> bool): nat {
    if trace == [] then 0
    else Count(trace[..|trace| - 1], kind) + if kind(trace[|trace| - 1]) then 1 else 0
  }

  predicate IsTold(e: Event) { e.Told? }

  predicate IsEnd(e: Event) { e.Released? || e.ProcessExit? }

  predicate IsMissed(e: Event) { e.Missed? }

  lemma CountLog(trace: seq<Event>, e: Event, kind: Event -> bool)
    ensures Count(trace + [e], kind) == Count(trace, kind) + if kind(e) then 1 else 0
  {
    assert (trace + [e])[..|trace|] == trace;
  }

  lemma {:induction false} CountUnchanged(before: seq<Event>, after: seq<Event>, kind: Event -> bool)
    requires before <= after
    requires forall i :: |before| <= i < |after| ==> !kind(after[i])
    ensures Count(after, kind) == Count(before, kind)
  {
    if |before| < |after| {
      CountUnchanged(before, after[..|after| - 1], kind);
    } else {
      assert before == after;
    }
  }

  // ---- what a stage adds to the trace ----

  // The events a stage may log.
  predicate Fits(stage: Stage, e: Event) {
    match stage
    case Allocate => e == Asked(AllocateClient)
    case ReadDefault => e.Asked? && (e.request.GetDefaultNumber? || e.request.GetDefaultSettings?)
    case Remove => e.Asked? && e.request.DeleteProfile?
    case ReadList => e.Asked? && (e.request.GetProfileList? || e.request.GetProfileSettings?)
    case Verify => e.Missed?
    case Add => e.Told? || (e.Asked? && e.request.CreateProfile?)
    case Change => e.Asked? && e.request.ModifyProfile?
    case SetDefault => e.Asked? && e.request.SetDefaultNumber?
    case Attach => e.Asked? && (e.request.GetAttachList? || e.request.SetAttachList?)
    case Notify => e.Told?
  }

  predicate Appends(stage: Stage, before: World, after: World) {
    && before.trace <= after.trace
    && forall i :: |before.trace| <= i < |after.trace| ==> Fits(stage, after.trace[i])
  }

  lemma {:induction false} FillAppends(w: World, o: Oracle, entries: seq<ListEntry>, i: nat)
    requires i <= |entries|
    ensures var d := FillFrom(w, o, entries, i);
            && Appends(ReadList, w, d.world)
            && d.verdict.Proceed?
            && d.world.store.createRetry == w.store.createRetry
            && d.world.store.clientValid == w.store.clientValid
            && d.world.notify == w.notify && d.world.input == w.input && d.world.present == w.present
            && w.asked <= d.world.asked <= w.asked + (|entries| - i)
    decreases |entries| - i
  {
    if i < |entries| {
      var asking := Ask(w, GetProfileSettings(entries[i].id));
      match Answer(asking, o)
      case Settled(s) =>
        var kept := asking.(store := Appended(asking.store, Assemble(entries[i], s, asking.store.defaultProfile.id)));
        FillAppends(kept, o, entries, i + 1);
      case _ =>
    }
  }

  lemma ListAppends(op: Operation, w: World, o: Oracle)
    ensures var d := PerformReadList(op, w, o);
            && Appends(ReadList, w, d.world)
            && d.verdict.Proceed?
            && d.world.notify == w.notify
            && d.world.store.createRetry == w.store.createRetry
  {
    hide FillFrom;
    var asking := Ask(w.(store := w.store.(collected := false)), GetProfileList);
    match Answer(asking, o)
    case Listed(entries) =>
      if entries != [] {
        FillAppends(asking.(store := asking.store.(table := Some([]))), o, entries, 0);
      }
    case _ =>
  }

  lemma DefaultAppends(w: World, o: Oracle)
    ensures var d := PerformReadDefault(w, o);
            && Appends(ReadDefault, w, d.world)
            && !d.verdict.Exit?
            && d.world.notify == w.notify
            && d.world.store.createRetry == w.store.createRetry
  {
  }

  lemma AttachAppends(w: World, o: Oracle)
    ensures var d := PerformAttach(w, o);
            && Appends(Attach, w, d.world)
            && d.verdict.Proceed?
            && d.world.notify == w.notify
            && d.world.store.createRetry == w.store.createRetry
  {
  }

  lemma AddAppends(w: World, o: Oracle)
    ensures var d := PerformAdd(w, o);
            && Appends(Add, w, d.world)
            && !d.verdict.Exit?
            && d.world.notify == w.notify
            && d.world.store.createRetry == w.store.createRetry
  {
  }

  lemma SetDefaultAppends(op: Operation, w: World, o: Oracle)
    ensures var d := PerformSetDefault(op, w, o);
            && Appends(SetDefault, w, d.world)
            && !d.verdict.Exit?
            && d.world.notify == w.notify
            && d.world.store.createRetry == w.store.createRetry
  {
  }

  lemma VerifyAppends(op: Operation, w: World)
    ensures var d := PerformVerify(op, w);
            && Appends(Verify, w, d.world)
            && !d.verdict.Skip?
            && (d.verdict.Exit? ==> d.world == w)
            && d.world.notify == w.notify
  {
  }

  lemma StageAppends(op: Operation, stage: Stage, w: World, o: Oracle)
    ensures var d := Perform(op, stage, w, o);
            && Appends(stage, w, d.world)
            && d.world.notify == w.notify
            && (d.verdict.Exit? ==> stage.Verify? && d.world == w)
            && (d.verdict.Skip? ==> !stage.Verify?)
            && (!stage.Verify? ==> d.world.store.createRetry == w.store.createRetry)
  {
    hide PerformReadDefault, PerformReadList, PerformVerify, PerformAttach, PerformAdd, PerformSetDefault;
    match stage
    case ReadDefault => DefaultAppends(w, o);
    case ReadList => ListAppends(op, w, o);
    case Verify => VerifyAppends(op, w);
    case Attach => AttachAppends(w, o);
    case Add => AddAppends(w, o);
    case SetDefault => SetDefaultAppends(op, w, o);
    case _ =>
  }

  // ---- one end, at most one status callback ----

  // The stage at which a script stops early, if it does.
  function HaltsAt(op: Operation, stages: seq<Stage>, w: World, o: Oracle): Option<Stage> {
    if stages == [] then None
    else
      var d := Perform(op, stages[0], w, o);
      if d.verdict.Proceed? then HaltsAt(op, stages[1..], d.world, o) else Some(stages[0])
  }

  predicate NotifiesLast(stages: seq<Stage>) {
    forall i :: 0 <= i < |stages| - 1 ==> !stages[i].Notify?
  }

  predicate EndedAfter(before: World, end: World) {
    && Count(end.trace, IsEnd) == Count(before.trace, IsEnd) + 1
    && end.trace != []
    && IsEnd(end.trace[|end.trace| - 1])
  }

  // Every task ends exactly once, as the very last thing: it is released, or the process exits.
  lemma {:induction false} EndsOnce(op: Operation, stages: seq<Stage>, w: World, o: Oracle)
    ensures EndedAfter(w, Run(op, stages, w, o))
    decreases |stages|, 0
  {
    hide Perform;
    if stages == [] {
      CountLog(w.trace, Released, IsEnd);
    } else {
      var d := Perform(op, stages[0], w, o);
      StageAppends(op, stages[0], w, o);
      CountUnchanged(w.trace, d.world.trace, IsEnd);
      ThenEndsOnce(op, d, stages[1..], o);
    }
  }

  lemma {:induction false} ThenEndsOnce(op: Operation, d: Outcome, rest: seq<Stage>, o: Oracle)
    ensures EndedAfter(d.world, Then(op, d, rest, o))
    decreases |rest|, 1
  {
    match d.verdict
    case Proceed => EndsOnce(op, rest, d.world, o);
    case Skip => CountLog(d.world.trace, Released, IsEnd);
    case Exit => CountLog(d.world.trace, ProcessExit, IsEnd);
  }

  lemma StageTells(op: Operation, stage: Stage, w: World, o: Oracle)
    ensures var d := Perform(op, stage, w, o);
            Count(d.world.trace, IsTold) ==
            Count(w.trace, IsTold)
              + if w.notify && (stage.Notify? || (stage.Add? && d.verdict.Skip?)) then 1 else 0
    ensures stage.Notify? ==> Perform(op, stage, w, o).verdict.Proceed?
  {
    hide PerformAdd, PerformAllocate, PerformReadDefault, PerformRemove, PerformReadList, PerformVerify, PerformChange,
         PerformSetDefault, PerformAttach;
    var d := Perform(op, stage, w, o);
    if stage.Notify? {
      CountLog(w.trace, Told(w.input.name, w.input.pdp, FinalStatus(op, w.store)), IsTold);
    } else if stage.Add? {
      AddTells(w, o);
    } else {
      StageAppends(op, stage, w, o);
      CountUnchanged(w.trace, d.world.trace, IsTold);
    }
  }

  lemma AddTells(w: World, o: Oracle)
    ensures var d := PerformAdd(w, o);
            Count(d.world.trace, IsTold) == Count(w.trace, IsTold) + if w.notify && d.verdict.Skip? then 1 else 0
  {
    var asking := Ask(w, CreateProfile(w.input));
    CountLog(w.trace, Asked(CreateProfile(w.input)), IsTold);
    CountLog(asking.trace, Told("unknown", IPv4, NotReady), IsTold);
  }

  // The notifications that a run still adds.
  function Due(notify: bool, halt: Option<Stage>, last: bool): nat {
    if notify && (halt == Some(Add) || (halt.None? && last)) then 1 else 0
  }

  lemma {:induction false} TellsOnce(op: Operation, stages: seq<Stage>, w: World, o: Oracle)
    requires NotifiesLast(stages)
    ensures Count(Run(op, stages, w, o).trace, IsTold) ==
            Count(w.trace, IsTold) + Due(w.notify, HaltsAt(op, stages, w, o), Notify in stages)
    decreases |stages|, 0
  {
    hide Perform;
    if stages == [] {
      CountLog(w.trace, Released, IsTold);
    } else {
      var d := Perform(op, stages[0], w, o);
      StageAppends(op, stages[0], w, o);
      StageTells(op, stages[0], w, o);
      ThenTellsOnce(op, stages[0], d, stages[1..], o);
      assert stages == [stages[0]] + stages[1..];
    }
  }

  lemma {:induction false} ThenTellsOnce(op: Operation, stage: Stage, d: Outcome, rest: seq<Stage>, o: Oracle)
    requires NotifiesLast([stage] + rest)
    ensures Count(Then(op, d, rest, o).trace, IsTold) ==
            Count(d.world.trace, IsTold)
              + if d.verdict.Proceed? then Due(d.world.notify, HaltsAt(op, rest, d.world, o), Notify in rest) else 0
    decreases |rest|, 1
  {
    match d.verdict
    case Proceed =>
      assert forall i :: 0 <= i < |rest| - 1 ==> ([stage] + rest)[i + 1] == rest[i];
      TellsOnce(op, rest, d.world, o);
    case Skip => CountLog(d.world.trace, Released, IsTold);
    case Exit => CountLog(d.world.trace, ProcessExit, IsTold);
  }

  // A create, delete or modify with a callback calls it exactly once when its script runs through or the creation
  // fails, and never when it stops anywhere else. A list never does.
  lemma StatusCallback(op: Operation, w: World, o: Oracle)
    ensures var halt := HaltsAt(op, Script(op), w, o);
            Count(Run(op, Script(op), w, o).trace, IsTold) ==
            Count(w.trace, IsTold) + if w.notify && !op.List? && (halt.None? || halt == Some(Add)) then 1 else 0
  {
    TellsOnce(op, Script(op), w, o);
    assert op.List? ==> Add !in Script(op);
    if op.List? {
      assert HaltsAt(op, Script(op), w, o) != Some(Add) by {
        HaltIsAStage(op, Script(op), w, o);
      }
    } else {
      assert Script(op)[|Script(op)| - 1] == Notify;
    }
  }

  lemma {:induction false} HaltIsAStage(op: Operation, stages: seq<Stage>, w: World, o: Oracle)
    ensures var halt := HaltsAt(op, stages, w, o);
            halt.Some? ==> halt.value in stages
    decreases |stages|
  {
    if stages != [] && Perform(op, stages[0], w, o).verdict.Proceed? {
      HaltIsAStage(op, stages[1..], Perform(op, stages[0], w, o).world, o);
    }
  }

  // ---- when a profile is created ----

  // The profile a create or modify looks for once a table is loaded.
  function Wanted(w: World): Profile {
    if w.input.apn == "" then w.store.defaultProfile else w.input
  }

  // The check against a loaded table depends on agreement alone: passing over the entry under change in the first scan
  // makes no difference, because the second scan does not.
  lemma VerifyDecidesByAgreement(op: Operation, w: World)
    requires w.store.table.Some?
    ensures var table, after := w.store.table.value, PerformVerify(op, w).world;
            && (after.present <==> exists j :: 0 <= j < |table| && Agrees(table[j], Wanted(w)))
            && (after.present ==>
                  && after.store.matched
                  && Agrees(after.input, Wanted(w))
                  && after.store.table.Some?
                  && after.input in after.store.table.value)
            && (!after.present ==>
                  && after.input == Wanted(w)
                  && after.store.table == w.store.table
                  && after.trace == w.trace + [Missed]
                  && after.store.fetchRetry == 0
                  && after.store.createRetry == if w.store.createRetry >= 2 then 0 else w.store.createRetry + 1)
  {
    hide PerformVerify, Agrees;
    var table := w.store.table.value;
    match FirstMatch(table, Wanted(w), op.Modify?, 0)
    case Some(i) =>
      FirstScanAdopts(op, w, i);
      assert Agrees(table[i], Wanted(w));
    case None =>
      match FirstMatch(table, Wanted(w), false, 0)
      case Some(i) =>
        SecondScanAdopts(op, w, i);
        assert Agrees(table[i], Wanted(w));
      case None =>
        BothScansMiss(op, w);
  }

  predicate Adopts(w: World, after: World) {
    && after.present
    && after.store.matched
    && Agrees(after.input, Wanted(w))
    && after.store.table.Some?
    && after.input in after.store.table.value
  }

  lemma FirstScanAdopts(op: Operation, w: World, i: nat)
    requires w.store.table.Some? && FirstMatch(w.store.table.value, Wanted(w), op.Modify?, 0) == Some(i)
    ensures Agrees(w.store.table.value[i], Wanted(w)) && Adopts(w, PerformVerify(op, w).world)
  {
    AdoptedAgrees(w.(input := Wanted(w), present := false), w.store.table.value, i);
  }

  lemma SecondScanAdopts(op: Operation, w: World, i: nat)
    requires w.store.table.Some? && FirstMatch(w.store.table.value, Wanted(w), op.Modify?, 0).None?
    requires FirstMatch(w.store.table.value, Wanted(w), false, 0) == Some(i)
    ensures Agrees(w.store.table.value[i], Wanted(w)) && Adopts(w, PerformVerify(op, w).world)
  {
    AdoptedAgrees(Missing(w.(input := Wanted(w), present := false)), w.store.table.value, i);
  }

  lemma BothScansMiss(op: Operation, w: World)
    requires w.store.table.Some? && FirstMatch(w.store.table.value, Wanted(w), op.Modify?, 0).None?
    requires FirstMatch(w.store.table.value, Wanted(w), false, 0).None?
    ensures forall j :: 0 <= j < |w.store.table.value| ==> !Agrees(w.store.table.value[j], Wanted(w))
    ensures var after := PerformVerify(op, w).world;
            && !after.present
            && after.input == Wanted(w)
            && after.store.table == w.store.table
            && after.trace == w.trace + [Missed]
            && after.store.fetchRetry == 0
            && after.store.createRetry == if w.store.createRetry >= 2 then 0 else w.store.createRetry + 1
  {
    hide PerformVerify, Agrees;
    MissCounted(op, w);
    forall j | 0 <= j < |w.store.table.value|
      ensures !Agrees(w.store.table.value[j], Wanted(w))
    {
      assert !Candidate(w.store.table.value[j], Wanted(w), false);
    }
  }

  lemma MissCounted(op: Operation, w: World)
    requires w.store.table.Some? && FirstMatch(w.store.table.value, Wanted(w), op.Modify?, 0).None?
    requires FirstMatch(w.store.table.value, Wanted(w), false, 0).None?
    ensures var after := PerformVerify(op, w).world;
            && !after.present
            && after.input == Wanted(w)
            && after.store.table == w.store.table
            && after.trace == w.trace + [Missed]
            && after.store.fetchRetry == 0
            && after.store.createRetry == if w.store.createRetry >= 2 then 0 else w.store.createRetry + 1
  {
    hide Agrees, Adopted, FirstMatch;
  }

  lemma AdoptedAgrees(w: World, table: seq<Profile>, i: nat)
    requires i < |table| && Agrees(table[i], w.input)
    ensures var after := Adopted(w, table, i);
            && Agrees(after.input, w.input)
            && after.store.table.Some?
            && after.input in after.store.table.value
  {
    var entry := if w.input.isDefault then table[i].(isDefault := true) else table[i];
    assert table[i := entry][i] == entry;
  }

  // Two names that differ at most in the case of letters from A to Z.
  predicate SameLetters(a: string, b: string) {
    && |a| == |b|
    && forall i :: 0 <= i < |a| ==>
         || a[i] == b[i]
         || ('A' <= a[i] <= 'Z' && b[i] as int == a[i] as int + 32)
         || ('A' <= b[i] <= 'Z' && a[i] as int == b[i] as int + 32)
  }

  // Profiles agree exactly if one can be made the other by changing the identifier, kind, context, name, flags and mark,
  // and the case of letters in the APN.
  lemma AgreesUpToNames(p: Profile, q: Profile)
    ensures Agrees(p, q) <==>
              && SameLetters(p.apn, q.apn)
              && p.(id := q.id, kind := q.kind, context := q.context, name := q.name, noRoaming := q.noRoaming,
                    apnDisabled := q.apnDisabled, isDefault := q.isDefault, apn := q.apn) == q
  {
    SameLower(p.apn, q.apn);
  }

  lemma SameLower(a: string, b: string)
    ensures Lower(a) == Lower(b) <==> SameLetters(a, b)
  {
    if Lower(a) == Lower(b) {
      forall i | 0 <= i < |a|
        ensures LowerChar(a[i]) == LowerChar(b[i])
      {
        assert Lower(a)[i] == LowerChar(a[i]) && Lower(b)[i] == LowerChar(b[i]);
      }
    }
  }

  predicate IsCreation(e: Event) {
    e.Asked? && e.request.CreateProfile?
  }

  predicate Later(stage: Stage) {
    stage.SetDefault? || stage.Attach? || stage.Notify?
  }

  lemma LaterStage(op: Operation, stage: Stage, w: World, o: Oracle)
    requires Later(stage)
    ensures Perform(op, stage, w, o).world.store.table == w.store.table
    ensures Appends(stage, w, Perform(op, stage, w, o).world)
  {
    StageAppends(op, stage, w, o);
  }

  // The stages after the creation leave the table alone and create nothing.
  lemma {:induction false} TableKept(op: Operation, stages: seq<Stage>, w: World, o: Oracle)
    requires forall i :: 0 <= i < |stages| ==> Later(stages[i])
    ensures var end := Run(op, stages, w, o);
            && end.store.table == w.store.table
            && w.trace <= end.trace
            && forall i :: |w.trace| <= i < |end.trace| ==> !IsCreation(end.trace[i])
    decreases |stages|
  {
    hide Perform;
    if stages != [] {
      var d := Perform(op, stages[0], w, o);
      LaterStage(op, stages[0], w, o);
      if d.verdict.Proceed? {
        TableKept(op, stages[1..], d.world, o);
      }
    }
  }

  // Whatever a task creates agrees with no profile of the table it ends with.
  ghost predicate CreatesOnlyMissing(before: World, end: World) {
    && before.trace <= end.trace
    && forall i, j ::
         |before.trace| <= i < |end.trace| && IsCreation(end.trace[i])
         && end.store.table.Some? && 0 <= j < |end.store.table.value|
         ==> !Agrees(end.store.table.value[j], end.trace[i].request.profile)
  }

  lemma AddCreatesOnlyMissing(w: World, o: Oracle)
    requires w.store.table.Some? && !w.present ==>
               forall j :: 0 <= j < |w.store.table.value| ==> !Agrees(w.store.table.value[j], w.input)
    ensures CreatesOnlyMissing(w, Run(Create, Script(Create)[4..], w, o))
  {
    AddCreates(w, o);
    CreatesThenKeeps(w, PerformAdd(w, o), o);
    assert Script(Create)[4..][0] == Add && Script(Create)[4..][1..] == Script(Create)[5..];
  }

  lemma AddCreates(w: World, o: Oracle)
    ensures var after := PerformAdd(w, o).world;
            && w.trace <= after.trace
            && after.store.table == w.store.table
            && forall i :: |w.trace| <= i < |after.trace| && IsCreation(after.trace[i]) ==>
                             !w.present && after.trace[i].request.profile == w.input
  {
  }

  lemma CreatesThenKeeps(w: World, d: Outcome, o: Oracle)
    requires w.trace <= d.world.trace && d.world.store.table == w.store.table
    requires forall i :: |w.trace| <= i < |d.world.trace| && IsCreation(d.world.trace[i]) ==>
                           !w.present && d.world.trace[i].request.profile == w.input
    requires w.store.table.Some? && !w.present ==>
               forall j :: 0 <= j < |w.store.table.value| ==> !Agrees(w.store.table.value[j], w.input)
    ensures CreatesOnlyMissing(w, Then(Create, d, Script(Create)[5..], o))
  {
    hide Run, Agrees;
    if d.verdict.Proceed? {
      TableKept(Create, Script(Create)[5..], d.world, o);
    }
  }

  lemma CheckedCreatesOnlyMissing(w: World, o: Oracle)
    ensures CreatesOnlyMissing(w, Run(Create, Script(Create)[3..], w, o))
  {
    CheckKeepsTrace(w);
    CheckedThenAdds(w, PerformVerify(Create, w), o);
    assert Script(Create)[3..][0] == Verify && Script(Create)[3..][1..] == Script(Create)[4..];
  }

  lemma CheckKeepsTrace(w: World)
    ensures var d := PerformVerify(Create, w);
            && NoCreationBetween(w, d.world)
            && !d.verdict.Skip?
            && (d.world.store.table.Some? && !d.world.present ==>
                  var table := d.world.store.table.value;
                  forall j :: 0 <= j < |table| ==> !Agrees(table[j], d.world.input))
  {
    VerifyAppends(Create, w);
    if w.store.table.Some? {
      VerifyDecidesByAgreement(Create, w);
    }
  }

  lemma CheckedThenAdds(w: World, d: Outcome, o: Oracle)
    requires NoCreationBetween(w, d.world) && !d.verdict.Skip?
    requires d.world.store.table.Some? && !d.world.present ==>
               var table := d.world.store.table.value;
               forall j :: 0 <= j < |table| ==> !Agrees(table[j], d.world.input)
    ensures CreatesOnlyMissing(w, Then(Create, d, Script(Create)[4..], o))
  {
    if d.verdict.Proceed? {
      AddCreatesOnlyMissing(d.world, o);
      Widened(w, d.world, Then(Create, d, Script(Create)[4..], o));
    }
  }

  predicate NoCreationBetween(before: World, after: World) {
    && before.trace <= after.trace
    && forall i :: |before.trace| <= i < |after.trace| ==> !IsCreation(after.trace[i])
  }

  lemma Widened(before: World, mid: World, end: World)
    requires NoCreationBetween(before, mid) && CreatesOnlyMissing(mid, end)
    ensures CreatesOnlyMissing(before, end)
  {
    forall i | |before.trace| <= i < |mid.trace|
      ensures !IsCreation(end.trace[i])
    {
      assert end.trace[i] == mid.trace[i];
    }
  }

  lemma {:induction false} TailCreatesOnlyMissing(k: nat, w: World, o: Oracle)
    requires k <= 3
    ensures CreatesOnlyMissing(w, Run(Create, Script(Create)[k..], w, o))
    decreases 3 - k
  {
    hide PerformAllocate, PerformReadDefault, PerformReadList, PerformVerify;
    if k == 3 {
      CheckedCreatesOnlyMissing(w, o);
    } else {
      var d := Perform(Create, Script(Create)[k], w, o);
      StageAppends(Create, Script(Create)[k], w, o);
      assert Script(Create)[k..][1..] == Script(Create)[k + 1..];
      if d.verdict.Proceed? {
        TailCreatesOnlyMissing(k + 1, d.world, o);
        Widened(w, d.world, Run(Create, Script(Create)[k + 1..], d.world, o));
      }
    }
  }

  // A create never asks for a profile when the loaded table has one that agrees with it.
  lemma CreatesNoDuplicate(w: World, o: Oracle)
    ensures CreatesOnlyMissing(w, Run(Create, Script(Create), w, o))
  {
    assert Script(Create)[0..] == Script(Create);
    TailCreatesOnlyMissing(0, w, o);
  }
}
