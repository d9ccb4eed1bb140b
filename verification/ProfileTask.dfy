/**
 The coroutine behind the four profile operations.

 One switch, entered at the case of the current step, falls through the bodies of all four operations until a body
 asks the modem and returns. Each answer is handled by a callback that moves the step and enters the switch again.
 The proof obligation is Future: whatever the task still has to do is what the script still has to do.
 */
module ProfileTask {
  import opened Wrappers
  import opened ProfileScript

  // The step numbers of the four enumerations, which are laid end to end.
  const CREATE_BEGIN := 1
  const CREATE_END := 10
  const DELETE_BEGIN := 11
  const DELETE_END := 16
  const MODIFY_BEGIN := 17
  const MODIFY_END := 24
  const GETLIST_BEGIN := 25
  const GETLIST_END := 29

  // The case bodies of the switch, in the order in which they fall through.
  const CASE_BEGIN := 0
  const CASE_ALLOCATE := 1
  const CASE_READ_DEFAULT := 2
  const CASE_DELETE := 3
  const CASE_READ_LIST := 4
  const CASE_VERIFY := 5
  const CASE_CREATE := 6
  const CASE_MODIFY := 7
  const CASE_SET_DEFAULT := 8
  const CASE_ATTACH := 9
  const CASE_NOTIFY := 10
  const CASE_END := 11

  // The body at which the switch is entered. Step 22, the attach step of a modify, has no label of its own.
  function CaseOf(step: nat): nat {
    if step in {1, 11, 17, 25} then CASE_BEGIN
    else if step in {2, 12, 18, 26} then CASE_ALLOCATE
    else if step in {3, 27} then CASE_READ_DEFAULT
    else if step == 13 then CASE_DELETE
    else if step in {4, 14, 28} then CASE_READ_LIST
    else if step in {5, 19} then CASE_VERIFY
    else if step == 6 then CASE_CREATE
    else if step == 20 then CASE_MODIFY
    else if step in {7, 21} then CASE_SET_DEFAULT
    else if step == 8 then CASE_ATTACH
    else if step in {9, 15, 23} then CASE_NOTIFY
    else CASE_END
  }

  function FirstStep(op: Operation): nat {
    match op
    case Create => CREATE_BEGIN
    case Delete => DELETE_BEGIN
    case Modify => MODIFY_BEGIN
    case List => GETLIST_BEGIN
  }

  function LastStep(op: Operation): nat {
    match op
    case Create => CREATE_END
    case Delete => DELETE_END
    case Modify => MODIFY_END
    case List => GETLIST_END
  }

  // The stage a case body performs for an operation, if the body is meant for it.
  function StageAt(op: Operation, at: nat): Option<Stage> {
    if at == CASE_ALLOCATE then Some(Allocate)
    else if at == CASE_READ_DEFAULT && (op.Create? || op.List?) then Some(ReadDefault)
    else if at == CASE_DELETE && op.Delete? then Some(Remove)
    else if at == CASE_READ_LIST && !op.Modify? then Some(ReadList)
    else if at == CASE_VERIFY && (op.Create? || op.Modify?) then Some(Verify)
    else if at == CASE_CREATE && op.Create? then Some(Add)
    else if at == CASE_MODIFY && op.Modify? then Some(Change)
    else if at == CASE_SET_DEFAULT && (op.Create? || op.Modify?) then Some(SetDefault)
    else if at == CASE_ATTACH && op.Create? then Some(Attach)
    else if at == CASE_NOTIFY && !op.List? then Some(Notify)
    else None
  }

  // The stages met when the switch is entered at a case body and never left.
  function StagesFrom(op: Operation, at: nat): seq<Stage>
    decreases CASE_END - at
  {
    if at >= CASE_END then []
    else
      var rest := StagesFrom(op, at + 1);
      if StageAt(op, at).Some? then [StageAt(op, at).value] + rest else rest
  }

  // Falling through the shared bodies from the top meets exactly the stages of the operation's script, in order.
  lemma FallThroughOrder(op: Operation)
    ensures StagesFrom(op, CASE_BEGIN) == Script(op)
  {
    assert StagesFrom(op, CASE_NOTIFY) == if op.List? then [] else [Stage.Notify];
    assert StagesFrom(op, CASE_SET_DEFAULT) ==
           match op
           case Create => [SetDefault, Attach, Stage.Notify]
           case Modify => [SetDefault, Stage.Notify]
           case Delete => [Stage.Notify]
           case List => [];
    assert StagesFrom(op, CASE_VERIFY) ==
           match op
           case Create => [Verify, Add, SetDefault, Attach, Stage.Notify]
           case Modify => [Verify, Change, SetDefault, Stage.Notify]
           case Delete => [Stage.Notify]
           case List => [];
  }

  lemma Enter(op: Operation, at: nat, w: World, o: Oracle)
    requires at < CASE_END
    ensures Run(op, StagesFrom(op, at), w, o) ==
            match StageAt(op, at)
            case Some(stage) => Then(op, Perform(op, stage, w, o), StagesFrom(op, at + 1), o)
            case None => Run(op, StagesFrom(op, at + 1), w, o)
  {
    if StageAt(op, at).Some? {
      assert StagesFrom(op, at)[1..] == StagesFrom(op, at + 1);
    }
  }

  // The step at which a request of an operation is outstanding.
  function StepOf(op: Operation, request: Request): nat {
    match request
    case AllocateClient => FirstStep(op) + 1
    case GetDefaultNumber => FirstStep(op) + 2
    case GetDefaultSettings(_) => FirstStep(op) + 2
    case DeleteProfile(_) => 13
    case GetProfileList => if op.Delete? then 14 else FirstStep(op) + 3
    case GetProfileSettings(_) => if op.Delete? then 14 else FirstStep(op) + 3
    case CreateProfile(_) => 6
    case ModifyProfile(_) => 20
    case SetDefaultNumber(_, _) => if op.Modify? then 21 else 7
    case GetAttachList => 8
    case SetAttachList(_) => 8
  }

  // The case body that leaves a request outstanding.
  function HomeOf(request: Request): nat {
    match request
    case AllocateClient => CASE_ALLOCATE
    case GetDefaultNumber => CASE_READ_DEFAULT
    case GetDefaultSettings(_) => CASE_READ_DEFAULT
    case DeleteProfile(_) => CASE_DELETE
    case GetProfileList => CASE_READ_LIST
    case GetProfileSettings(_) => CASE_READ_LIST
    case CreateProfile(_) => CASE_CREATE
    case ModifyProfile(_) => CASE_MODIFY
    case SetDefaultNumber(_, _) => CASE_SET_DEFAULT
    case GetAttachList => CASE_ATTACH
    case SetAttachList(_) => CASE_ATTACH
  }

  // Which operations can have a request outstanding.
  predicate Belongs(op: Operation, request: Request) {
    match request
    case AllocateClient => true
    case GetDefaultNumber => op.Create? || op.List?
    case GetDefaultSettings(_) => op.Create? || op.List?
    case DeleteProfile(_) => op.Delete?
    case GetProfileList => !op.Modify?
    case GetProfileSettings(_) => !op.Modify?
    case CreateProfile(_) => op.Create?
    case ModifyProfile(_) => op.Modify?
    case SetDefaultNumber(_, _) => op.Create? || op.Modify?
    case GetAttachList => op.Create?
    case SetAttachList(_) => op.Create?
  }

  lemma {:induction false} NoStagesBetween(op: Operation, from: nat, to: nat)
    requires from <= to <= CASE_END
    requires forall k :: from <= k < to ==> StageAt(op, k).None?
    ensures StagesFrom(op, from) == StagesFrom(op, to)
  {
    if from < to {
      NoStagesBetween(op, from, to - 1);
    }
  }

  // The step after an outstanding request enters the switch where the next stage of the script is. The one exception
  // is the default profile set by a modify, whose next step has no case.
  lemma Lands(op: Operation, request: Request)
    requires Belongs(op, request)
    ensures if op.Modify? && request.SetDefaultNumber? then CaseOf(StepOf(op, request) + 1) == CASE_END
            else StagesFrom(op, CaseOf(StepOf(op, request) + 1)) == StagesFrom(op, HomeOf(request) + 1)
  {
    if !(op.Modify? && request.SetDefaultNumber?) {
      NoStagesBetween(op, HomeOf(request) + 1, CaseOf(StepOf(op, request) + 1));
    }
  }

  // The step at which each case body is reached, as far as the rest of the switch depends on it.
  predicate Aligned(op: Operation, at: nat, step: nat, unhindered: bool, isDefault: bool, present: bool) {
    match op
    case Create =>
      && (at == CASE_BEGIN ==> step == 1)
      && (at == CASE_ALLOCATE ==> step == 2)
      && (at == CASE_READ_DEFAULT ==> step == 3)
      && (at == CASE_DELETE || at == CASE_READ_LIST ==> step == 4)
      && (at == CASE_VERIFY ==> step == 5)
      && (at == CASE_CREATE ==> step == 6)
      && (at == CASE_MODIFY || at == CASE_SET_DEFAULT ==> step == 7 || !unhindered)
      && (at == CASE_ATTACH ==> step == 8 || !unhindered || !isDefault)
    case Delete =>
      && (at == CASE_BEGIN ==> step == 11)
      && (at == CASE_ALLOCATE ==> step == 12)
      && (at == CASE_READ_DEFAULT || at == CASE_DELETE ==> step == 13)
      && (at == CASE_READ_LIST ==> step == 14)
    case Modify =>
      && (at == CASE_BEGIN ==> step == 17)
      && (at == CASE_ALLOCATE ==> step == 18)
      && (CASE_READ_DEFAULT <= at <= CASE_VERIFY ==> step == 19)
      && (at == CASE_CREATE || at == CASE_MODIFY ==> step == 20)
      && (at == CASE_SET_DEFAULT ==> step == 21 || present)
      && (at == CASE_ATTACH ==> !isDefault || present)
    case List =>
      && (at == CASE_BEGIN ==> step == 25)
      && (at == CASE_ALLOCATE ==> step == 26)
      && (at == CASE_READ_DEFAULT ==> step == 27)
      && (at == CASE_DELETE || at == CASE_READ_LIST ==> step == 28)
      && (CASE_VERIFY <= at ==> step == 29)
  }

  // The step after an outstanding request is aligned with its case, and so is the last one.
  lemma LandsAligned(op: Operation, request: Request, unhindered: bool, isDefault: bool, present: bool)
    requires Belongs(op, request)
    ensures var next := StepOf(op, request) + 1;
            Aligned(op, CaseOf(next), next, unhindered, isDefault, present)
    ensures CaseOf(LastStep(op)) == CASE_END
    ensures Aligned(op, CASE_END, LastStep(op), unhindered, isDefault, present)
  {
  }

  // What is left to do after an answered request, in the script and in the switch.
  lemma Onward(op: Operation, request: Request, w: World, o: Oracle)
    requires Belongs(op, request)
    ensures var done := Outcome(w, if op.Modify? && request.SetDefaultNumber? then Skip else Proceed);
            Run(op, StagesFrom(op, CaseOf(StepOf(op, request) + 1)), w, o) ==
            Then(op, done, StagesFrom(op, HomeOf(request) + 1), o)
  {
    Lands(op, request);
  }

  lemma AtEnd(op: Operation, w: World, rest: seq<Stage>, o: Oracle)
    ensures Run(op, StagesFrom(op, CASE_END), w, o) == Then(op, Outcome(w, Skip), rest, o)
  {
  }

  class Engine {
    // the WDS context
    var clientValid: bool
    var defaultCached: bool
    var defaultFromDb: Profile
    var defaultProfile: Profile
    var table: Option<seq<Profile>>
    var collected: bool
    // the file's static counters
    var fetchRetry: nat
    var matched: bool
    var createRetry: nat
    // the task context
    var op: Operation
    var step: nat
    var lastStep: nat
    var input: Profile
    var present: bool
    var notify: bool
    // the list being read
    var entries: seq<ListEntry>
    var iteration: nat
    // the request whose answer is awaited; none once the task is over
    var pending: Option<Request>

    // the requests made so far, and everything observable so far
    var asked: nat
    ghost var trace: seq<Event>

    ghost function View(): World
      reads this
    {
      World(Store(clientValid, defaultCached, defaultProfile, table, collected, fetchRetry, matched, createRetry),
            input, present, notify, asked, trace)
    }

    ghost predicate Valid()
      reads this
    {
      && lastStep == LastStep(op)
      && iteration <= |entries|
      && (pending.Some? ==>
            && asked > 0
            && Belongs(op, pending.value)
            && step == StepOf(op, pending.value)
            && (pending.value.GetProfileSettings? ==> iteration < |entries|))
    }

    // How the stage in progress will turn out if the modem answers as o says.
    ghost function InProgress(o: Oracle): Outcome
      requires Valid() && pending.Some?
      reads this
    {
      match pending.value
      case AllocateClient => ClientReply(View(), o)
      case GetDefaultNumber => NumberReply(View(), o)
      case GetDefaultSettings(_) => SettingsReply(View(), o)
      case DeleteProfile(_) => RemoveReply(View(), o)
      case GetProfileList => ListReply(View(), o)
      case GetProfileSettings(_) => FillReply(View(), o, entries, iteration)
      case CreateProfile(_) => CreateReply(View(), o)
      case ModifyProfile(_) => ChangeReply(View(), o)
      case SetDefaultNumber(_, _) => DefaultSetReply(op, View(), o)
      case GetAttachList => AttachListReply(View(), o)
      case SetAttachList(_) => AttachSetReply(View(), o)
    }

    // The state in which the task will end.
    ghost function Future(o: Oracle): World
      requires Valid()
      reads this
    {
      if pending.None? then View()
      else Then(op, InProgress(o), StagesFrom(op, HomeOf(pending.value) + 1), o)
    }

    // What the script does from a case body on.
    ghost function Rest(at: nat, o: Oracle): World
      reads this
    {
      Run(op, StagesFrom(op, at), View(), o)
    }

    // The case body "at" is where the current step says it is, as far as that still matters.
    ghost predicate InStep(at: nat)
      reads this
    {
      && lastStep == LastStep(op)
      && iteration <= |entries|
      && pending.None?
      && Aligned(op, at, step, Unhindered(View().store), input.isDefault, present)
    }

    ghost method Record(e: Event)
      modifies this`trace
      ensures trace == old(trace) + [e]
    {
      trace := trace + [e];
    }

    method Request(request: Request)
      modifies this`pending, this`asked, this`trace
      ensures pending == Some(request) && View() == Ask(old(View()), request)
    {
      pending := Some(request);
      asked := asked + 1;
      Record(Asked(request));
    }

    method Notify(name: string, pdp: PdpType, status: Status)
      modifies this`trace
      ensures View() == Tell(old(View()), name, pdp, status)
    {
      if notify {
        Record(Told(name, pdp, status));
      }
    }

    // A body not meant for the operation leaves everything to the next one.
    twostate predicate PassesBy(at: nat, stop: bool)
      reads this
    {
      !stop && op == old(op) && step >= old(step) && View() == old(View()) && InStep(at + 1)
    }

    // A body that performs its stage stops the switch with the stage in progress or by ending the process, or else
    // falls through with the stage done.
    twostate predicate Performs(at: nat, done: Outcome, o: Oracle, stop: bool)
      reads this
    {
      && op == old(op)
      && step >= old(step)
      && if !stop then done == Outcome(View(), Proceed) && InStep(at + 1)
         else
           && Valid()
           && if pending.Some? then HomeOf(pending.value) == at && done == InProgress(o)
              else done.verdict.Exit? && View() == Log(done.world, ProcessExit)
    }

    method CaseBegin(ghost o: Oracle)
      requires InStep(CASE_BEGIN)
      modifies this
      ensures PassesBy(CASE_BEGIN, false)
    {
      step := step + 1;
    }

    method CaseAllocate(ghost o: Oracle) returns (stop: bool)
      requires InStep(CASE_ALLOCATE)
      modifies this
      ensures Performs(CASE_ALLOCATE, PerformAllocate(old(View()), o), o, stop)
    {
      if !clientValid {
        Request(AllocateClient);
        return true;
      }
      step := step + 1;
      return false;
    }

    method CaseReadDefault(ghost o: Oracle) returns (stop: bool)
      requires InStep(CASE_READ_DEFAULT)
      modifies this
      ensures if op.Create? || op.List? then Performs(CASE_READ_DEFAULT, PerformReadDefault(old(View()), o), o, stop)
              else PassesBy(CASE_READ_DEFAULT, stop)
    {
      if op.Create? || op.List? {
        if !defaultCached {
          Request(GetDefaultNumber);
          return true;
        }
        step := step + 1;
      }
      return false;
    }

    method CaseDelete(ghost o: Oracle) returns (stop: bool)
      requires InStep(CASE_DELETE)
      modifies this
      ensures if op.Delete? then Performs(CASE_DELETE, PerformRemove(old(View()), o), o, stop)
              else PassesBy(CASE_DELETE, stop)
    {
      if op.Delete? {
        Request(DeleteProfile(input.id));
        return true;
      }
      return false;
    }

    method RequestList()
      requires InStep(CASE_READ_LIST) && !op.Modify?
      modifies this`collected, this`pending, this`asked, this`trace
      ensures Valid() && pending == Some(GetProfileList)
      ensures View() == Ask(old(View().(store := View().store.(collected := false))), GetProfileList)
    {
      collected := false;
      Request(GetProfileList);
    }

    method CaseReadList(ghost o: Oracle) returns (stop: bool)
      requires InStep(CASE_READ_LIST)
      modifies this
      ensures if !op.Modify? then Performs(CASE_READ_LIST, PerformReadList(op, old(View()), o), o, stop)
              else PassesBy(CASE_READ_LIST, stop)
    {
      if op.Create? || op.Delete? || op.List? {
        if table.None? || op.List? || op.Delete? {
          RequestList();
          return true;
        }
        step := step + 1;
      }
      return false;
    }

    method Scan(profiles: seq<Profile>, skipOwn: bool) returns (hit: Option<nat>)
      ensures hit == FirstMatch(profiles, input, skipOwn, 0)
    {
      var i := 0;
      while i < |profiles|
        invariant i <= |profiles|
        invariant FirstMatch(profiles, input, skipOwn, i) == FirstMatch(profiles, input, skipOwn, 0)
      {
        if !(skipOwn && input.id == profiles[i].id) && Agrees(profiles[i], input) {
          return Some(i);
        }
        i := i + 1;
      }
      return None;
    }

    method Adopt(profiles: seq<Profile>, i: nat)
      requires i < |profiles|
      modifies this`present, this`matched, this`table, this`input
      ensures View() == Adopted(old(View()), profiles, i)
    {
      present := true;
      matched := true;
      var entry := profiles[i];
      if input.isDefault {
        entry := entry.(isDefault := true);
      }
      table := Some(profiles[i := entry]);
      input := entry;
    }

    // The first scan, over the entries the operation may stop at.
    method LookUp(profiles: seq<Profile>)
      requires table == Some(profiles)
      modifies this`present, this`matched, this`table, this`input
      ensures var before := old(View());
              var looking := before.(input := if before.input.apn == "" then before.store.defaultProfile else before.input,
                                     present := false);
              View() == match FirstMatch(profiles, looking.input, op.Modify?, 0)
                        case Some(i) => Adopted(looking, profiles, i)
                        case None => looking
    {
      present := false;
      if input.apn == "" {
        input := defaultProfile;
      }
      var hit := Scan(profiles, op.Modify?);
      if hit.Some? {
        Adopt(profiles, hit.value);
      }
    }

    // The bookkeeping of a miss and the second scan, over all entries.
    method CountMiss(profiles: seq<Profile>)
      requires table == Some(profiles)
      modifies this`present, this`matched, this`table, this`input, this`fetchRetry, this`createRetry, this`trace
      ensures View() == Wrapped(Recheck(Missing(old(View())), profiles))
    {
      fetchRetry := 0;
      createRetry := createRetry + 1;
      Record(Missed);
      var hit := Scan(profiles, false);
      if hit.Some? {
        createRetry := 0;
        Adopt(profiles, hit.value);
      }
      if createRetry > 2 {
        createRetry := 0;
      }
    }

    method VerifyAgainstTable()
      requires table.Some?
      modifies this`present, this`matched, this`table, this`input, this`fetchRetry, this`createRetry, this`trace
      ensures PerformVerify(op, old(View())) == Outcome(View(), Proceed)
    {
      LookUp(table.value);
      if !present {
        CountMiss(table.value);
      }
    }

    method CaseVerify(ghost o: Oracle) returns (stop: bool)
      requires InStep(CASE_VERIFY)
      modifies this
      ensures if op.Create? || op.Modify? then Performs(CASE_VERIFY, PerformVerify(op, old(View())), o, stop)
              else PassesBy(CASE_VERIFY, stop)
    {
      hide Adopted, FirstMatch, Missing, Recheck, Run, StagesFrom, Wrapped;
      if op.Create? || op.Modify? {
        if table.None? {
          if !present && fetchRetry > 20 {
            Record(ProcessExit);
            return true;
          }
        } else {
          VerifyAgainstTable();
        }
        step := step + 1;
      }
      return false;
    }

    method CaseCreate(ghost o: Oracle) returns (stop: bool)
      requires InStep(CASE_CREATE)
      modifies this
      ensures if op.Create? then Performs(CASE_CREATE, PerformAdd(old(View()), o), o, stop)
              else PassesBy(CASE_CREATE, stop)
    {
      if op.Create? && createRetry == 0 && fetchRetry == 0 {
        if !present {
          Request(CreateProfile(input));
          return true;
        }
        step := step + 1;
      }
      return false;
    }

    method CaseModify(ghost o: Oracle) returns (stop: bool)
      requires InStep(CASE_MODIFY)
      modifies this
      ensures if op.Modify? then Performs(CASE_MODIFY, PerformChange(old(View()), o), o, stop)
              else PassesBy(CASE_MODIFY, stop)
    {
      if op.Modify? {
        if !present {
          Request(ModifyProfile(input));
          return true;
        }
      }
      return false;
    }

    method CaseSetDefault(ghost o: Oracle) returns (stop: bool)
      requires InStep(CASE_SET_DEFAULT)
      modifies this
      ensures if op.Create? || op.Modify? then Performs(CASE_SET_DEFAULT, PerformSetDefault(op, old(View()), o), o, stop)
              else PassesBy(CASE_SET_DEFAULT, stop)
    {
      if (op.Create? && createRetry == 0 && fetchRetry == 0) || op.Modify? {
        if input.isDefault {
          if op.Create? || (op.Modify? && !present) {
            Request(SetDefaultNumber(input.kind, input.id));
            return true;
          }
        }
      }
      return false;
    }

    method CaseAttach(ghost o: Oracle) returns (stop: bool)
      requires InStep(CASE_ATTACH)
      modifies this
      ensures if op.Create? then Performs(CASE_ATTACH, PerformAttach(old(View()), o), o, stop)
              else PassesBy(CASE_ATTACH, stop)
    {
      if (op.Create? && createRetry == 0 && fetchRetry == 0) || op.Modify? {
        if input.isDefault {
          if op.Create? || (op.Modify? && !present) {
            Request(GetAttachList);
            return true;
          }
        }
      }
      return false;
    }

    method CaseNotify(ghost o: Oracle)
      requires InStep(CASE_NOTIFY)
      modifies this
      ensures if !op.List? then Performs(CASE_NOTIFY, PerformNotify(op, old(View())), o, false)
              else PassesBy(CASE_NOTIFY, false)
    {
      if op.Create? || op.Delete? || op.Modify? {
        if fetchRetry > 0 || createRetry > 0 {
          Notify(input.name, input.pdp, NotReady);
        } else if op.Delete? {
          Notify(input.name, input.pdp, Deleted);
        } else if matched {
          Notify(input.name, input.pdp, Ready);
        } else {
          Notify(input.name, input.pdp, Created);
        }
        step := step + 1;
      }
    }

    method CaseEnd(ghost o: Oracle)
      requires InStep(CASE_END)
      modifies this
      ensures View() == Log(old(View()), Released) && op == old(op) && Valid() && pending.None?
    {
      step := step + 1;
      Record(Released);
    }

    twostate predicate Stands(at: nat, o: Oracle, stop: bool)
      reads this
    {
      && (StageAt(op, at).None? ==> PassesBy(at, stop))
      && (StageAt(op, at).Some? ==> Performs(at, Perform(op, StageAt(op, at).value, old(View()), o), o, stop))
    }

    // A body leaves what remains to be done as the script has it: stopped, the rest is the task's future; not stopped,
    // the rest begins with the next body.
    twostate predicate Moves(at: nat, o: Oracle, stop: bool)
      reads this
    {
      && op == old(op)
      && step >= old(step)
      && (stop ==> Valid() && Future(o) == old(Rest(at, o)))
      && (!stop ==> InStep(at + 1) && Rest(at + 1, o) == old(Rest(at, o)))
    }

    method OpeningBody(at: nat, ghost o: Oracle) returns (stop: bool)
      requires CASE_BEGIN <= at <= CASE_READ_DEFAULT && InStep(at)
      modifies this
      ensures Stands(at, o, stop)
    {
      stop := false;
      if at == CASE_BEGIN {
        CaseBegin(o);
      } else if at == CASE_ALLOCATE {
        stop := CaseAllocate(o);
      } else {
        stop := CaseReadDefault(o);
      }
    }

    method ListBody(at: nat, ghost o: Oracle) returns (stop: bool)
      requires CASE_DELETE <= at <= CASE_VERIFY && InStep(at)
      modifies this
      ensures Stands(at, o, stop)
    {
      if at == CASE_DELETE {
        stop := CaseDelete(o);
      } else if at == CASE_READ_LIST {
        stop := CaseReadList(o);
      } else {
        stop := CaseVerify(o);
      }
    }

    method WritingBody(at: nat, ghost o: Oracle) returns (stop: bool)
      requires CASE_CREATE <= at <= CASE_SET_DEFAULT && InStep(at)
      modifies this
      ensures Stands(at, o, stop)
    {
      if at == CASE_CREATE {
        stop := CaseCreate(o);
      } else if at == CASE_MODIFY {
        stop := CaseModify(o);
      } else {
        stop := CaseSetDefault(o);
      }
    }

    method ClosingBody(at: nat, ghost o: Oracle) returns (stop: bool)
      requires CASE_ATTACH <= at <= CASE_NOTIFY && InStep(at)
      modifies this
      ensures Stands(at, o, stop)
    {
      stop := false;
      if at == CASE_ATTACH {
        stop := CaseAttach(o);
      } else {
        CaseNotify(o);
      }
    }

    method Body(at: nat, ghost o: Oracle) returns (stop: bool)
      requires at < CASE_END && InStep(at)
      modifies this
      ensures Stands(at, o, stop)
    {
      if at <= CASE_READ_DEFAULT {
        stop := OpeningBody(at, o);
      } else if at <= CASE_VERIFY {
        stop := ListBody(at, o);
      } else if at <= CASE_SET_DEFAULT {
        stop := WritingBody(at, o);
      } else {
        stop := ClosingBody(at, o);
      }
    }

    method Turn(at: nat, ghost o: Oracle) returns (stop: bool)
      requires at < CASE_END && InStep(at)
      modifies this
      ensures Moves(at, o, stop)
    {
      Enter(op, at, View(), o);
      stop := Body(at, o);
    }

    // The switch: entered at the case of the current step, it falls through the bodies below until one of them stops
    // it or the end is reached.
    method Step(ghost o: Oracle)
      requires InStep(CaseOf(step))
      modifies this
      ensures Valid() && op == old(op) && (pending.Some? ==> step >= old(step))
      ensures Future(o) == old(Rest(CaseOf(step), o))
    {
      hide Aligned, Then;
      var at := CaseOf(step);
      while at < CASE_END
        invariant at <= CASE_END && InStep(at) && op == old(op) && step >= old(step)
        invariant Rest(at, o) == old(Rest(CaseOf(step), o))
      {
        var stop := Turn(at, o);
        if stop {
          return;
        }
        at := at + 1;
      }
      CaseEnd(o);
    }

    // ---- callbacks ----

    // How far a request is from the last one of its step.
    ghost function Ahead(request: Request): nat {
      if request.GetDefaultNumber? || request.GetProfileList? || request.GetAttachList? then 1 else 0
    }

    ghost function Unread(): nat
      reads this
    {
      if pending.Some? && pending.value.GetProfileSettings? && iteration <= |entries| then |entries| - iteration else 0
    }

    // An answered request makes its stage turn out as "done", from where the script goes on. If another request
    // follows, it comes at a later step, or at the same step as the second half of an exchange or from the list
    // being read.
    twostate predicate Resumes(request: Request, done: Outcome, o: Oracle)
      reads this
    {
      && Valid()
      && op == old(op)
      && Future(o) == Then(op, done, StagesFrom(op, HomeOf(request) + 1), o)
      && (pending.Some? ==>
            || step > old(step)
            || (step == old(step) && Ahead(pending.value) < Ahead(request))
            || (step == old(step) && Ahead(pending.value) == Ahead(request) && Unread() < old(Unread())))
    }

    // Enters the switch at another step, from where the script ends as given.
    method Jump(next: nat, ghost end: World, ghost o: Oracle)
      requires lastStep == LastStep(op) && iteration <= |entries| && pending.None?
      requires Aligned(op, CaseOf(next), next, Unhindered(View().store), input.isDefault, present)
      requires end == Run(op, StagesFrom(op, CaseOf(next)), View(), o)
      modifies this
      ensures Valid() && op == old(op) && (pending.Some? ==> step >= next)
      ensures Future(o) == end
    {
      step := next;
      Step(o);
    }

    // The failure exit of the callbacks.
    method GiveUp(ghost request: Request, ghost done: Outcome, ghost o: Oracle)
      requires lastStep == LastStep(op) && iteration <= |entries| && pending.None?
      requires Belongs(op, request) && done == Outcome(View(), Skip)
      modifies this
      ensures Resumes(request, done, o)
    {
      hide Aligned, CaseOf, Run, StagesFrom, Then;
      LandsAligned(op, request, Unhindered(View().store), input.isDefault, present);
      AtEnd(op, View(), StagesFrom(op, HomeOf(request) + 1), o);
      Jump(lastStep, Then(op, done, StagesFrom(op, HomeOf(request) + 1), o), o);
    }

    // The success exit of the callbacks.
    method GoOn(ghost request: Request, ghost done: Outcome, ghost o: Oracle)
      requires lastStep == LastStep(op) && iteration <= |entries| && pending.None?
      requires Belongs(op, request) && step == StepOf(op, request)
      requires done == Outcome(View(), if op.Modify? && request.SetDefaultNumber? then Skip else Proceed)
      modifies this
      ensures Resumes(request, done, o)
      ensures pending.Some? ==> step > old(step)
    {
      hide Aligned, CaseOf, Run, StagesFrom, Then;
      LandsAligned(op, request, Unhindered(View().store), input.isDefault, present);
      Onward(op, request, View(), o);
      Jump(step + 1, Then(op, done, StagesFrom(op, HomeOf(request) + 1), o), o);
    }

    // The second half of an exchange, requested from the callback of the first.
    method AskDefaultSettings(id: int, ghost o: Oracle)
      requires lastStep == LastStep(op) && iteration <= |entries| && pending.None?
      requires Belongs(op, GetDefaultNumber) && step == StepOf(op, GetDefaultNumber)
      modifies this`pending, this`asked, this`trace
      ensures Resumes(GetDefaultNumber, SettingsReply(Ask(old(View()), GetDefaultSettings(id)), o), o)
    {
      Request(GetDefaultSettings(id));
      assert InProgress(o) == SettingsReply(View(), o);
    }

    method AskAttachSet(ids: seq<int>, ghost o: Oracle)
      requires lastStep == LastStep(op) && iteration <= |entries| && pending.None?
      requires Belongs(op, GetAttachList) && step == StepOf(op, GetAttachList)
      modifies this`pending, this`asked, this`trace
      ensures Resumes(GetAttachList, AttachSetReply(Ask(old(View()), SetAttachList(ids)), o), o)
    {
      Request(SetAttachList(ids));
    }

    method OnClientAllocated(reply: Reply, ghost o: Oracle)
      requires Valid() && pending.Some? && pending.value.AllocateClient? && reply == o(asked - 1)
      modifies this
      ensures Resumes(old(pending).value, ClientReply(old(View()), o), o)
    {
      ghost var request, done := pending.value, ClientReply(View(), o);
      pending := None;
      if !reply.Accepted? {
        GiveUp(request, done, o);
        return;
      }
      clientValid := true;
      GoOn(request, done, o);
    }

    method WipeDefault()
      modifies this`defaultProfile, this`defaultCached
      ensures View() == old(View().(store := View().store.(defaultCached := false, defaultProfile := BLANK)))
    {
      defaultProfile := BLANK;
      defaultCached := false;
    }

    method NoteDefaultNumber(number: int)
      modifies this`defaultProfile
      ensures View() ==
              var w := old(View());
              w.(store := w.store.(defaultProfile := w.store.defaultProfile.(id := number)))
    {
      defaultProfile := defaultProfile.(id := number);
    }

    method OnDefaultNumber(reply: Reply, ghost o: Oracle)
      requires Valid() && pending.Some? && pending.value.GetDefaultNumber? && reply == o(asked - 1)
      modifies this
      ensures Resumes(old(pending).value, NumberReply(old(View()), o), o)
    {
      ghost var request := pending.value;
      ghost var done := NumberReply(View(), o);
      pending := None;
      WipeDefault();
      if !reply.Number? {
        GiveUp(request, done, o);
        return;
      }
      NoteDefaultNumber(reply.number);
      AskDefaultSettings(reply.number, o);
    }

    method OnDefaultSettings(reply: Reply, ghost o: Oracle)
      requires Valid() && pending.Some? && pending.value.GetDefaultSettings? && reply == o(asked - 1)
      modifies this
      ensures Resumes(old(pending).value, SettingsReply(old(View()), o), o)
    {
      ghost var request, done := pending.value, SettingsReply(View(), o);
      pending := None;
      if !reply.Settled? {
        GiveUp(request, done, o);
        return;
      }
      defaultProfile := WithSettings(defaultProfile, reply.settings).(name := reply.settings.name);
      defaultCached := true;
      GoOn(request, done, o);
    }

    method OnDeleted(reply: Reply, ghost o: Oracle)
      requires Valid() && pending.Some? && pending.value.DeleteProfile? && reply == o(asked - 1)
      modifies this
      ensures Resumes(old(pending).value, RemoveReply(old(View()), o), o)
    {
      ghost var request, done := pending.value, RemoveReply(View(), o);
      pending := None;
      if !reply.Accepted? {
        GiveUp(request, done, o);
        return;
      }
      GoOn(request, done, o);
    }

    // Closes the list with no profiles in it.
    method CloseEmpty(ghost request: Request, ghost done: Outcome, ghost o: Oracle)
      requires lastStep == LastStep(op) && iteration <= |entries| && pending.None?
      requires Belongs(op, request) && step == StepOf(op, request) && !request.SetDefaultNumber?
      requires done == Outcome(Emptied(View()), Proceed)
      modifies this
      ensures Resumes(request, done, o)
    {
      if table.Some? {
        table := Some([]);
      }
      collected := true;
      GoOn(request, done, o);
    }

    // Allocates the table the entries will go into.
    method OpenTable(listed: seq<ListEntry>)
      modifies this`table, this`entries, this`iteration
      ensures entries == listed && iteration == 0
      ensures View() == old(View().(store := View().store.(table := Some([]))))
    {
      table := Some([]);
      entries := listed;
      iteration := 0;
    }

    // Adds the entry just answered to the table.
    method KeepEntry(settings: Settings)
      requires iteration < |entries|
      modifies this`table, this`iteration, this`fetchRetry
      ensures iteration == old(iteration) + 1
      ensures View() == old(View().(store := Appended(View().store, Assemble(entries[iteration], settings, defaultProfile.id))))
    {
      var profile := Assemble(entries[iteration], settings, defaultProfile.id);
      table := Some((if table.Some? then table.value else []) + [profile]);
      iteration := iteration + 1;
      fetchRetry := 0;
    }

    // Frees the table after a refusal, which counts as a failed fetch.
    method DropTable()
      modifies this`fetchRetry, this`table, this`collected
      ensures View() ==
              var w := old(View());
              w.(store := w.store.(table := None, collected := true, fetchRetry := w.store.fetchRetry + 1))
    {
      fetchRetry := fetchRetry + 1;
      table := None;
      collected := true;
    }

    // Asks for the next entry's settings, or closes the list when none is left.
    method NextSettings(ghost request: Request, ghost done: Outcome, ghost o: Oracle)
      requires lastStep == LastStep(op) && iteration <= |entries| && pending.None?
      requires Belongs(op, request) && step == StepOf(op, request)
      requires request.GetProfileList? || (request.GetProfileSettings? && iteration > 0)
      requires done == FillFrom(View(), o, entries, iteration)
      modifies this
      ensures Valid() && op == old(op)
      ensures Future(o) == Then(op, done, StagesFrom(op, HomeOf(request) + 1), o)
      ensures pending.Some? ==>
                || step > old(step)
                || (step == old(step) && pending.value.GetProfileSettings?
                    && entries == old(entries) && iteration == old(iteration))
    {
      if iteration >= |entries| {
        collected := true;
        GoOn(request, done, o);
        return;
      }
      Request(GetProfileSettings(entries[iteration].id));
      assert InProgress(o) == FillReply(View(), o, entries, iteration);
    }

    method OnListReceived(reply: Reply, ghost o: Oracle)
      requires Valid() && pending.Some? && pending.value.GetProfileList? && reply == o(asked - 1)
      modifies this
      ensures Resumes(old(pending).value, ListReply(old(View()), o), o)
    {
      hide Aligned, CaseOf, FillFrom, Run, StagesFrom, Then;
      ghost var request, done := pending.value, ListReply(View(), o);
      pending := None;
      if !reply.Listed? || reply.entries == [] {
        CloseEmpty(request, done, o);
        return;
      }
      OpenTable(reply.entries);
      NextSettings(request, done, o);
    }

    method OnListSettings(reply: Reply, ghost o: Oracle)
      requires Valid() && pending.Some? && pending.value.GetProfileSettings? && reply == o(asked - 1)
      modifies this
      ensures Resumes(old(pending).value, FillReply(old(View()), o, old(entries), old(iteration)), o)
    {
      hide Aligned, CaseOf, FillFrom, Run, StagesFrom, Then;
      ghost var request, done := pending.value, FillReply(View(), o, entries, iteration);
      pending := None;
      if reply.Failed? {
        CloseEmpty(request, done, o);
        return;
      }
      if !reply.Settled? {
        DropTable();
        GoOn(request, done, o);
        return;
      }
      KeepEntry(reply.settings);
      NextSettings(request, done, o);
    }

    method OnCreated(reply: Reply, ghost o: Oracle)
      requires Valid() && pending.Some? && pending.value.CreateProfile? && reply == o(asked - 1)
      modifies this
      ensures Resumes(old(pending).value, CreateReply(old(View()), o), o)
    {
      ghost var request, done := pending.value, CreateReply(View(), o);
      pending := None;
      if reply.Added? {
        input := input.(id := reply.id, kind := reply.kind);
        GoOn(request, done, o);
        return;
      }
      Notify("unknown", IPv4, NotReady);
      GiveUp(request, done, o);
    }

    method OnModified(reply: Reply, ghost o: Oracle)
      requires Valid() && pending.Some? && pending.value.ModifyProfile? && reply == o(asked - 1)
      modifies this
      ensures Resumes(old(pending).value, ChangeReply(old(View()), o), o)
    {
      ghost var request, done := pending.value, ChangeReply(View(), o);
      pending := None;
      if !reply.Accepted? {
        GiveUp(request, done, o);
        return;
      }
      GoOn(request, done, o);
    }

    method OnDefaultSet(reply: Reply, ghost o: Oracle)
      requires Valid() && pending.Some? && pending.value.SetDefaultNumber? && reply == o(asked - 1)
      modifies this
      ensures Resumes(old(pending).value, DefaultSetReply(op, old(View()), o), o)
    {
      ghost var request, done := pending.value, DefaultSetReply(op, View(), o);
      pending := None;
      if !reply.Accepted? {
        GiveUp(request, done, o);
        return;
      }
      defaultProfile := input;
      GoOn(request, done, o);
    }

    method OnAttachList(reply: Reply, ghost o: Oracle)
      requires Valid() && pending.Some? && pending.value.GetAttachList? && reply == o(asked - 1)
      modifies this
      ensures Resumes(old(pending).value, AttachListReply(old(View()), o), o)
    {
      ghost var request := pending.value;
      ghost var done := AttachListReply(View(), o);
      pending := None;
      if reply.Attached? {
        var current := input.id in reply.current;
        var waiting := input.id in reply.waiting;
        if !(current && !waiting) && !waiting && reply.built {
          AskAttachSet([input.id], o);
          return;
        }
      }
      GoOn(request, done, o);
    }

    method OnAttachSet(reply: Reply, ghost o: Oracle)
      requires Valid() && pending.Some? && pending.value.SetAttachList? && reply == o(asked - 1)
      modifies this
      ensures Resumes(old(pending).value, AttachSetReply(old(View()), o), o)
    {
      ghost var request, done := pending.value, AttachSetReply(View(), o);
      pending := None;
      if reply.Accepted? {
        if matched {
          matched := false;
        }
      }
      GoOn(request, done, o);
    }

    // Hands an answer to the callback of the outstanding request.
    method Deliver(reply: Reply, ghost o: Oracle)
      requires Valid() && pending.Some? && reply == o(asked - 1)
      modifies this
      ensures Resumes(old(pending).value, old(InProgress(o)), o)
    {
      match pending.value {
        case AllocateClient => OnClientAllocated(reply, o);
        case GetDefaultNumber => OnDefaultNumber(reply, o);
        case GetDefaultSettings(_) => OnDefaultSettings(reply, o);
        case DeleteProfile(_) => OnDeleted(reply, o);
        case GetProfileList => OnListReceived(reply, o);
        case GetProfileSettings(_) => OnListSettings(reply, o);
        case CreateProfile(_) => OnCreated(reply, o);
        case ModifyProfile(_) => OnModified(reply, o);
        case SetDefaultNumber(_, _) => OnDefaultSet(reply, o);
        case GetAttachList => OnAttachList(reply, o);
        case SetAttachList(_) => OnAttachSet(reply, o);
      }
    }

    // ---- a whole task ----

    // Runs a fresh task to its end, answering each request as o says.
    method RunTask(o: Oracle)
      requires step == FirstStep(op) && lastStep == LastStep(op) && iteration <= |entries| && pending.None?
      modifies this
      ensures pending.None? && op == old(op)
      ensures View() == Run(op, Script(op), old(View()), o)
    {
      FallThroughOrder(op);
      Step(o);
      while pending.Some?
        invariant Valid() && op == old(op)
        invariant Future(o) == Run(op, Script(op), old(View()), o)
        decreases pending.Some?, GETLIST_END - step, if pending.Some? then Ahead(pending.value) else 0, Unread()
      {
        Deliver(o(asked - 1), o);
      }
    }

    method ResetTask(operation: Operation)
      modifies this`op, this`step, this`lastStep, this`present, this`entries, this`iteration
      ensures op == operation && step == FirstStep(op) && lastStep == LastStep(op) && iteration == 0
      ensures View() == old(View().(present := false))
    {
      op := operation;
      step := FirstStep(operation);
      lastStep := LastStep(operation);
      present := false;
      entries := [];
      iteration := 0;
    }

    method StartTask(operation: Operation, profile: Option<Profile>, callback: bool)
      requires pending.None? && (operation.Create? || operation.List? || profile.Some?)
      modifies this
      ensures op == operation && step == FirstStep(op) && lastStep == LastStep(op) && iteration <= |entries|
      ensures pending.None?
      ensures View() == Started(old(View()), operation, profile, callback, old(defaultFromDb))
    {
      ResetTask(operation);
      notify := callback && !operation.List?;
      collected := collected && !operation.List?;
      input := if operation.List? then BLANK
               else if operation.Create? && (profile.None? || profile.value.apn == "") then defaultFromDb
               else profile.value;
    }

    // Hands over a complete list to its waiting caller; an empty one frees the table.
    method CollectList(inTime: bool) returns (profiles: seq<Profile>)
      modifies this`collected, this`table
      ensures Returned(View(), profiles) == Collected(old(View()), inTime)
    {
      profiles := [];
      if inTime && collected {
        collected := false;
        if table.Some? && |table.value| > 0 {
          profiles := table.value;
        } else {
          table := None;
        }
      }
    }

    // The entry point of all four operations.
    method Operate(operation: Operation, profile: Option<Profile>, callback: bool, deviceOpen: bool, inTime: bool, o: Oracle)
      returns (ok: bool, profiles: seq<Profile>)
      requires pending.None?
      requires operation.Delete? ==> profile.Some?
      modifies this
      ensures pending.None? && ok == (!deviceOpen || !operation.Modify? || profile.Some?)
      ensures Returned(View(), profiles) ==
              Operated(old(View()), operation, profile, callback, deviceOpen, old(defaultFromDb), inTime, o)
    {
      profiles := [];
      if !deviceOpen {
        if !operation.List? && callback {
          Record(Told("unknown", IPv4, NotReady));
        }
        return true, profiles;
      }
      if operation.Modify? && profile.None? {
        return false, profiles;
      }
      StartTask(operation, profile, callback);
      RunTask(o);
      if operation.List? {
        profiles := CollectList(inTime);
      }
      ok := true;
    }
  }
}
