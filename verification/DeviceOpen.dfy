/**
 Opening the modem: a chain of requests in which only the opening itself and the allocation of the three clients can
 stop the chain; the other answers are noted and change nothing.
 */
module DeviceOpen {
  import opened Wrappers

  datatype Query =
    | NewDevice | OpenDevice | AllocateDms | ReadRevision | ReadVersion | ReadIds | ReadManufacturer | ReadMode
    | AllocateWds | AllocateNas | ReadCells

  // What the modem will answer. A task makes each query at most once.
  datatype Answers = Answers(ok: Query -> bool, modeOnline: bool)

  datatype Event =
    | Asked(query: Query)
    | Closed                                    // the device is closed and forgotten
    | Told(ready: bool, online: bool)           // the open-status callback
    | Released                                  // the task is unreferenced

  datatype Trace = Empty | Then(past: Trace, last: Event)

  datatype World = World(
    isOpen: bool, dms: bool, wds: bool, nas: bool,   // the device and the three clients
    ready: bool, online: bool, callback: bool,       // the task: status, modem mode, whether a callback is set
    trace: Trace)

  function Log(w: World, e: Event): World {
    w.(trace := Then(w.trace, e))
  }

  function Ask(w: World, q: Query): World {
    Log(w, Asked(q))
  }

  // ---- the steps ----

  const OPEN_BEGIN := 1
  const DEVICE_OPEN := 2
  const DMS_OPEN := 3
  const GET_REVISION := 4
  const GET_VERSION := 5
  const GET_IMEI := 6
  const GET_MANUFACTURER := 7
  const GET_OPERATING_MODE := 8
  const WDS_OPEN := 9
  const GET_CAPABILITIES := 10
  const NAS_OPEN := 11
  const NAS_REGISTER_SIGNAL_INDICATIONS := 12
  const NAS_NETWORK_SCAN_INIT := 13
  const NAS_CELL_LOCATION_INFO := 14
  const OPEN_NOTIFY := 15
  const OPEN_END := 16

  // The query a step makes, if any.
  function QueryAt(step: nat, w: World): Option<Query> {
    if step == DEVICE_OPEN && !w.isOpen then Some(NewDevice)
    else if step == DMS_OPEN && !w.dms then Some(AllocateDms)
    else if step == GET_REVISION then Some(ReadRevision)
    else if step == GET_VERSION then Some(ReadVersion)
    else if step == GET_IMEI then Some(ReadIds)
    else if step == GET_MANUFACTURER then Some(ReadManufacturer)
    else if step == GET_OPERATING_MODE then Some(ReadMode)
    else if step == WDS_OPEN && !w.wds then Some(AllocateWds)
    else if step == NAS_OPEN && !w.nas then Some(AllocateNas)
    else if step == NAS_CELL_LOCATION_INFO then Some(ReadCells)
    else None
  }

  function StepOf(q: Query): nat {
    match q
    case NewDevice => DEVICE_OPEN
    case OpenDevice => DEVICE_OPEN
    case AllocateDms => DMS_OPEN
    case ReadRevision => GET_REVISION
    case ReadVersion => GET_VERSION
    case ReadIds => GET_IMEI
    case ReadManufacturer => GET_MANUFACTURER
    case ReadMode => GET_OPERATING_MODE
    case AllocateWds => WDS_OPEN
    case AllocateNas => NAS_OPEN
    case ReadCells => NAS_CELL_LOCATION_INFO
  }

  // What a step without a query does before the next one.
  function Passed(step: nat, w: World): World {
    if step == DEVICE_OPEN then w.(ready := true)
    else if step == OPEN_NOTIFY then
      var closed := if w.ready then w else Log(w.(isOpen := false), Closed);
      if w.callback then Log(closed, Told(w.ready, w.online)) else closed
    else w
  }

  // An answer that ends the chain.
  predicate Fatal(q: Query, a: Answers) {
    (q.NewDevice? || q.OpenDevice? || q.AllocateDms? || q.AllocateWds? || q.AllocateNas?) && !a.ok(q)
  }

  // What an answer leaves behind. A mode that cannot be read counts as offline.
  function Noted(q: Query, w: World, a: Answers): World {
    match q
    case NewDevice => if a.ok(q) then w else w.(ready := false)
    case OpenDevice => w.(isOpen := a.ok(q), ready := a.ok(q))
    case AllocateDms => w.(dms := a.ok(q))
    case ReadMode => w.(online := a.ok(q) && a.modeOnline)
    case AllocateWds => w.(wds := a.ok(q))
    case AllocateNas => w.(nas := a.ok(q))
    case _ => w
  }

  // How the task ends if it goes on from a step, or from the answer to a query.
  function FromStep(step: nat, w: World, a: Answers): World
    decreases OPEN_END - step, 2
  {
    if step >= OPEN_END then Log(w, Released)
    else
      match QueryAt(step, w)
      case Some(q) => FromAnswer(q, Ask(w, q), a)
      case None => FromStep(step + 1, Passed(step, w), a)
  }

  function FromAnswer(q: Query, w: World, a: Answers): World
    decreases OPEN_END - StepOf(q), if q.NewDevice? then 1 else 0
  {
    if Fatal(q, a) then FromStep(OPEN_NOTIFY, Noted(q, w, a), a)
    else if q.NewDevice? then FromAnswer(OpenDevice, Ask(w, OpenDevice), a)
    else FromStep(StepOf(q) + 1, Noted(q, w, a), a)
  }

  // ---- what the task guarantees ----

  // The device was open or could be opened.
  predicate Opens(w: World, a: Answers) {
    w.isOpen || (a.ok(NewDevice) && a.ok(OpenDevice))
  }

  predicate HasDms(w: World, a: Answers) {
    Opens(w, a) && (w.dms || a.ok(AllocateDms))
  }

  predicate HasWds(w: World, a: Answers) {
    HasDms(w, a) && (w.wds || a.ok(AllocateWds))
  }

  predicate HasNas(w: World, a: Answers) {
    HasWds(w, a) && (w.nas || a.ok(AllocateNas))
  }

  // A query is made if it is reached.
  function Make(t: Trace, reached: bool, q: Query): Trace {
    if reached then Then(t, Asked(q)) else t
  }

  function Opened(t: Trace, w: World, a: Answers): Trace {
    Make(Make(t, !w.isOpen, NewDevice), !w.isOpen && a.ok(NewDevice), OpenDevice)
  }

  function ReadOut(t: Trace, w: World, a: Answers): Trace {
    var reading := HasDms(w, a);
    var t0 := Make(Make(t, Opens(w, a) && !w.dms, AllocateDms), reading, ReadRevision);
    var t1 := Make(Make(t0, reading, ReadVersion), reading, ReadIds);
    Make(Make(t1, reading, ReadManufacturer), reading, ReadMode)
  }

  function Connected(t: Trace, w: World, a: Answers): Trace {
    var t0 := Make(t, HasDms(w, a) && !w.wds, AllocateWds);
    Make(Make(t0, HasWds(w, a) && !w.nas, AllocateNas), HasNas(w, a), ReadCells)
  }

  // The mode as the callback sees it; a mode that was never read is whatever the zeroed field means.
  predicate SeenOnline(w: World, a: Answers) {
    if HasDms(w, a) then a.ok(ReadMode) && a.modeOnline else w.online
  }

  function Ended(t: Trace, w: World, a: Answers): Trace {
    var t0 := if Opens(w, a) then t else Then(t, Closed);
    var t1 := if w.callback then Then(t0, Told(Opens(w, a), SeenOnline(w, a))) else t0;
    Then(t1, Released)
  }

  // What is to be shown of a task, or of the rest of one that started out as w.
  predicate Ends(end: World, t: Trace, w: World, a: Answers) {
    && end.trace == Ended(t, w, a)
    && end.isOpen == Opens(w, a)
    && end.dms == (w.dms || HasDms(w, a))
    && end.wds == (w.wds || HasWds(w, a))
    && end.nas == (w.nas || HasNas(w, a))
  }

  lemma Notifies(w: World, a: Answers)
    ensures FromStep(OPEN_NOTIFY, w, a) == Log(Passed(OPEN_NOTIFY, w), Released)
  {
  }

  lemma Skips(from: nat, to: nat, w: World, a: Answers)
    requires from <= to <= from + 3 && DEVICE_OPEN < from && to <= OPEN_NOTIFY
    requires forall k :: from <= k < to ==> QueryAt(k, w).None?
    ensures FromStep(from, w, a) == FromStep(to, w, a)
    decreases OPEN_END - from
  {
    if from < to {
      assert QueryAt(from, w).None?;
      Skips(from + 1, to, w, a);
    }
  }

  lemma CellsEnd(w: World, a: Answers)
    ensures FromStep(NAS_OPEN + 1, w, a) == Log(Passed(OPEN_NOTIFY, Ask(w, ReadCells)), Released)
  {
    Skips(NAS_OPEN + 1, NAS_CELL_LOCATION_INFO, w, a);
    Notifies(Ask(w, ReadCells), a);
  }

  lemma NasEnds(w: World, a: Answers)
    requires w.isOpen && w.ready && w.dms && w.wds && w.online == (a.ok(ReadMode) && a.modeOnline)
    ensures Ends(FromStep(WDS_OPEN + 1, w, a), Connected(w.trace, w, a), w, a)
  {
    Skips(WDS_OPEN + 1, NAS_OPEN, w, a);
    if w.nas {
      CellsEnd(w, a);
    } else if a.ok(AllocateNas) {
      CellsEnd(Ask(w, AllocateNas).(nas := true), a);
    } else {
      Notifies(Ask(w, AllocateNas), a);
    }
  }

  lemma WdsEnds(w: World, a: Answers)
    requires w.isOpen && w.ready && w.dms && w.online == (a.ok(ReadMode) && a.modeOnline)
    ensures Ends(FromStep(WDS_OPEN, w, a), Connected(w.trace, w, a), w, a)
  {
    if w.wds {
      NasEnds(w, a);
    } else if a.ok(AllocateWds) {
      NasEnds(Ask(w, AllocateWds).(wds := true), a);
    } else {
      Notifies(Ask(w, AllocateWds), a);
    }
  }

  lemma ReadingEnds(w: World, a: Answers)
    requires w.isOpen && w.ready && w.dms
    ensures Ends(FromStep(GET_REVISION, w, a), Connected(ReadOut(w.trace, w, a), w, a), w, a)
  {
    var w1 := Ask(w, ReadRevision);
    var w2 := Ask(w1, ReadVersion);
    var w3 := Ask(w2, ReadIds);
    var w4 := Ask(w3, ReadManufacturer);
    var w5 := Ask(w4, ReadMode).(online := a.ok(ReadMode) && a.modeOnline);
    assert FromStep(GET_REVISION, w, a) == FromStep(GET_VERSION, w1, a);
    assert FromStep(GET_VERSION, w1, a) == FromStep(GET_IMEI, w2, a);
    assert FromStep(GET_IMEI, w2, a) == FromStep(GET_MANUFACTURER, w3, a);
    assert FromStep(GET_MANUFACTURER, w3, a) == FromStep(GET_OPERATING_MODE, w4, a);
    assert FromStep(GET_OPERATING_MODE, w4, a) == FromStep(WDS_OPEN, w5, a);
    WdsEnds(w5, a);
  }

  lemma DmsEnds(w: World, a: Answers)
    requires w.isOpen && w.ready
    ensures Ends(FromStep(DMS_OPEN, w, a), Connected(ReadOut(w.trace, w, a), w, a), w, a)
  {
    if w.dms {
      ReadingEnds(w, a);
    } else if a.ok(AllocateDms) {
      ReadingEnds(Ask(w, AllocateDms).(dms := true), a);
    } else {
      Notifies(Ask(w, AllocateDms), a);
    }
  }

  // How the device came to be open plays no part in the rest.
  lemma DmsEndsFor(w: World, v: World, a: Answers)
    requires Opens(w, a) && v.isOpen && v.ready
    requires v.dms == w.dms && v.wds == w.wds && v.nas == w.nas && v.online == w.online && v.callback == w.callback
    ensures Ends(FromStep(DMS_OPEN, v, a), Connected(ReadOut(v.trace, w, a), w, a), w, a)
  {
    DmsEnds(v, a);
    assert HasDms(v, a) == HasDms(w, a) && HasWds(v, a) == HasWds(w, a) && HasNas(v, a) == HasNas(w, a);
    var t := ReadOut(v.trace, v, a);
    assert t == ReadOut(v.trace, w, a);
    assert Connected(t, v, a) == Connected(t, w, a);
  }

  lemma FailureEnds(w: World, v: World, a: Answers)
    requires !Opens(w, a) && !v.ready && v.trace == Opened(w.trace, w, a)
    requires v.dms == w.dms && v.wds == w.wds && v.nas == w.nas && v.online == w.online && v.callback == w.callback
    ensures Ends(FromStep(OPEN_NOTIFY, v, a), Connected(ReadOut(Opened(w.trace, w, a), w, a), w, a), w, a)
  {
    Notifies(v, a);
  }

  lemma Begins(w: World, a: Answers)
    ensures var made := Ask(w, NewDevice);
            var opening := Ask(made, OpenDevice);
            FromStep(OPEN_BEGIN, w, a) ==
            if w.isOpen then FromStep(DMS_OPEN, w.(ready := true), a)
            else if !a.ok(NewDevice) then FromStep(OPEN_NOTIFY, made.(ready := false), a)
            else if a.ok(OpenDevice) then FromStep(DMS_OPEN, opening.(isOpen := true, ready := true), a)
            else FromStep(OPEN_NOTIFY, opening.(isOpen := false, ready := false), a)
  {
    assert FromStep(OPEN_BEGIN, w, a) == FromStep(DEVICE_OPEN, w, a);
  }

  // The queries a task makes, each once and in order.
  function Asking(w: World, a: Answers): Trace {
    Connected(ReadOut(Opened(w.trace, w, a), w, a), w, a)
  }

  lemma AlreadyOpen(w: World, a: Answers)
    requires w.isOpen
    ensures Ends(FromStep(OPEN_BEGIN, w, a), Asking(w, a), w, a)
  {
    Begins(w, a);
    DmsEndsFor(w, w.(ready := true), a);
  }

  lemma NewlyOpen(w: World, a: Answers)
    requires !w.isOpen && Opens(w, a)
    ensures Ends(FromStep(OPEN_BEGIN, w, a), Asking(w, a), w, a)
  {
    Begins(w, a);
    DmsEndsFor(w, Ask(Ask(w, NewDevice), OpenDevice).(isOpen := true, ready := true), a);
  }

  lemma NotOpened(w: World, a: Answers)
    requires !Opens(w, a)
    ensures Ends(FromStep(OPEN_BEGIN, w, a), Asking(w, a), w, a)
  {
    Begins(w, a);
    if a.ok(NewDevice) {
      FailureEnds(w, Ask(Ask(w, NewDevice), OpenDevice).(isOpen := false, ready := false), a);
    } else {
      FailureEnds(w, Ask(w, NewDevice).(ready := false), a);
    }
  }

  // An open task makes exactly the queries that are reached, each once and in order, calls back exactly once if it has
  // a callback, with "ready" exactly if the device was or became open, and is released once, as the last thing.
  lemma OpenTask(w: World, a: Answers)
    ensures Ends(FromStep(OPEN_BEGIN, w, a), Asking(w, a), w, a)
  {
    if w.isOpen {
      AlreadyOpen(w, a);
    } else if Opens(w, a) {
      NewlyOpen(w, a);
    } else {
      NotOpened(w, a);
    }
  }

  // "Ready" does not promise that the modem can be used: it is reported without a registration client exactly when
  // the allocation of one of the clients failed on the way to it.
  lemma ReadyWithoutClients(w: World, a: Answers)
    requires Opens(w, a)
    ensures !FromStep(OPEN_BEGIN, w, a).nas <==>
              !w.nas && ((!w.dms && !a.ok(AllocateDms)) || (!w.wds && !a.ok(AllocateWds)) || !a.ok(AllocateNas))
  {
    OpenTask(w, a);
  }

  // ---- the coroutine ----

  class Opener {
    var isOpen: bool
    var dms: bool
    var wds: bool
    var nas: bool
    var step: nat
    var ready: bool
    var online: bool
    var callback: bool
    var pending: Option<Query>
    var released: bool

    ghost var trace: Trace

    ghost function View(): World
      reads this
    {
      World(isOpen, dms, wds, nas, ready, online, callback, trace)
    }

    ghost predicate Valid()
      reads this
    {
      pending.Some? ==> !released && step == StepOf(pending.value)
    }

    // How the task will end.
    ghost function Future(a: Answers): World
      reads this
    {
      if released then View()
      else if pending.Some? then FromAnswer(pending.value, View(), a)
      else FromStep(step, View(), a)
    }

    method Request(q: Query)
      modifies this`pending, this`trace
      ensures pending == Some(q) && View() == Ask(old(View()), q)
    {
      pending := Some(q);
      trace := Then(trace, Asked(q));
    }

    method TellStatus()
      modifies this`isOpen, this`trace
      ensures View() == Passed(OPEN_NOTIFY, old(View()))
    {
      if !ready {
        isOpen := false;
        trace := Then(trace, Closed);
      }
      if callback {
        trace := Then(trace, Told(ready, online));
      }
    }

    // The query of the current case body, if it makes one.
    method NextQuery() returns (q: Option<Query>)
      ensures q == QueryAt(step, View())
    {
      if step == DEVICE_OPEN {
        return if isOpen then None else Some(NewDevice);
      } else if step == DMS_OPEN {
        return if dms then None else Some(AllocateDms);
      } else if step == WDS_OPEN {
        return if wds then None else Some(AllocateWds);
      } else if step == NAS_OPEN {
        return if nas then None else Some(AllocateNas);
      } else if step == NAS_CELL_LOCATION_INFO {
        return Some(ReadCells);
      } else if step == GET_REVISION {
        return Some(ReadRevision);
      } else if step == GET_VERSION {
        return Some(ReadVersion);
      } else if step == GET_IMEI {
        return Some(ReadIds);
      } else if step == GET_MANUFACTURER {
        return Some(ReadManufacturer);
      } else if step == GET_OPERATING_MODE {
        return Some(ReadMode);
      }
      return None;
    }

    // A case body without a query falls through to the next step.
    method FallThrough()
      modifies this`isOpen, this`ready, this`step, this`trace
      ensures View() == Passed(old(step), old(View())) && step == old(step) + 1
    {
      if step == DEVICE_OPEN {
        ready := true;
      } else if step == OPEN_NOTIFY {
        TellStatus();
      }
      step := step + 1;
    }

    // The switch: entered at the current step, it falls through until it asks the modem or releases the task.
    method Step(ghost a: Answers)
      requires pending.None? && !released
      modifies this
      ensures Valid() && Future(a) == old(Future(a))
      ensures pending.Some? != released
      ensures pending.Some? ==> step >= old(step)
    {
      hide Passed, FromAnswer;
      while step < OPEN_END
        invariant pending.None? && !released && step >= old(step)
        invariant Future(a) == old(Future(a))
      {
        var q := NextQuery();
        if q.Some? {
          Request(q.value);
          return;
        }
        FallThrough();
      }
      released := true;
      trace := Then(trace, Released);
    }

    // Takes the answer to the outstanding query and resumes.
    method Deliver(a: Answers)
      requires Valid() && pending.Some?
      modifies this
      ensures Valid() && Future(a) == old(Future(a))
      ensures pending.Some? != released
      ensures pending.Some? ==> step > old(step) || (old(pending.value.NewDevice?) && pending.value.OpenDevice? && step == old(step))
    {
      var q, ok := pending.value, a.ok(pending.value);
      pending := None;
      if q.NewDevice? && ok {
        Request(OpenDevice);
        return;
      }
      Note(q, a);
      if Fatal(q, a) {
        step := OPEN_NOTIFY;
      } else {
        step := step + 1;
      }
      Step(a);
    }

    method Note(q: Query, a: Answers)
      modifies this`isOpen, this`dms, this`wds, this`nas, this`ready, this`online
      ensures View() == Noted(q, old(View()), a)
    {
      match q {
        case NewDevice => if !a.ok(q) { ready := false; }
        case OpenDevice => isOpen, ready := a.ok(q), a.ok(q);
        case AllocateDms => dms := a.ok(q);
        case ReadMode => online := a.ok(q) && a.modeOnline;
        case AllocateWds => wds := a.ok(q);
        case AllocateNas => nas := a.ok(q);
        case _ =>
      }
    }

    // Runs a fresh task to its end.
    method RunTask(a: Answers)
      requires step == OPEN_BEGIN && pending.None? && !released
      modifies this
      ensures released && pending.None?
      ensures View() == FromStep(OPEN_BEGIN, old(View()), a)
    {
      Step(a);
      while pending.Some?
        invariant Valid() && (pending.Some? != released)
        invariant Future(a) == FromStep(OPEN_BEGIN, old(View()), a)
        decreases pending.Some?, OPEN_END - step, pending.Some? && pending.value.NewDevice?
      {
        Deliver(a);
      }
    }
  }
}
