/** What holds of the policy machine in every run, whatever the modem, the user and the management interface do. */
module PolicyProofs {
  import opened PolicyModel
  import opened PolicyHistory

  // ---- the invariant ----

  // A family being started waits for its packet service, without an address, and one that waits is not up. It is up
  // exactly when its history says so.
  predicate BearerTrue(b: Bearer, side: Side, log: Log) {
    && (b.starting ==> b.waiting && !b.ready)
    && (b.waiting ==> !b.connected)
    && b.connected == PacketUp(log, side)
    && b.waiting == Waiting(log, side)
    && b.starting == BeingStarted(log, side)
    && b.ready == Addressed(log, side)
  }

  predicate SettingsTrue(d: Modem, f: Face, log: Log) {
    && d.present == PresentNow(log)
    && d.online == OnlineNow(log)
    && d.wanted == WantedNow(log)
    && d.enabled == EnabledNow(log)
    && f.ifEnable == IfEnableNow(log)
    && f.upstream == UpstreamNow(log)
  }

  predicate ModemTrue(d: Modem, log: Log) {
    && d.open == OpenNow(log)
    && d.slot == SlotNow(log)
    && d.nas == NasNow(log)
    && d.profile == ProfileNow(log)
    && d.pdp == PdpNow(log)
    && RequestsJustified(log)
  }

  predicate WaitTrue(l: Thread, log: Log) {
    && l.iter == Streak(log)
    && l.maxWait == (if Armed(log) then 3 else 0)
    && l.iter <= l.maxWait
    && StartsSettled(log)
  }

  // The reported state is the driven one, except while the machine is deactivated.
  predicate ReportTrue(l: Thread) {
    match l.driven
    case Deactivated => !l.reported.Down? && !l.reported.Halted?
    case Halted => l.reported.Registered?
    case _ => l.reported == l.driven
  }

  predicate FaceTrue(l: Thread, f: Face, log: Log) {
    && !l.published.Halted?
    && (f.link <==> l.published.Connected?)
    && (l.driven.Connected? ==> f.phy && Live(l.published))
    && (l.published == l.driven ==>
          (f.phy <==> Live(l.driven) || (l.driven.Deactivated? && Live(l.reported) && ReadSincePublished(log))))
  }

  // No family is being started while the machine is connected.
  predicate Quiet(m: Machine) {
    m.thread.driven.Connected? ==> !Busy(m.v4) && !Busy(m.v6)
  }

  // Once a slot has been asked for, nothing of the time before the last transition to DOWN is left over. Before that the
  // machine can leave DEACTIVATED only after an unsolicited slot report.
  predicate EpisodeTrue(l: Thread, d: Modem, log: Log) {
    && (Selected(log) && Live(l.driven) ==> Registrations(log))
    && (Selected(log) && d.nas.NasRegistered? ==> Registrations(log))
    && (!Selected(log) && !UnsolicitedSinceDown(log) ==> d.slot.SlotNotReady? && (l.driven.Down? || l.driven.Deactivated?))
  }

  predicate Inv(m: Machine) {
    && BearerTrue(m.v4, V4, m.log)
    && BearerTrue(m.v6, V6, m.log)
    && ModemTrue(m.modem, m.log)
    && WaitTrue(m.thread, m.log)
    && ReportTrue(m.thread)
    && FaceTrue(m.thread, m.face, m.log)
    && Quiet(m)
    && ConnectsCarried(m.log)
    && EpisodeTrue(m.thread, m.modem, m.log)
    && SettingsTrue(m.modem, m.face, m.log)
  }

  // ---- acts ----

  // The changes of state the machine makes.
  predicate Follows(l: Thread, d: Modem, to: Phase) {
    match l.driven
    case Down => to.Deactivated?
    case Deactivated => to.Deregistered? && !d.slot.SlotNotReady?
    case Deregistered => to.Registered? && d.nas.NasRegistered?
    case Registered => to.Deregistered?
    case Connected => to.Deactivated? || to.Deregistered? || (to.Registered? && d.nas.NasRegistered?)
    case Halted => false
  }

  // When the machine performs an act.
  predicate Allowed(m: Machine, a: Act) {
    var l, d := m.thread, m.modem;
    match a
    case Publish => !l.driven.Halted?
    case GoDown => l.published == l.driven && !l.driven.Down? && !l.driven.Halted?
    case AskSlot => l.driven.Deactivated? && d.open.OpenReady? && d.slot.SlotNotReady?
    case AskMonitor => d.slot.SlotReady? && d.nas.NasNotRegistered?
    case AskProfile => d.nas.NasRegistered? && d.profile.NotReady?
    case Poll(registered) => registered == d.nas.NasRegistered? && l.iter < l.maxWait
    case Starting => l.iter == l.maxWait && d.nas.NasRegistered?
    case Start(side) => l.driven.Registered? && !(if side.V4? then m.v4 else m.v6).waiting
    case Connect =>
      && l.published == l.driven && l.driven.Registered? && l.iter == 0
      && !Busy(m.v4) && !Busy(m.v6) && Carried(d.pdp, m.v4.connected, m.v6.connected)
    case Declare(to) => l.published == l.driven && Follows(l, d, to)
    case Enter(to) => l.published == l.driven && to.Deactivated? && (l.driven.Deregistered? || Live(l.driven))
    case Exit => l.driven.Registered?
    case _ => true
  }

  lemma BearerKept(b: Bearer, side: Side, log: Log, a: Act)
    requires BearerTrue(b, side, log)
    ensures BearerTrue(BearerAfter(b, side, a), side, Then(log, a))
  {
  }

  lemma ModemKept(m: Machine, a: Act)
    requires BearerTrue(m.v4, V4, m.log) && BearerTrue(m.v6, V6, m.log)
    requires ModemTrue(m.modem, m.log) && Allowed(m, a)
    ensures ModemTrue(ModemAfter(m.modem, a), Then(m.log, a))
  {
    StaysJustified(m, a);
    hide Allowed, BearerTrue, RequestsJustified;
    match a
    case Got(c) => HeardTrue(m, c);
    case _ =>
  }

  lemma HeardTrue(m: Machine, c: Callback)
    requires ModemTrue(m.modem, m.log) && RequestsJustified(Then(m.log, Got(c)))
    ensures ModemTrue(ModemAfter(m.modem, Got(c)), Then(m.log, Got(c)))
  {
  }

  lemma StaysJustified(m: Machine, a: Act)
    requires BearerTrue(m.v4, V4, m.log) && BearerTrue(m.v6, V6, m.log)
    requires ModemTrue(m.modem, m.log) && Allowed(m, a)
    ensures RequestsJustified(Then(m.log, a))
  {
  }

  lemma WaitKept(m: Machine, a: Act)
    requires WaitTrue(m.thread, m.log) && Allowed(m, a)
    ensures WaitTrue(ThreadAfter(m.thread, a), Then(m.log, a))
  {
  }

  lemma FaceKept(m: Machine, a: Act)
    requires ReportTrue(m.thread) && FaceTrue(m.thread, m.face, m.log) && Allowed(m, a)
    ensures ReportTrue(ThreadAfter(m.thread, a))
    ensures FaceTrue(ThreadAfter(m.thread, a), FaceAfter(m.face, m.thread, a), Then(m.log, a))
  {
  }

  lemma QuietKept(m: Machine, a: Act)
    requires Quiet(m) && Allowed(m, a)
    ensures Quiet(Do(m, a))
  {
  }

  lemma EpisodeKept(m: Machine, a: Act)
    requires EpisodeTrue(m.thread, m.modem, m.log) && Allowed(m, a)
    ensures EpisodeTrue(ThreadAfter(m.thread, a), ModemAfter(m.modem, a), Then(m.log, a))
  {
  }

  lemma SettingsKept(m: Machine, a: Act)
    requires SettingsTrue(m.modem, m.face, m.log)
    ensures SettingsTrue(ModemAfter(m.modem, a), FaceAfter(m.face, m.thread, a), Then(m.log, a))
  {
  }

  lemma ActKept(m: Machine, a: Act)
    requires Inv(m) && Allowed(m, a)
    ensures Inv(Do(m, a))
  {
    BearerKept(m.v4, V4, m.log, a);
    BearerKept(m.v6, V6, m.log, a);
    ModemKept(m, a);
    WaitKept(m, a);
    FaceKept(m, a);
    QuietKept(m, a);
    EpisodeKept(m, a);
    SettingsKept(m, a);
  }

  // ---- turns ----

  // The invariant between turns: no wait is half done.
  predicate Sound(m: Machine) {
    Inv(m) && m.thread.iter == 0
  }

  // No wait has begun.
  predicate StillFree(before: Machine, after: Machine) {
    && (!before.v4.waiting ==> !after.v4.waiting)
    && (!before.v6.waiting ==> !after.v6.waiting)
  }

  lemma {:induction false} ReceiveKept(m: Machine, callbacks: seq<Callback>)
    requires Inv(m)
    ensures var r := Receive(m, callbacks);
            Inv(r) && r.thread == m.thread && StillFree(m, r)
    decreases |callbacks|
  {
    if callbacks != [] {
      ActKept(m, Got(callbacks[0]));
      ReceiveKept(Do(m, Got(callbacks[0])), callbacks[1..]);
    }
  }

  // A HAL request, and the callbacks that arrive during it.
  lemma RequestKept(m: Machine, a: Act, callbacks: seq<Callback>)
    requires Inv(m) && Allowed(m, a)
    ensures var r := Receive(Do(m, a), callbacks);
            Inv(r) && r.thread == ThreadAfter(m.thread, a) && StillFree(Do(m, a), r)
  {
    ActKept(m, a);
    ReceiveKept(Do(m, a), callbacks);
  }

  lemma DeactivateKept(m: Machine, t: Turn)
    requires Inv(m) && m.thread.published == m.thread.driven
    requires m.thread.driven.Deregistered? || Live(m.thread.driven)
    ensures Inv(Deactivate(m, t)) && Deactivate(m, t).thread.iter == m.thread.iter
  {
    RequestKept(m, AskOpen, t.during);
    ActKept(Receive(Do(m, AskOpen), t.during), Enter(Deactivated));
  }

  lemma LapseKept(m: Machine)
    requires Inv(m) && m.thread.published == m.thread.driven && Live(m.thread.driven)
    ensures Inv(Lapse(m)) && Lapse(m).thread.iter == m.thread.iter
  {
    ActKept(m, DropNas);
    ActKept(Do(m, DropNas), Declare(Deregistered));
  }

  lemma DownKept(m: Machine, t: Turn)
    requires Sound(m) && m.thread.published == m.thread.driven && m.thread.driven.Down?
    ensures Sound(StateDown(m, t))
  {
    hide Inv, Receive;
    ActKept(m, Detect(t.devicePresent));
    var a := Do(m, Detect(t.devicePresent));
    var b := a;
    if a.modem.present && a.modem.open.OpenNotReady? {
      ReceiveKept(a, t.nap);
      RequestKept(Receive(a, t.nap), AskOpen, t.during);
      b := Receive(Do(Receive(a, t.nap), AskOpen), t.during);
    }
    if b.modem.open.OpenReady? {
      ActKept(b, Declare(Deactivated));
    }
  }

  lemma DeactivatedKept(m: Machine, t: Turn)
    requires Sound(m) && m.thread.published == m.thread.driven && m.thread.driven.Deactivated?
    ensures Sound(StateDeactivated(m, t))
  {
    hide Inv, Receive;
    if !m.modem.present {
      ActKept(m, GoDown);
    } else {
      var a := m;
      if m.modem.enabled && m.modem.open.OpenReady? && m.modem.slot.SlotNotReady? {
        RequestKept(m, AskSlot, t.during);
        a := Receive(Do(m, AskSlot), t.during);
      }
      if a.modem.enabled && !a.modem.slot.SlotNotReady? {
        ActKept(a, Declare(Deregistered));
      }
    }
  }

  lemma DeregisteredKept(m: Machine, t: Turn)
    requires Sound(m) && m.thread.published == m.thread.driven && m.thread.driven.Deregistered?
    ensures Sound(StateDeregistered(m, t))
  {
    hide Inv, Receive;
    if !m.modem.present {
      ActKept(m, GoDown);
    } else if !m.modem.enabled || m.modem.open.OpenNotReady? {
      DeactivateKept(m, t);
    } else {
      ReceiveKept(m, t.inquiry);
      AttachKept(Receive(m, t.inquiry), t);
    }
  }

  lemma AttachKept(m: Machine, t: Turn)
    requires Sound(m) && m.thread.published == m.thread.driven && m.thread.driven.Deregistered?
    ensures Sound(Attach(m, t))
  {
    hide Inv, Receive;
    var a := m;
    if m.modem.slot.SlotReady? && m.face.ifEnable && m.modem.nas.NasNotRegistered? {
      RequestKept(m, AskMonitor, t.during);
      a := Receive(Do(m, AskMonitor), t.during);
    }
    if a.modem.nas.NasRegistered? {
      RequestKept(a, Declare(Registered), t.nap);
    }
  }

  lemma {:induction false} WaitKeeps(m: Machine, polls: seq<seq<Callback>>)
    requires Inv(m) && m.modem.nas.NasRegistered?
    ensures var w := Wait(m, polls);
            && Inv(w)
            && w.thread == m.thread.(iter := w.thread.iter)
            && StillFree(m, w)
            && w.thread.iter == if w.modem.nas.NasRegistered? then w.thread.maxWait else 0
    decreases m.thread.maxWait - m.thread.iter
  {
    hide FaceAfter, Receive, BearerTrue, ModemTrue, SettingsTrue, FaceTrue, ConnectsCarried,
         EpisodeTrue;
    if m.thread.iter < m.thread.maxWait {
      var callbacks := if polls == [] then [] else polls[0];
      ReceiveKept(m, callbacks);
      var a := Receive(m, callbacks);
      ActKept(a, Poll(a.modem.nas.NasRegistered?));
      if a.modem.nas.NasRegistered? {
        WaitKeeps(Do(a, Poll(true)), if polls == [] then [] else polls[1..]);
      }
    }
  }

  lemma StartKept(m: Machine, t: Turn)
    requires Inv(m) && m.thread.driven.Registered? && !m.v4.waiting && !m.v6.waiting
    ensures Inv(StartNetwork(m, t)) && StartNetwork(m, t).thread == m.thread
  {
    hide Inv, Receive;
    var a := m;
    if UsesV4(m.modem.pdp) {
      RequestKept(m, Start(V4), t.during);
      a := Receive(Do(m, Start(V4)), t.during);
    }
    if UsesV6(a.modem.pdp) {
      RequestKept(a, Start(V6), t.after);
    }
  }

  // The branch of the REGISTERED state that brings the network up.
  lemma BringUpKept(m: Machine, t: Turn)
    requires Sound(m) && m.thread.published == m.thread.driven && m.thread.driven.Registered?
    requires m.modem.nas.NasRegistered? && !m.v4.waiting && !m.v6.waiting
    ensures var w := Wait(m, t.polls);
            Sound(if w.modem.nas.NasRegistered? then StartNetwork(Do(w, Starting), t) else Do(w, Declare(Deregistered)))
  {
    hide Inv, Receive;
    WaitKeeps(m, t.polls);
    var w := Wait(m, t.polls);
    if w.modem.nas.NasRegistered? {
      ActKept(w, Starting);
      StartKept(Do(w, Starting), t);
    } else {
      ActKept(w, Declare(Deregistered));
    }
  }

  lemma AttachedKept(m: Machine, t: Turn)
    requires Sound(m) && m.thread.published == m.thread.driven && m.thread.driven.Registered?
    ensures Sound(Attached(m, t))
  {
    hide Inv, Receive;
    if !m.modem.nas.NasRegistered? {
      ActKept(m, SuspendNas);
      ActKept(Do(m, SuspendNas), Declare(Deregistered));
    } else if m.modem.profile.NotReady? {
      RequestKept(m, AskProfile, t.during);
    } else if m.modem.profile.Created? {
      ActKept(m, Exit);
    } else if !(m.modem.profile.Configuring? || Busy(m.v4) || Busy(m.v6)) {
      if m.modem.profile.Ready? && m.face.upstream && !m.v4.connected && !m.v6.connected {
        BringUpKept(m, t);
      } else if Carried(m.modem.pdp, m.v4.connected, m.v6.connected) {
        ActKept(m, Connect);
      }
    }
  }

  lemma RegisteredKept(m: Machine, t: Turn)
    requires Sound(m) && m.thread.published == m.thread.driven && m.thread.driven.Registered?
    ensures Sound(StateRegistered(m, t))
  {
    hide Inv, Receive;
    if !m.modem.present {
      ActKept(m, GoDown);
    } else if !m.modem.enabled || m.modem.open.OpenNotReady? {
      DeactivateKept(m, t);
    } else if m.modem.slot.SlotNotReady? {
      LapseKept(m);
    } else {
      ReceiveKept(m, t.inquiry);
      var a := Receive(m, t.inquiry);
      if t.cardInvalid || !a.face.ifEnable {
        LapseKept(a);
      } else {
        AttachedKept(a, t);
      }
    }
  }

  lemma StopKept(m: Machine, t: Turn)
    requires Sound(m) && m.thread.published == m.thread.driven && m.thread.driven.Connected?
    ensures Sound(StopNetwork(m, t))
  {
    hide Inv, Receive;
    var a := m;
    if UsesV4(m.modem.pdp) {
      RequestKept(m, Stop(V4), t.during);
      a := Receive(Do(m, Stop(V4)), t.during);
    }
    var b := a;
    if UsesV6(a.modem.pdp) {
      RequestKept(a, Stop(V6), t.after);
      b := Receive(Do(a, Stop(V6)), t.after);
    }
    StoppedKept(b);
  }

  lemma StoppedKept(m: Machine)
    requires Sound(m) && m.thread.published == m.thread.driven && m.thread.driven.Connected?
    ensures Sound(Stopped(m))
  {
    hide Inv, Receive;
    if !m.modem.enabled {
      ActKept(m, Declare(Deactivated));
    } else if !m.face.ifEnable {
      LapseKept(m);
    } else if !m.modem.nas.NasRegistered? {
      ActKept(m, SuspendNas);
      ActKept(Do(m, SuspendNas), Declare(Deregistered));
    } else {
      ActKept(m, Declare(Registered));
    }
  }

  lemma ConnectedKept(m: Machine, t: Turn)
    requires Sound(m) && m.thread.published == m.thread.driven && m.thread.driven.Connected?
    ensures Sound(StateConnected(m, t))
  {
    hide Inv, Receive;
    if !m.modem.present {
      ActKept(m, GoDown);
    } else if m.modem.open.OpenNotReady? {
      DeactivateKept(m, t);
    } else if !m.modem.enabled || m.modem.slot.SlotNotReady? || !m.face.ifEnable || !m.face.upstream || Broken(m) {
      ActKept(m, TearDown);
      StopKept(Do(m, TearDown), t);
    }
  }

  lemma DispatchedKept(m: Machine)
    requires Sound(m) && !m.thread.driven.Halted?
    ensures var d := Dispatched(m);
            Sound(d) && d.thread.driven == m.thread.driven && d.thread.published == d.thread.driven
  {
    if m.thread.published != m.thread.driven {
      ActKept(m, Publish);
    }
  }

  lemma NextKept(m: Machine, input: Input)
    requires Sound(m)
    ensures Sound(Next(m, input))
  {
    if !m.thread.driven.Halted? {
      match input
      case Callback(c) => ActKept(m, Got(c));
      case Loop(t) =>
        DispatchedKept(m);
        var d := Dispatched(m);
        match m.thread.driven {
          case Down => DownKept(d, t);
          case Deactivated => DeactivatedKept(d, t);
          case Deregistered => DeregisteredKept(d, t);
          case Registered => RegisteredKept(d, t);
          case Connected => ConnectedKept(d, t);
        }
    }
  }

  lemma {:induction false} RunKept(m: Machine, inputs: seq<Input>)
    requires Sound(m)
    ensures Sound(Run(m, inputs))
    decreases |inputs|
  {
    if inputs != [] {
      NextKept(m, inputs[0]);
      RunKept(Next(m, inputs[0]), inputs[1..]);
    }
  }

  lemma BootSound(wanted: bool, ifEnable: bool, upstream: bool)
    ensures Sound(Boot(wanted, ifEnable, upstream))
  {
    hide BearerTrue, ModemTrue, SettingsTrue, WaitTrue, FaceTrue, ConnectsCarried, EpisodeTrue;
    BootModem(wanted, ifEnable, upstream);
    BootRest(wanted, ifEnable, upstream);
  }

  lemma BootModem(wanted: bool, ifEnable: bool, upstream: bool)
    ensures var m := Boot(wanted, ifEnable, upstream);
            ModemTrue(m.modem, m.log) && SettingsTrue(m.modem, m.face, m.log) && EpisodeTrue(m.thread, m.modem, m.log)
  {
  }

  lemma BootRest(wanted: bool, ifEnable: bool, upstream: bool)
    ensures var m := Boot(wanted, ifEnable, upstream);
            && BearerTrue(m.v4, V4, m.log) && BearerTrue(m.v6, V6, m.log)
            && WaitTrue(m.thread, m.log) && FaceTrue(m.thread, m.face, m.log) && ConnectsCarried(m.log)
  {
  }

  // A callback keeps the invariant, during a turn too.
  lemma HeardKept(m: Machine, c: Callback)
    ensures Inv(m) ==> Inv(Do(m, Got(c)))
    ensures Sound(m) ==> Sound(Do(m, Got(c)))
  {
    if Inv(m) {
      ActKept(m, Got(c));
    }
  }

  // The invariant holds in every run from the start.
  lemma Invariant(wanted: bool, ifEnable: bool, upstream: bool, inputs: seq<Input>)
    ensures Sound(Run(Boot(wanted, ifEnable, upstream), inputs))
  {
    BootSound(wanted, ifEnable, upstream);
    RunKept(Boot(wanted, ifEnable, upstream), inputs);
  }
}
