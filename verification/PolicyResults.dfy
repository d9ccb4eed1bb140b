/** The main results about the policy machine, for every run from the start. */
module PolicyResults {
  import opened PolicyModel
  import opened PolicyHistory
  import opened PolicyProofs
  import P = ProfileScript

  // The machine after any inputs.
  function After(wanted: bool, ifEnable: bool, upstream: bool, inputs: seq<Input>): Machine {
    Run(Boot(wanted, ifEnable, upstream), inputs)
  }

  // Everything the machine knows is what was reported, set and asked last.
  lemma StateIsHistory(wanted: bool, ifEnable: bool, upstream: bool, inputs: seq<Input>)
    ensures var m := After(wanted, ifEnable, upstream, inputs);
            && (m.modem.present <==> PresentNow(m.log)) && m.modem.open == OpenNow(m.log)
            && (m.modem.online <==> OnlineNow(m.log)) && (m.modem.wanted <==> WantedNow(m.log))
            && (m.modem.enabled <==> EnabledNow(m.log))
            && m.modem.slot == SlotNow(m.log) && m.modem.nas == NasNow(m.log)
            && m.modem.profile == ProfileNow(m.log) && m.modem.pdp == PdpNow(m.log)
            && (m.face.ifEnable <==> IfEnableNow(m.log)) && (m.face.upstream <==> UpstreamNow(m.log))
            && BearerIsHistory(m.v4, m.log, V4) && BearerIsHistory(m.v6, m.log, V6)
            && Beginning(m.log) == Settings(wanted, ifEnable, upstream)
  {
    Invariant(wanted, ifEnable, upstream, inputs);
    RunBegins(Boot(wanted, ifEnable, upstream), inputs);
  }

  // What had been set before the start.
  function Beginning(log: Log): Settings {
    match log
    case Empty(boot) => boot
    case Then(past, _) => Beginning(past)
  }

  lemma {:induction false} ReceiveBegins(m: Machine, callbacks: seq<Callback>)
    ensures Beginning(Receive(m, callbacks).log) == Beginning(m.log)
    decreases |callbacks|
  {
    if callbacks != [] {
      ReceiveBegins(Do(m, Got(callbacks[0])), callbacks[1..]);
    }
  }

  lemma {:induction false} WaitBegins(m: Machine, polls: seq<seq<Callback>>)
    requires m.modem.nas.NasRegistered?
    ensures Beginning(Wait(m, polls).log) == Beginning(m.log)
    decreases m.thread.maxWait - m.thread.iter
  {
    hide ModemAfter, BearerAfter, FaceAfter;
    if m.thread.iter < m.thread.maxWait {
      var callbacks := if polls == [] then [] else polls[0];
      var a := Receive(m, callbacks);
      ReceiveBegins(m, callbacks);
      Unpolled(a);
      if a.modem.nas.NasRegistered? {
        WaitBegins(Do(a, Poll(true)), if polls == [] then [] else polls[1..]);
      }
    }
  }

  lemma Unpolled(m: Machine)
    ensures Do(m, Poll(true)).modem == m.modem
  {
  }

  // No turn changes how the history began.
  lemma TurnBegins(m: Machine, t: Turn)
    ensures Beginning(Dispatch(m, t).log) == Beginning(m.log)
  {
    hide ThreadAfter, FaceAfter, ModemAfter, BearerAfter, Receive, Wait;
    forall n, a
      ensures Beginning(Do(n, a).log) == Beginning(n.log)
    {
    }
    forall n, callbacks
      ensures Beginning(Receive(n, callbacks).log) == Beginning(n.log)
    {
      ReceiveBegins(n, callbacks);
    }
    forall n: Machine, polls | n.modem.nas.NasRegistered?
      ensures Beginning(Wait(n, polls).log) == Beginning(n.log)
    {
      WaitBegins(n, polls);
    }
  }

  lemma {:induction false} RunBegins(m: Machine, inputs: seq<Input>)
    ensures Beginning(Run(m, inputs).log) == Beginning(m.log)
    decreases |inputs|
  {
    hide Dispatch;
    if inputs != [] {
      if inputs[0].Loop? {
        TurnBegins(Dispatched(m), inputs[0].turn);
      }
      RunBegins(Next(m, inputs[0]), inputs[1..]);
    }
  }

  predicate BearerIsHistory(b: Bearer, log: Log, side: Side) {
    && b.starting == BeingStarted(log, side) && b.waiting == Waiting(log, side)
    && b.ready == Addressed(log, side) && b.connected == PacketUp(log, side)
  }

  // A family that is being started waits for its packet service and has no address; one that waits is not up.
  lemma FamilyPhases(wanted: bool, ifEnable: bool, upstream: bool, inputs: seq<Input>, side: Side)
    ensures var m := After(wanted, ifEnable, upstream, inputs);
            var b := if side.V4? then m.v4 else m.v6;
            && (b.starting ==> b.waiting && !b.ready && !b.connected)
            && (b.waiting ==> !b.connected)
  {
    Invariant(wanted, ifEnable, upstream, inputs);
  }

  // The packet status is what the history says, and CONNECTED is entered only with every family of the PDP type up;
  // while connected, no family is being started.
  lemma PacketHistory(wanted: bool, ifEnable: bool, upstream: bool, inputs: seq<Input>)
    ensures var m := After(wanted, ifEnable, upstream, inputs);
            && (m.v4.connected <==> PacketUp(m.log, V4))
            && (m.v6.connected <==> PacketUp(m.log, V6))
            && ConnectsCarried(m.log)
            && (m.thread.driven.Connected? ==>
                  !m.v4.starting && !m.v4.waiting && !m.v6.starting && !m.v6.waiting)
  {
    Invariant(wanted, ifEnable, upstream, inputs);
  }

  // The reported state is the driven one, except in DEACTIVATED, where it is any state but DOWN.
  lemma ReportedState(wanted: bool, ifEnable: bool, upstream: bool, inputs: seq<Input>)
    ensures var l := After(wanted, ifEnable, upstream, inputs).thread;
            && (!l.driven.Deactivated? && !l.driven.Halted? ==> l.reported == l.driven)
            && (l.driven.Deactivated? ==>
                  l.reported.Deactivated? || l.reported.Deregistered? || l.reported.Registered? || l.reported.Connected?)
  {
    Invariant(wanted, ifEnable, upstream, inputs);
  }

  // At every dispatch the link is available exactly in CONNECTED. The physical status holds exactly in REGISTERED and
  // CONNECTED, or in DEACTIVATED if a read of it has since copied a reported state that was never withdrawn.
  lemma PublishedLinkState(wanted: bool, ifEnable: bool, upstream: bool, inputs: seq<Input>)
    ensures var m := After(wanted, ifEnable, upstream, inputs);
            !m.thread.driven.Halted? ==>
              var d := Dispatched(m);
              && (d.face.link <==> d.thread.driven.Connected?)
              && (d.face.phy <==>
                    || d.thread.driven.Registered?
                    || d.thread.driven.Connected?
                    || (d.thread.driven.Deactivated? && ReadSincePublished(d.log)
                        && (d.thread.reported.Registered? || d.thread.reported.Connected?)))
              && (d.face.link ==> d.face.phy)
  {
    var m := After(wanted, ifEnable, upstream, inputs);
    Invariant(wanted, ifEnable, upstream, inputs);
    if !m.thread.driven.Halted? {
      DispatchedKept(m);
    }
  }

  // Without reads the published state is exact.
  lemma PublishedWithoutReads(wanted: bool, ifEnable: bool, upstream: bool, inputs: seq<Input>)
    ensures var m := After(wanted, ifEnable, upstream, inputs);
            !m.thread.driven.Halted? && NeverRead(m.log) ==>
              var d := Dispatched(m);
              d.face.phy <==> d.thread.driven.Registered? || d.thread.driven.Connected?
  {
    var m := After(wanted, ifEnable, upstream, inputs);
    if !m.thread.driven.Halted? && NeverRead(m.log) {
      PublishedLinkState(wanted, ifEnable, upstream, inputs);
      NeverReadSince(Dispatched(m).log);
    }
  }

  // Every request of every run is made in the situation it is meant for.
  lemma JustifiedRequests(wanted: bool, ifEnable: bool, upstream: bool, inputs: seq<Input>)
    ensures RequestsJustified(After(wanted, ifEnable, upstream, inputs).log)
  {
    Invariant(wanted, ifEnable, upstream, inputs);
  }

  // Every registration request answers a loss of the registration, and losses not yet answered were answered by the
  // modem itself or are pending.
  lemma RegistrationRequests(wanted: bool, ifEnable: bool, upstream: bool, inputs: seq<Input>)
    ensures var m := After(wanted, ifEnable, upstream, inputs);
            var pending := if m.modem.nas.NasNotRegistered? then 1 else 0;
            && Monitors(m.log) + Escapes(m.log) + pending == Losses(m.log)
            && Monitors(m.log) + pending <= Losses(m.log)
  {
    Invariant(wanted, ifEnable, upstream, inputs);
    NasAccount(After(wanted, ifEnable, upstream, inputs).log);
  }

  // A loss that arrives while the modem is registered asks for nothing by itself: however the run goes on, every
  // registration request made after it answers a further loss.
  lemma LossWhileRegistered(wanted: bool, ifEnable: bool, upstream: bool, inputs: seq<Input>, before: Log)
    ensures var log, lost := After(wanted, ifEnable, upstream, inputs).log, Then(before, Got(NasChanged(NasNotRegistered)));
            Within(lost, log) && NasNow(before).NasRegistered? ==>
              && NasNow(lost).NasRegistering?
              && Monitors(log) - Monitors(before) + Pending(log) <= Losses(log) - Losses(before)
  {
    var log, lost := After(wanted, ifEnable, upstream, inputs).log, Then(before, Got(NasChanged(NasNotRegistered)));
    Invariant(wanted, ifEnable, upstream, inputs);
    if Within(lost, log) {
      RequestsNeedLosses(lost, log);
    }
  }

  // Between turns no wait is half done, a wait is due exactly until the first start after an entry to CONNECTED, and
  // that start has come after three good polls in a row.
  lemma StartDebounce(wanted: bool, ifEnable: bool, upstream: bool, inputs: seq<Input>)
    ensures var m := After(wanted, ifEnable, upstream, inputs);
            && m.thread.iter == 0
            && m.thread.maxWait == (if Armed(m.log) then 3 else 0)
            && StartsSettled(m.log)
            && RequestsJustified(m.log)
  {
    Invariant(wanted, ifEnable, upstream, inputs);
  }

  // Each entry to CONNECTED follows, for every family of the PDP type, a report that it is up which is more recent
  // than the last transition to DOWN.
  predicate ConnectsFresh(log: Log) {
    match log
    case Empty(_) => true
    case Then(past, last) =>
      && (last.Connect? ==> Carried(PdpNow(past), PacketsSinceDown(past, V4), PacketsSinceDown(past, V6)))
      && ConnectsFresh(past)
  }

  lemma {:induction false} CarriedIsFresh(log: Log)
    requires ConnectsCarried(log)
    ensures ConnectsFresh(log)
  {
    match log
    case Empty(_) =>
    case Then(past, last) =>
      CarriedIsFresh(past);
      if PacketUp(past, V4) {
        UpSinceDown(past, V4);
      }
      if PacketUp(past, V6) {
        UpSinceDown(past, V6);
      }
  }

  // Each CONNECTED has new packet reports. In REGISTERED and CONNECTED, the registration has been reported since the
  // last slot request and the last transition to DOWN exactly if a slot has been asked for or the modem has reported
  // REGISTERED since DOWN. It can be missing only in an episode in which a slot was reported without being asked for.
  lemma FreshReattach(wanted: bool, ifEnable: bool, upstream: bool, inputs: seq<Input>)
    ensures var m := After(wanted, ifEnable, upstream, inputs);
            && ConnectsFresh(m.log)
            && (Live(m.thread.driven) ==>
                  (Registrations(m.log) <==> Selected(m.log) || RegisteredSinceDown(m.log)))
            && (Live(m.thread.driven) && !Registrations(m.log) ==>
                  !Selected(m.log) && !RegisteredSinceDown(m.log) && UnsolicitedSinceDown(m.log))
  {
    var m := After(wanted, ifEnable, upstream, inputs);
    Invariant(wanted, ifEnable, upstream, inputs);
    CarriedIsFresh(m.log);
    UnselectedRegistrations(m.log);
  }

  // A turn that leaves DEACTIVATED for DEREGISTERED has asked for a slot in this episode exactly if one had been asked
  // for before, or none was ready or being selected when the turn began.
  lemma LeavingDeactivated(m: Machine, t: Turn)
    requires m.thread.driven.Deactivated? && Next(m, Loop(t)).thread.driven.Deregistered?
    ensures Selected(Next(m, Loop(t)).log) <==> Selected(m.log) || m.modem.slot.SlotNotReady?
  {
    ReceiveSelected(Do(Dispatched(m), AskSlot), t.during);
  }

  lemma {:induction false} ReceiveSelected(m: Machine, callbacks: seq<Callback>)
    ensures var r := Receive(m, callbacks);
            Selected(r.log) == Selected(m.log) && r.thread == m.thread
    decreases |callbacks|
  {
    if callbacks != [] {
      ReceiveSelected(Do(m, Got(callbacks[0])), callbacks[1..]);
    }
  }

  // A machine in REGISTERED that has all it needs but a pending start.
  predicate HeldUp(m: Machine) {
    && m.thread.driven.Registered? && m.thread.published.Registered?
    && m.modem.present && m.modem.enabled && !m.modem.open.OpenNotReady? && !m.modem.slot.SlotNotReady?
    && m.modem.nas.NasRegistered? && m.modem.profile.Ready? && m.face.ifEnable
    && (Busy(m.v4) || Busy(m.v6))
  }

  // It stays as it is for any number of turns, until a callback arrives: the loop itself never ends the wait.
  lemma {:induction false} OnlyCallbacksEndWait(m: Machine, inputs: seq<Input>)
    requires HeldUp(m)
    requires forall i :: 0 <= i < |inputs| ==>
               inputs[i].Loop? && inputs[i].turn.inquiry == [] && !inputs[i].turn.cardInvalid
    ensures Run(m, inputs) == m
    decreases |inputs|
  {
    if inputs != [] {
      assert inputs[0].Loop?;
      assert Next(m, inputs[0]) == m;
      OnlyCallbacksEndWait(m, inputs[1..]);
    }
  }

  // ---- why the conditions are needed ----

  const QUIETLY := Turn(true, false, [], [], [], [], [])

  // Three turns take the machine to REGISTERED: the device opens, the slot becomes ready and the modem registers, each
  // while it is asked to.
  const OPENS := Loop(QUIETLY.(during := [OpenChanged(OpenReady, true)]))
  const SELECTS := Loop(QUIETLY.(during := [SlotChanged(SlotReady)]))
  const REGISTERS := Loop(QUIETLY.(during := [NasChanged(NasRegistered)]))

  lemma Heard(m: Machine, c: Callback)
    ensures Receive(m, [c]) == Do(m, Got(c))
  {
  }

  lemma Opens(m: Machine)
    requires m.thread.driven.Down? && m.thread.reported.Down? && m.modem.open.OpenNotReady? && m.modem.wanted
    ensures var n := Next(m, OPENS);
            && n.thread == m.thread.(driven := Deactivated, reported := Deactivated, published := Down)
            && n.modem == m.modem.(present := true, open := OpenReady, online := true, enabled := true)
            && n.face.ifEnable == m.face.ifEnable && n.face.upstream == m.face.upstream
            && n.v4 == m.v4 && n.v6 == m.v6
            && Registrations(n.log) == Registrations(m.log)
  {
    var a := Do(Dispatched(m), Detect(true));
    assert Registrations(a.log) == Registrations(m.log);
    var b := Do(Do(a, AskOpen), Got(OpenChanged(OpenReady, true)));
    assert Registrations(b.log) == Registrations(a.log);
    Heard(Do(a, AskOpen), OpenChanged(OpenReady, true));
    assert Next(m, OPENS) == Do(b, Declare(Deactivated));
  }

  lemma Selects(m: Machine)
    requires m.thread == Thread(Deactivated, Deactivated, Down, 0, 0) && m.modem.slot.SlotNotReady?
    requires m.modem.present && m.modem.open.OpenReady? && m.modem.enabled
    ensures var n := Next(m, SELECTS);
            && n.thread == Thread(Deregistered, Deregistered, Deactivated, 0, 0)
            && n.modem == m.modem.(slot := SlotReady, nas := NasNotRegistered)
            && n.face.ifEnable == m.face.ifEnable && n.face.upstream == m.face.upstream
            && n.v4 == m.v4 && n.v6 == m.v6
  {
    Heard(Do(Dispatched(m), AskSlot), SlotChanged(SlotReady));
  }

  lemma Registers(m: Machine)
    requires m.thread == Thread(Deregistered, Deregistered, Deactivated, 0, 0)
    requires m.modem.slot.SlotReady? && m.modem.nas.NasNotRegistered? && m.face.ifEnable
    requires m.modem.present && m.modem.open.OpenReady? && m.modem.enabled
    ensures var n := Next(m, REGISTERS);
            && n.thread == Thread(Registered, Registered, Deregistered, 0, 0)
            && n.modem == m.modem.(nas := NasRegistered)
            && n.face.ifEnable
            && n.face.upstream == m.face.upstream
            && n.v4 == m.v4 && n.v6 == m.v6
  {
    Heard(Do(Dispatched(m), AskMonitor), NasChanged(NasRegistered));
  }

  function Registering(): Machine {
    Next(Next(Next(Boot(true, true, true), OPENS), SELECTS), REGISTERS)
  }

  lemma ReachesRegistered()
    ensures var m := Registering();
            && m.thread == Thread(Registered, Registered, Deregistered, 0, 0)
            && m.modem == Modem(true, OpenReady, true, true, true, SlotReady, NasRegistered, P.NotReady, P.IPv4)
            && m.face.ifEnable && m.face.upstream
            && m.v4 == IDLE && m.v6 == IDLE
  {
    var m := Boot(true, true, true);
    Opens(m);
    Selects(Next(m, OPENS));
    Registers(Next(Next(m, OPENS), SELECTS));
  }

  lemma ReadStale(m: Machine)
    requires m.thread == Thread(Deactivated, Registered, Registered, 0, 0) && m.modem.present && !m.modem.enabled
    ensures var idle := Next(m, Loop(QUIETLY));
            var read := Next(idle, Callback(PhyRead));
            && idle.thread.driven.Deactivated? && !idle.face.phy
            && read.thread.driven.Deactivated? && Dispatched(read).face.phy
  {
    assert Next(m, Loop(QUIETLY)) == Do(m, Publish);
  }

  lemma TurnsOff(m: Machine)
    requires m.thread == Thread(Registered, Registered, Deregistered, 0, 0) && m.modem.present
    ensures var n := Next(Next(m, Callback(ModemEnableSet(false, true))), Loop(QUIETLY));
            && n.thread == Thread(Deactivated, Registered, Registered, 0, 0)
            && n.modem.present && !n.modem.enabled
  {
  }

  // A read makes the physical status true in DEACTIVATED, after the management interface has disabled the modem in
  // REGISTERED.
  lemma StalePhysicalStatus()
    ensures var off := Next(Next(Registering(), Callback(ModemEnableSet(false, true))), Loop(QUIETLY));
            var idle := Next(off, Loop(QUIETLY));
            var read := Next(idle, Callback(PhyRead));
            && idle.thread.driven.Deactivated? && !idle.face.phy
            && read.thread.driven.Deactivated? && Dispatched(read).face.phy
  {
    ReachesRegistered();
    TurnsOff(Registering());
    ReadStale(Next(Next(Registering(), Callback(ModemEnableSet(false, true))), Loop(QUIETLY)));
  }

  lemma Vanishes(m: Machine)
    requires m.thread.driven.Registered? && m.thread.iter == m.thread.maxWait == 0
    ensures var n := Next(Next(m, Callback(DetectionChanged(false))), Loop(QUIETLY));
            && n.thread == Thread(Down, Down, Registered, 0, 0)
            && n.modem == m.modem.(present := false, open := OpenNotReady, slot := SlotNotReady)
            && n.face.ifEnable == m.face.ifEnable
            && n.v4.waiting == m.v4.waiting
            && !Registrations(n.log)
  {
    var gone := Do(m, Got(DetectionChanged(false)));
    assert Next(gone, Loop(QUIETLY)) == Do(Dispatched(gone), GoDown);
  }

  // A slot report out of nowhere, with the registration still remembered.
  lemma Returns(m: Machine)
    requires m.thread == Thread(Deactivated, Deactivated, Down, 0, 0)
    requires m.modem.present && m.modem.open.OpenReady? && m.modem.enabled && m.modem.nas.NasRegistered?
    requires m.face.ifEnable && !Registrations(m.log)
    ensures var n := Next(Next(m, Callback(SlotChanged(SlotReady))), Loop(QUIETLY));
            && Next(n, Loop(QUIETLY)).thread.driven.Registered?
            && !Registrations(Next(n, Loop(QUIETLY)).log)
  {
    var a := Do(m, Got(SlotChanged(SlotReady)));
    assert !Registrations(a.log);
    var b := Do(Do(a, Publish), Declare(Deregistered));
    assert Next(a, Loop(QUIETLY)) == b;
    assert !Registrations(b.log);
    assert Next(b, Loop(QUIETLY)) == Do(Do(b, Publish), Declare(Registered));
  }

  // An unsolicited slot report lets the machine return to REGISTERED after the device was removed, with no new report
  // that the modem is registered.
  lemma StaleRegistration()
    ensures var gone := Next(Next(Registering(), Callback(DetectionChanged(false))), Loop(QUIETLY));
            var back := Next(Next(Next(gone, OPENS), Callback(SlotChanged(SlotReady))), Loop(QUIETLY));
            var end := Next(back, Loop(QUIETLY));
            gone.thread.driven.Down? && end.thread.driven.Registered? && !Registrations(end.log)
  {
    ReachesRegistered();
    Vanishes(Registering());
    var gone := Next(Next(Registering(), Callback(DetectionChanged(false))), Loop(QUIETLY));
    Opens(gone);
    Returns(Next(gone, OPENS));
  }

  // ---- a start that a removal leaves pending ----

  const CONFIGURES := Loop(QUIETLY.(during := [ProfileChanged(P.Ready, P.IPv4)]))

  lemma Configures(m: Machine)
    requires m.thread == Thread(Registered, Registered, Deregistered, 0, 0)
    requires m.modem == Modem(true, OpenReady, true, true, true, SlotReady, NasRegistered, P.NotReady, P.IPv4)
    requires m.face.ifEnable
    ensures var n := Next(m, CONFIGURES);
            && n.thread == Thread(Registered, Registered, Registered, 0, 0)
            && n.modem == m.modem.(profile := P.Ready)
            && n.face.ifEnable && n.face.upstream == m.face.upstream
            && n.v4 == IDLE && n.v6 == IDLE
  {
    Heard(Do(Dispatched(m), AskProfile), ProfileChanged(P.Ready, P.IPv4));
  }

  lemma StartsV4(m: Machine)
    requires m.thread == Thread(Registered, Registered, Registered, 0, 0)
    requires m.modem == Modem(true, OpenReady, true, true, true, SlotReady, NasRegistered, P.Ready, P.IPv4)
    requires m.face.ifEnable && m.face.upstream && m.v4 == IDLE && m.v6 == IDLE
    ensures var n := Next(m, Loop(QUIETLY));
            n.thread == m.thread && n.modem == m.modem && n.face.ifEnable && n.v4.waiting
  {
    assert Next(m, Loop(QUIETLY)) == Do(Do(m, Starting), Start(V4));
  }

  // A machine that is waiting when the device is removed, and comes back to REGISTERED with a new registration.
  function Comeback(m: Machine): Machine {
    var gone := Next(Next(m, Callback(DetectionChanged(false))), Loop(QUIETLY));
    Next(Next(Next(Next(gone, OPENS), SELECTS), REGISTERS), Loop(QUIETLY))
  }

  lemma ComesBackHeldUp(m: Machine)
    requires m.thread == Thread(Registered, Registered, Registered, 0, 0)
    requires m.modem == Modem(true, OpenReady, true, true, true, SlotReady, NasRegistered, P.Ready, P.IPv4)
    requires m.face.ifEnable && m.v4.waiting
    ensures HeldUp(Comeback(m))
  {
    Vanishes(m);
    var gone := Next(Next(m, Callback(DetectionChanged(false))), Loop(QUIETLY));
    Opens(gone);
    Selects(Next(gone, OPENS));
    Registers(Next(Next(gone, OPENS), SELECTS));
    Waits(Next(Next(Next(gone, OPENS), SELECTS), REGISTERS));
  }

  lemma Waits(m: Machine)
    requires m.thread == Thread(Registered, Registered, Deregistered, 0, 0)
    requires m.modem == Modem(true, OpenReady, true, true, true, SlotReady, NasRegistered, P.Ready, P.IPv4)
    requires m.face.ifEnable && m.v4.waiting
    ensures HeldUp(Next(m, Loop(QUIETLY)))
  {
    assert Next(m, Loop(QUIETLY)) == Do(m, Publish);
  }

  // A run from the start: the network is being started when the device is removed, and after the device has come back
  // and registered anew, the machine is held up by that start, for as long as no callback arrives.
  lemma HeldUpAfterRemoval(idle: seq<Input>)
    requires forall i :: 0 <= i < |idle| ==>
               idle[i].Loop? && idle[i].turn.inquiry == [] && !idle[i].turn.cardInvalid
    ensures var starting := Next(Next(Registering(), CONFIGURES), Loop(QUIETLY));
            var gone := Next(Next(starting, Callback(DetectionChanged(false))), Loop(QUIETLY));
            && gone.thread.driven.Down?
            && HeldUp(Comeback(starting))
            && Run(Comeback(starting), idle) == Comeback(starting)
  {
    ReachesRegistered();
    Configures(Registering());
    StartsV4(Next(Registering(), CONFIGURES));
    var starting := Next(Next(Registering(), CONFIGURES), Loop(QUIETLY));
    Vanishes(starting);
    ComesBackHeldUp(starting);
    OnlyCallbacksEndWait(Comeback(starting), idle);
  }
}
