/**
 The controller of the policy state machine: what the callbacks and the thread share, and the code that updates it
 step by step. Each callback, transition and state is proved to do what PolicyModel.dfy says, so that what
 PolicyResults.dfy proves of the model holds of a controller from its construction on.
 */
module PolicyController {
  import opened Wrappers
  import opened PolicyModel
  import P = ProfileScript
  import Proofs = PolicyProofs

  // The driven state of a machine plays no part in the callbacks.
  function Driving(m: Machine, phase: Phase): Machine {
    m.(thread := m.thread.(driven := phase))
  }

  lemma {:induction false} ReceiveDriving(m: Machine, phase: Phase, callbacks: seq<Callback>)
    ensures Receive(Driving(m, phase), callbacks) == Driving(Receive(m, callbacks), phase)
    decreases |callbacks|
  {
    if callbacks != [] {
      var c := callbacks[0];
      assert Do(Driving(m, phase), Got(c)) == Driving(Do(m, Got(c)), phase);
      ReceiveDriving(Do(m, Got(c)), phase, callbacks[1..]);
    }
  }

  class Controller {
    // the thread's own state
    var driven: Phase
    var published: Phase
    var iter: nat
    var maxWait: nat
    // the shared structure, with its fields grouped by what they describe
    var reported: Phase
    var face: Face
    var modem: Modem
    var v4: Bearer
    var v6: Bearer

    ghost var log: Log

    // The machine, if the thread were in a given state.
    ghost function ViewAt(phase: Phase): Machine
      reads this
    {
      Machine(Thread(phase, reported, published, iter, maxWait), face, modem, v4, v6, log)
    }

    ghost function View(): Machine
      reads this
    {
      ViewAt(driven)
    }

    // The invariant of a controller between turns: everything PolicyProofs.dfy proves of a machine.
    ghost predicate Valid()
      reads this
    {
      Proofs.Sound(View())
    }

    constructor (wanted: bool, ifEnable: bool, upstream: bool)
      ensures Valid() && View() == Boot(wanted, ifEnable, upstream)
    {
      hide Proofs.Sound;
      driven, reported, published := Down, Down, Down;
      iter, maxWait := 0, 0;
      face := Face(false, false, ifEnable, upstream);
      modem := Modem(false, OpenNotReady, false, wanted, false, SlotNotReady, NasNotRegistered, P.NotReady, P.IPv4);
      v4, v6 := IDLE, IDLE;
      log := Empty(Settings(wanted, ifEnable, upstream));
      new;
      UpdateEnable();
      driven := TransitionDown();
      Proofs.BootSound(wanted, ifEnable, upstream);
    }

    ghost method Note(a: Act)
      modifies this`log
      ensures log == Then(old(log), a)
    {
      log := Then(log, a);
    }

    // ---- callbacks ----

    method UpdateEnable()
      modifies this`modem
      ensures modem == old(modem).(enabled := old(modem).wanted && old(modem).online)
    {
      if modem.wanted && modem.online {
        modem := modem.(enabled := true);
      } else {
        modem := modem.(enabled := false);
      }
    }

    method OnDetection(present: bool)
      modifies this`modem, this`log
      ensures View() == Do(old(View()), Got(DetectionChanged(present)))
    {
      modem := modem.(present := present);
      modem := modem.(open := OpenNotReady);
      Note(Got(DetectionChanged(present)));
    }

    method OnOpen(open: OpenStatus, online: bool)
      modifies this`modem, this`log
      ensures View() == Do(old(View()), Got(OpenChanged(open, online)))
    {
      modem := modem.(open := open);
      if online {
        modem := modem.(online := true);
      } else {
        modem := modem.(online := false);
      }
      UpdateEnable();
      Note(Got(OpenChanged(open, online)));
    }

    method OnSlot(slot: SlotStatus)
      modifies this`modem, this`log
      ensures View() == Do(old(View()), Got(SlotChanged(slot)))
    {
      modem := modem.(slot := slot);
      Note(Got(SlotChanged(slot)));
    }

    method OnRegistration(nas: NasStatus)
      modifies this`modem, this`log
      ensures View() == Do(old(View()), Got(NasChanged(nas)))
    {
      if modem.nas.NasRegistered? && nas.NasNotRegistered? {
        modem := modem.(nas := NasRegistering);
      } else {
        modem := modem.(nas := nas);
      }
      Note(Got(NasChanged(nas)));
    }

    method OnProfile(profile: P.Status, pdp: P.PdpType)
      modifies this`modem, this`log
      ensures View() == Do(old(View()), Got(ProfileChanged(profile, pdp)))
    {
      modem := modem.(profile := profile);
      modem := modem.(pdp := pdp);
      Note(Got(ProfileChanged(profile, pdp)));
    }

    method OnIp(side: Side, ready: bool)
      modifies this`v4, this`v6, this`log
      ensures View() == Do(old(View()), Got(IpChanged(side, ready)))
    {
      if side.V4? {
        v4 := v4.(starting := false);
        v4 := v4.(ready := ready);
        if !v4.ready {
          v4 := v4.(waiting := false);
          v4 := v4.(connected := false);
        }
      } else {
        v6 := v6.(starting := false);
        v6 := v6.(ready := ready);
        if !v6.ready {
          v6 := v6.(waiting := false);
          v6 := v6.(connected := false);
        }
      }
      Note(Got(IpChanged(side, ready)));
    }

    method OnPacket(family: Option<Side>, connected: bool)
      modifies this`v4, this`v6, this`log
      ensures View() == Do(old(View()), Got(PacketChanged(family, connected)))
    {
      if family == Some(V4) {
        v4 := v4.(connected := connected);
        v4 := v4.(starting := false, waiting := false);
      } else if family == Some(V6) {
        v6 := v6.(connected := connected);
        v6 := v6.(starting := false, waiting := false);
      }
      Note(Got(PacketChanged(family, connected)));
    }

    method SetModemEnable(enable: bool, applied: bool)
      modifies this`modem, this`log
      ensures View() == Do(old(View()), Got(ModemEnableSet(enable, applied)))
    {
      modem := modem.(wanted := enable);
      if applied {
        UpdateEnable();
      }
      Note(Got(ModemEnableSet(enable, applied)));
    }

    method SetInterfaceEnable(enable: bool)
      modifies this`face, this`log
      ensures View() == Do(old(View()), Got(InterfaceEnableSet(enable)))
    {
      face := face.(ifEnable := enable);
      Note(Got(InterfaceEnableSet(enable)));
    }

    method SetUpstream(upstream: bool)
      modifies this`face, this`log
      ensures View() == Do(old(View()), Got(UpstreamSet(upstream)))
    {
      face := face.(upstream := upstream);
      Note(Got(UpstreamSet(upstream)));
    }

    // The getter of X_RDK_PhyConnectedStatus.
    method ReadPhy() returns (status: bool)
      modifies this`face, this`log
      ensures View() == Do(old(View()), Got(PhyRead)) && status == Live(reported)
    {
      if reported.Registered? || reported.Connected? {
        face := face.(phy := true);
      } else {
        face := face.(phy := false);
      }
      Note(Got(PhyRead));
      status := face.phy;
    }

    method Handle(c: Callback)
      modifies this`face, this`modem, this`v4, this`v6, this`log
      ensures View() == Do(old(View()), Got(c))
      ensures old(Valid()) ==> Valid()
    {
      Proofs.HeardKept(View(), c);
      match c {
        case DetectionChanged(present) => OnDetection(present);
        case OpenChanged(open, online) => OnOpen(open, online);
        case SlotChanged(slot) => OnSlot(slot);
        case NasChanged(nas) => OnRegistration(nas);
        case ProfileChanged(profile, pdp) => OnProfile(profile, pdp);
        case IpChanged(side, ready) => OnIp(side, ready);
        case PacketChanged(family, connected) => OnPacket(family, connected);
        case ModemEnableSet(enable, applied) => SetModemEnable(enable, applied);
        case InterfaceEnableSet(enable) => SetInterfaceEnable(enable);
        case UpstreamSet(upstream) => SetUpstream(upstream);
        case PhyRead => var _ := ReadPhy();
      }
    }

    // The thread sleeps or waits for the HAL while these callbacks arrive.
    method Listen(callbacks: seq<Callback>)
      modifies this`face, this`modem, this`v4, this`v6, this`log
      ensures View() == Receive(old(View()), callbacks)
    {
      var i := 0;
      while i < |callbacks|
        invariant i <= |callbacks|
        invariant Receive(View(), callbacks[i..]) == Receive(old(View()), callbacks)
      {
        assert callbacks[i..][0] == callbacks[i] && callbacks[i..][1..] == callbacks[i + 1..];
        Handle(callbacks[i]);
        i := i + 1;
      }
    }

    // ---- transitions ----

    method TransitionDown() returns (next: Phase)
      modifies this`reported, this`modem, this`v4, this`v6, this`log
      ensures ViewAt(next) == Do(old(View()), GoDown)
    {
      reported := Down;
      modem := modem.(slot := SlotNotReady);
      v4 := v4.(connected := false);
      v6 := v6.(connected := false);
      Note(GoDown);
      next := Down;
    }

    method RequestOpen(t: Turn)
      modifies this`face, this`modem, this`v4, this`v6, this`log
      ensures View() == Receive(Do(old(View()), AskOpen), t.during)
    {
      modem := modem.(open := OpenInProgress);
      Note(AskOpen);
      Listen(t.during);
    }

    method TransitionDeactivated(t: Turn) returns (next: Phase)
      modifies this`face, this`modem, this`v4, this`v6, this`log
      ensures ViewAt(next) == Deactivate(old(View()), t)
    {
      RequestOpen(t);
      Note(Enter(Deactivated));
      next := Deactivated;
    }

    method TransitionDeregistered(t: Turn)
      modifies this`face, this`modem, this`v4, this`v6, this`log
      ensures View() == Receive(Do(old(View()), AskSlot), t.during)
    {
      modem := modem.(slot := SlotSelecting);
      modem := modem.(nas := NasNotRegistered);
      Note(AskSlot);
      Listen(t.during);
    }

    method TransitionRegistering(t: Turn)
      modifies this`face, this`modem, this`v4, this`v6, this`log
      ensures View() == Receive(Do(old(View()), AskMonitor), t.during)
    {
      modem := modem.(nas := NasRegistering);
      Note(AskMonitor);
      Listen(t.during);
    }

    method TransitionRegistered(t: Turn)
      modifies this`face, this`modem, this`v4, this`v6, this`log
      ensures View() == Receive(Do(old(View()), AskProfile), t.during)
    {
      v4 := v4.(starting := false, waiting := false);
      v6 := v6.(starting := false, waiting := false);
      modem := modem.(profile := P.Configuring);
      v4 := v4.(connected := false, ready := false);
      v6 := v6.(connected := false, ready := false);
      Note(AskProfile);
      Listen(t.during);
    }

    method StartFamily(side: Side, callbacks: seq<Callback>)
      modifies this`face, this`modem, this`v4, this`v6, this`log
      ensures View() == Receive(Do(old(View()), Start(side)), callbacks)
    {
      if side.V4? {
        v4 := v4.(starting := true, waiting := true, connected := false, ready := false);
      } else {
        v6 := v6.(starting := true, waiting := true, connected := false, ready := false);
      }
      Note(Start(side));
      Listen(callbacks);
    }

    method TransitionStartNetwork(t: Turn)
      modifies this`face, this`modem, this`v4, this`v6, this`log
      ensures View() == StartNetwork(old(View()), t)
    {
      if modem.pdp.IPv4? || modem.pdp.IPv4v6? {
        StartFamily(V4, t.during);
      }
      if modem.pdp.IPv6? || modem.pdp.IPv4v6? {
        StartFamily(V6, t.after);
      }
    }

    method TransitionConnected() returns (next: Phase)
      modifies this`reported, this`maxWait, this`log
      ensures ViewAt(next) == Do(old(View()), Connect)
    {
      reported := Connected;
      maxWait := 3;
      Note(Connect);
      next := Connected;
    }

    // Sets the reported state to the one the thread goes to.
    method SetCurrentState(phase: Phase) returns (next: Phase)
      modifies this`reported, this`log
      ensures ViewAt(next) == Do(old(View()), Declare(phase))
    {
      reported := phase;
      Note(Declare(phase));
      next := phase;
    }

    method LoseRegistration() returns (next: Phase)
      modifies this`modem, this`reported, this`log
      ensures ViewAt(next) == Lapse(old(View()))
    {
      modem := modem.(nas := NasNotRegistered);
      Note(DropNas);
      next := SetCurrentState(Deregistered);
    }

    method SuspendRegistration() returns (next: Phase)
      modifies this`modem, this`reported, this`log
      ensures ViewAt(next) == Do(Do(old(View()), SuspendNas), Declare(Deregistered))
    {
      modem := modem.(nas := NasRegistering);
      Note(SuspendNas);
      next := SetCurrentState(Deregistered);
    }

    method StopFamilies(t: Turn)
      modifies this`face, this`modem, this`v4, this`v6, this`log
      ensures View() ==
              var m := old(View());
              var a := if UsesV4(m.modem.pdp) then Receive(Do(m, Stop(V4)), t.during) else m;
              if UsesV6(a.modem.pdp) then Receive(Do(a, Stop(V6)), t.after) else a
    {
      if modem.pdp.IPv4? || modem.pdp.IPv4v6? {
        Note(Stop(V4));
        Listen(t.during);
      }
      if modem.pdp.IPv6? || modem.pdp.IPv4v6? {
        Note(Stop(V6));
        Listen(t.after);
      }
    }

    method TransitionStopNetwork(t: Turn) returns (next: Phase)
      modifies this`face, this`modem, this`v4, this`v6, this`reported, this`log
      ensures ViewAt(next) == StopNetwork(old(View()), t)
    {
      StopFamilies(t);
      if !modem.enabled {
        next := SetCurrentState(Deactivated);
      } else if !face.ifEnable {
        next := LoseRegistration();
      } else if !modem.nas.NasRegistered? {
        next := SuspendRegistration();
      } else {
        next := SetCurrentState(Registered);
      }
    }

    // ---- states ----

    method InDown(t: Turn) returns (next: Phase)
      requires driven.Down?
      modifies this`face, this`modem, this`v4, this`v6, this`reported, this`log
      ensures ViewAt(next) == StateDown(old(View()), t)
    {
      modem := modem.(present := false);
      if t.devicePresent {
        modem := modem.(present := true);
      }
      Note(Detect(t.devicePresent));
      if modem.present && modem.open.OpenNotReady? {
        Listen(t.nap);
        RequestOpen(t);
      }
      if modem.open.OpenReady? {
        next := SetCurrentState(Deactivated);
      } else {
        next := Down;
      }
    }

    method InDeactivated(t: Turn) returns (next: Phase)
      requires driven.Deactivated?
      modifies this`face, this`modem, this`v4, this`v6, this`reported, this`log
      ensures ViewAt(next) == StateDeactivated(old(View()), t)
    {
      if !modem.present {
        next := TransitionDown();
        return;
      }
      if modem.enabled && modem.open.OpenReady? && modem.slot.SlotNotReady? {
        TransitionDeregistered(t);
      }
      if modem.enabled && (modem.slot.SlotSelecting? || modem.slot.SlotReady?) {
        next := SetCurrentState(Deregistered);
      } else {
        next := Deactivated;
      }
    }

    // The registration attempt, once the card is known to be usable.
    method TryToRegister(t: Turn) returns (next: Phase)
      requires driven.Deregistered?
      modifies this`face, this`modem, this`v4, this`v6, this`reported, this`log
      ensures ViewAt(next) == Attach(old(View()), t)
    {
      if modem.slot.SlotReady? && face.ifEnable && modem.nas.NasNotRegistered? {
        TransitionRegistering(t);
      }
      if modem.nas.NasRegistered? {
        next := SetCurrentState(Registered);
        ReceiveDriving(View(), Registered, t.nap);
        Listen(t.nap);
      } else {
        next := Deregistered;
      }
    }

    method InDeregistered(t: Turn) returns (next: Phase)
      requires driven.Deregistered?
      modifies this`face, this`modem, this`v4, this`v6, this`reported, this`log
      ensures ViewAt(next) == StateDeregistered(old(View()), t)
    {
      if !modem.present {
        next := TransitionDown();
        return;
      }
      if !modem.enabled || modem.open.OpenNotReady? {
        next := TransitionDeactivated(t);
        return;
      }
      if modem.slot.SlotSelecting? || modem.nas.NasRegistering? || !face.ifEnable {
        next := Deregistered;
        return;
      }
      Listen(t.inquiry);
      if t.cardInvalid {
        next := Deregistered;
        return;
      }
      next := TryToRegister(t);
    }

    // One second of waiting and the poll at its end.
    method PollOnce(callbacks: seq<Callback>) returns (registered: bool)
      modifies this`face, this`modem, this`v4, this`v6, this`iter, this`log
      ensures registered == Receive(old(View()), callbacks).modem.nas.NasRegistered?
      ensures View() == Do(Receive(old(View()), callbacks), Poll(registered))
    {
      Listen(callbacks);
      iter := iter + 1;
      registered := modem.nas.NasRegistered?;
      Note(Poll(registered));
      if !registered {
        modem := modem.(nas := NasRegistering);
        iter := 0;
      }
    }

    // Polls for as long as a wait is due; given up as soon as the modem is not registered.
    method WaitForRegistration(polls: seq<seq<Callback>>)
      requires modem.nas.NasRegistered?
      modifies this`face, this`modem, this`v4, this`v6, this`iter, this`log
      ensures View() == Wait(old(View()), polls)
    {
      var rest := polls;
      while iter < maxWait
        invariant modem.nas.NasRegistered?
        invariant Wait(View(), rest) == Wait(old(View()), polls)
        decreases maxWait - iter
      {
        var registered := PollOnce(if rest == [] then [] else rest[0]);
        if !registered {
          return;
        }
        rest := if rest == [] then [] else rest[1..];
      }
    }

    method BringUp(t: Turn) returns (next: Phase)
      requires driven.Registered? && modem.nas.NasRegistered?
      modifies this`face, this`modem, this`v4, this`v6, this`reported, this`iter, this`maxWait, this`log
      ensures ViewAt(next) ==
              var w := Wait(old(View()), t.polls);
              if w.modem.nas.NasRegistered? then StartNetwork(Do(w, Starting), t) else Do(w, Declare(Deregistered))
    {
      WaitForRegistration(t.polls);
      if !modem.nas.NasRegistered? {
        next := SetCurrentState(Deregistered);
        return;
      }
      maxWait := 0;
      iter := 0;
      Note(Starting);
      TransitionStartNetwork(t);
      next := Registered;
    }

    // The REGISTERED state with a usable card. The result Halted stands for the end of the process.
    method WhileAttached(t: Turn) returns (next: Phase)
      requires driven.Registered?
      modifies this`face, this`modem, this`v4, this`v6, this`reported, this`iter, this`maxWait, this`log
      ensures ViewAt(next) == Attached(old(View()), t)
    {
      next := Registered;
      if !modem.nas.NasRegistered? {
        next := SuspendRegistration();
        return;
      }
      if modem.profile.NotReady? {
        TransitionRegistered(t);
        return;
      }
      if modem.profile.Created? {
        Note(Exit);
        return Halted;
      }
      if modem.profile.Configuring? || v4.starting || v6.starting || v4.waiting || v6.waiting {
        return;
      }
      if modem.profile.Ready? && face.upstream && !v4.connected && !v6.connected {
        next := BringUp(t);
        return;
      }
      if (modem.pdp.IPv6? && v6.connected)
         || (modem.pdp.IPv4? && v4.connected)
         || (modem.pdp.IPv4v6? && v4.connected && v6.connected) {
        next := TransitionConnected();
      }
    }

    method InRegistered(t: Turn) returns (next: Phase)
      requires driven.Registered?
      modifies this`face, this`modem, this`v4, this`v6, this`reported, this`iter, this`maxWait, this`log
      ensures ViewAt(next) == StateRegistered(old(View()), t)
    {
      if !modem.present {
        next := TransitionDown();
        return;
      }
      if !modem.enabled || modem.open.OpenNotReady? {
        next := TransitionDeactivated(t);
        return;
      }
      var unusable := modem.slot.SlotNotReady?;
      if !unusable {
        Listen(t.inquiry);
        unusable := t.cardInvalid || !face.ifEnable;
      }
      if unusable {
        next := LoseRegistration();
        return;
      }
      next := WhileAttached(t);
    }

    method InConnected(t: Turn) returns (next: Phase)
      requires driven.Connected?
      modifies this`face, this`modem, this`v4, this`v6, this`reported, this`log
      ensures ViewAt(next) == StateConnected(old(View()), t)
    {
      hide Deactivate, Receive, StopNetwork;
      if !modem.present {
        next := TransitionDown();
        return;
      }
      if modem.open.OpenNotReady? {
        next := TransitionDeactivated(t);
        return;
      }
      if !modem.enabled || modem.slot.SlotNotReady? || !face.ifEnable || !face.upstream
         || (modem.pdp.IPv6? && !v6.connected)
         || (modem.pdp.IPv4? && !v4.connected)
         || (modem.pdp.IPv4v6? && (!v4.connected || !v6.connected)) {
        v4 := v4.(connected := false, ready := false, starting := false, waiting := false);
        v6 := v6.(connected := false, ready := false, starting := false, waiting := false);
        Note(TearDown);
        next := TransitionStopNetwork(t);
        return;
      }
      next := Connected;
    }

    // ---- the thread ----

    method PublishConnectionStatus()
      requires !driven.Halted?
      modifies this`published, this`face, this`log
      ensures View() == Do(old(View()), Publish)
    {
      published := driven;
      if driven.Registered? {
        face := face.(phy := true);
        face := face.(link := false);
      } else if driven.Connected? {
        face := face.(link := true);
      } else {
        face := face.(phy := false);
        face := face.(link := false);
      }
      Note(Publish);
    }

    method Cycle(t: Turn)
      requires Valid() && !driven.Halted?
      modifies this
      ensures Valid() && View() == Next(old(View()), Loop(t))
    {
      hide Proofs.Sound;
      Proofs.NextKept(View(), Loop(t));
      if published != driven {
        PublishConnectionStatus();
      }
      match driven {
        case Down => driven := InDown(t);
        case Deactivated => driven := InDeactivated(t);
        case Deregistered => driven := InDeregistered(t);
        case Registered => driven := InRegistered(t);
        case Connected => driven := InConnected(t);
      }
    }

    // Any number of turns and callbacks.
    method Operate(inputs: seq<Input>)
      requires Valid()
      modifies this
      ensures Valid() && View() == Run(old(View()), inputs)
    {
      var i := 0;
      while i < |inputs|
        invariant i <= |inputs| && Valid()
        invariant Run(View(), inputs[i..]) == Run(old(View()), inputs)
      {
        assert inputs[i..][0] == inputs[i] && inputs[i..][1..] == inputs[i + 1..];
        if !driven.Halted? {
          match inputs[i] {
            case Callback(c) => Handle(c);
            case Loop(t) => Cycle(t);
          }
        }
        i := i + 1;
      }
    }
  }
}
