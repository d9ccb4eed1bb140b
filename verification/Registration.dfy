/**
 Monitoring the registration: the serving system is asked for again and again, with a jump back to the asking step,
 until the modem is attached, the query fails or the static retry counter is used up.
 */
module Registration {
  import opened Wrappers
  import M = PolicyModel

  datatype Reply =
    | Failed                        // no answer, or an error
    | Serving(registered: bool, radios: seq<string>, ps: bool, cs: bool, roaming: Option<bool>)

  datatype Service = NoService | PacketSwitched | CircuitSwitched | BothServices

  datatype Event =
    | Asked
    | Told(status: Option<M.NasStatus>, roaming: bool, service: Service)   // None: a status that was never set
    | Released

  datatype Trace = Empty | Then(past: Trace, last: Event)

  // The policy machine's task asks again, the management interface's does not.
  datatype World = World(
    retry: nat,                     // retry_get_serving_system, shared by all tasks
    status: Option<M.NasStatus>, roaming: bool, service: Service, viaPolicy: bool, callback: bool,
    asked: nat, trace: Trace)

  // The k-th query is answered by the k-th reply.
  type Oracle = nat -> Reply

  predicate HasLte(radios: seq<string>) {
    "lte" in radios
  }

  // Registered, and with packet service where the radio is LTE.
  predicate Attached(r: Reply) {
    r.Serving? && r.registered && (HasLte(r.radios) ==> r.ps)
  }

  function ServiceOf(r: Reply): Service
    requires r.Serving?
  {
    if !HasLte(r.radios) then NoService
    else if r.ps && r.cs then BothServices
    else if r.ps then PacketSwitched
    else if r.cs then CircuitSwitched
    else NoService
  }

  // ---- one task ----

  function Ask(w: World): World {
    w.(asked := w.asked + 1, trace := Then(w.trace, Asked))
  }

  function Notify(w: World): World {
    var told := if w.callback then Then(w.trace, Told(w.status, w.roaming, w.service)) else w.trace;
    w.(trace := Then(told, Released))
  }

  // The counter and the roaming flag after an answer that arrived.
  function Counted(w: World, r: Reply): World
    requires r.Serving?
  {
    w.(retry := w.retry + 1, roaming := if r.roaming.Some? then r.roaming.value else w.roaming)
  }

  function Poll(w: World, o: Oracle): World
    decreases if w.retry <= 3 then 3 - w.retry else 0, 1
  {
    Answered(Ask(w), o)
  }

  function Answered(w: World, o: Oracle): World
    requires w.asked > 0
    decreases if w.retry <= 3 then 3 - w.retry else 0, 0
  {
    var r := o(w.asked - 1);
    if r.Failed? then Notify(w.(status := Some(M.NasNotRegistered), roaming := false))
    else
      var c := Counted(w, r);
      if Attached(r) then Notify(c.(status := Some(M.NasRegistered), service := ServiceOf(r)))
      else if !w.viaPolicy then Notify(c)
      else if c.retry >= 3 then Notify(c.(status := Some(M.NasRegistering), retry := 0))
      else Poll(c, o)
  }

  // ---- what a task guarantees ----

  // An answer that arrived, without the modem being attached: the only kind that is followed by another query.
  predicate Undecided(r: Reply) {
    r.Serving? && !Attached(r)
  }

  function Asks(t: Trace, n: nat): Trace {
    if n == 0 then t else Then(Asks(t, n - 1), Asked)
  }

  lemma {:induction false} AsksInside(t: Trace, n: nat)
    ensures Asks(Then(t, Asked), n) == Then(Asks(t, n), Asked)
  {
    if n > 0 {
      AsksInside(t, n - 1);
    }
  }

  // The task asks n times, then calls back once if it has a callback, and is released once, at the end.
  predicate Ends(end: World, w: World, n: nat) {
    && end.asked == w.asked + n
    && end.trace == Then(if w.callback then Then(Asks(w.trace, n), Told(end.status, end.roaming, end.service))
                         else Asks(w.trace, n),
                         Released)
  }

  // The number of queries of a task of the policy machine whose first query is the at-th.
  function Queries(retry: nat, at: nat, o: Oracle): nat
    decreases if retry <= 3 then 3 - retry else 0
  {
    if Undecided(o(at)) && retry + 1 < 3 then 1 + Queries(retry + 1, at + 1, o) else 1
  }

  // The roaming indicator of the latest of n answers that carried one.
  function LatestRoaming(o: Oracle, at: nat, n: nat, before: bool): bool {
    if n == 0 then before
    else if o(at + n - 1).Serving? && o(at + n - 1).roaming.Some? then o(at + n - 1).roaming.value
    else LatestRoaming(o, at, n - 1, before)
  }

  lemma {:induction false} RoamingOnward(o: Oracle, at: nat, n: nat, before: bool)
    ensures LatestRoaming(o, at, n + 1, before) == LatestRoaming(o, at + 1, n, LatestRoaming(o, at, 1, before))
  {
    if n > 0 {
      RoamingOnward(o, at, n - 1, before);
    }
  }

  // What is told of roaming after n answers.
  predicate RoamingTold(told: bool, w: World, o: Oracle, n: nat)
    requires n > 0
  {
    told == (!o(w.asked + n - 1).Failed? && LatestRoaming(o, w.asked, n, w.roaming))
  }

  // The service of an attached modem: only with an LTE radio, and then packet and circuit switched as reported.
  predicate ServiceTold(service: Service, r: Reply)
    requires r.Serving?
  {
    && (service.PacketSwitched? || service.BothServices? <==> "lte" in r.radios && r.ps)
    && (service.CircuitSwitched? || service.BothServices? <==> "lte" in r.radios && r.cs)
  }

  // The modem is attached: registered, and with packet service where the radio is LTE.
  predicate Serves(r: Reply) {
    r.Serving? && r.registered && ("lte" in r.radios ==> r.ps)
  }

  // What the n-th and last answer makes of a task of the policy machine.
  predicate Decided(end: World, w: World, n: nat, last: Reply) {
    if last.Failed? then
      end.status == Some(M.NasNotRegistered) && end.retry == w.retry + n - 1 && end.service == w.service
    else if Serves(last) then
      end.status == Some(M.NasRegistered) && end.retry == w.retry + n && ServiceTold(end.service, last)
    else
      end.status == Some(M.NasRegistering) && end.retry == 0 && w.retry + n >= 3 && end.service == w.service
  }

  // A task of the policy machine asks until an answer decides or the third is counted, at most three times, and fewer
  // if the counter starts higher. The last answer gives the status: registered if the modem is attached, lost if there is
  // no answer, and still registering if the tries have run out, which alone resets the counter.
  lemma {:induction false} MonitorTask(w: World, o: Oracle)
    requires w.viaPolicy
    ensures var end, n := Poll(w, o), Queries(w.retry, w.asked, o);
            && 1 <= n <= (if w.retry < 2 then 3 - w.retry else 1)
            && Ends(end, w, n)
            && Decided(end, w, n, o(w.asked + n - 1))
            && RoamingTold(end.roaming, w, o, n)
    ensures forall i {:trigger o(i)} :: w.asked <= i < w.asked + Queries(w.retry, w.asked, o) - 1 ==>
              o(i).Serving? && !Serves(o(i))
    decreases if w.retry <= 3 then 3 - w.retry else 0
  {
    var r := o(w.asked);
    if Undecided(r) && w.retry + 1 < 3 {
      var c := Counted(Ask(w), r);
      MonitorTask(c, o);
      assert Poll(w, o) == Poll(c, o);
      hide Poll, Decided;
      AsksAgain(w, c, Poll(c, o), Queries(c.retry, c.asked, o), o);
    } else {
      AsksOnce(w, o);
    }
  }

  lemma AsksAgain(w: World, c: World, end: World, n: nat, o: Oracle)
    requires o(w.asked).Serving? && c == Counted(Ask(w), o(w.asked))
    requires n > 0 && Ends(end, c, n) && RoamingTold(end.roaming, c, o, n)
    requires Decided(end, c, n, o(c.asked + n - 1))
    ensures Ends(end, w, n + 1) && RoamingTold(end.roaming, w, o, n + 1)
    ensures Decided(end, w, n + 1, o(w.asked + n))
  {
    AsksInside(w.trace, n);
    RoamingOnward(o, w.asked, n, w.roaming);
    assert LatestRoaming(o, w.asked, 0, w.roaming) == w.roaming;
  }

  lemma AsksOnce(w: World, o: Oracle)
    requires w.viaPolicy && !(Undecided(o(w.asked)) && w.retry + 1 < 3)
    ensures var end := Poll(w, o);
            Ends(end, w, 1) && Decided(end, w, 1, o(w.asked)) && RoamingTold(end.roaming, w, o, 1)
  {
    PollsOnce(w, o);
    OneAsked(w, o);
    ServesAttached(o(w.asked));
    hide Poll, Asks, LatestRoaming, Attached, Serves, ServiceOf, ServiceTold;
  }

  lemma ServesAttached(r: Reply)
    ensures Attached(r) <==> Serves(r)
    ensures Serves(r) ==> ServiceTold(ServiceOf(r), r)
  {
  }

  lemma PollsOnce(w: World, o: Oracle)
    requires w.viaPolicy && !(Undecided(o(w.asked)) && w.retry + 1 < 3)
    ensures var asking, r := Ask(w), o(w.asked);
            Poll(w, o) ==
            if r.Failed? then Notify(asking.(status := Some(M.NasNotRegistered), roaming := false))
            else if Attached(r) then
              Notify(Counted(asking, r).(status := Some(M.NasRegistered), service := ServiceOf(r)))
            else Notify(Counted(asking, r).(status := Some(M.NasRegistering), retry := 0))
  {
    hide Notify, ServiceOf;
  }

  lemma OneAsked(w: World, o: Oracle)
    ensures Asks(w.trace, 1) == Then(w.trace, Asked)
    ensures LatestRoaming(o, w.asked, 1, w.roaming) ==
            if o(w.asked).Serving? && o(w.asked).roaming.Some? then o(w.asked).roaming.value else w.roaming
  {
    assert Asks(w.trace, 0) == w.trace;
    assert LatestRoaming(o, w.asked, 0, w.roaming) == w.roaming;
  }

  // A task of the management interface asks once; an undecided answer leaves the status as it was.
  lemma SingleTask(w: World, o: Oracle)
    requires !w.viaPolicy
    ensures var end, r := Poll(w, o), o(w.asked);
            && Ends(end, w, 1)
            && RoamingTold(end.roaming, w, o, 1)
            && if r.Serving? && !Serves(r) then
                 end.status == w.status && end.retry == w.retry + 1 && end.service == w.service
               else Decided(end, w, 1, r)
  {
    assert Asks(w.trace, 1) == Then(Asks(w.trace, 0), Asked);
    assert LatestRoaming(o, w.asked, 0, w.roaming) == w.roaming;
  }

  // ---- the counter over any number of tasks ----

  // A task and the answers it gets.
  datatype Job = Job(viaPolicy: bool, callback: bool, o: Oracle)

  function Fresh(retry: nat, job: Job): World {
    World(retry, None, false, NoService, job.viaPolicy, job.callback, 0, Empty)
  }

  // The number of queries a task makes.
  function AskedBy(retry: nat, job: Job): nat {
    if job.viaPolicy then Queries(retry, 0, job.o) else 1
  }

  // The first n answers that arrived.
  function Arrived(o: Oracle, n: nat): nat {
    if n == 0 then 0 else Arrived(o, n - 1) + if o(n - 1).Serving? then 1 else 0
  }

  // The task gave up for want of tries.
  predicate GaveUp(retry: nat, job: Job) {
    job.viaPolicy && Undecided(job.o(AskedBy(retry, job) - 1))
  }

  function RetryAfter(retry: nat, jobs: seq<Job>): nat {
    if jobs == [] then retry
    else
      var n := |jobs| - 1;
      Poll(Fresh(RetryAfter(retry, jobs[..n]), jobs[n]), jobs[n].o).retry
  }

  // The answers that have arrived since a task last gave up, in whatever task.
  function ArrivedSince(retry: nat, jobs: seq<Job>): nat {
    if jobs == [] then retry
    else
      var n := |jobs| - 1;
      var now := RetryAfter(retry, jobs[..n]);
      if GaveUp(now, jobs[n]) then 0
      else ArrivedSince(retry, jobs[..n]) + Arrived(jobs[n].o, AskedBy(now, jobs[n]))
  }

  lemma {:induction false} AllArrived(o: Oracle, n: nat)
    requires forall i {:trigger o(i)} :: 0 <= i < n ==> Undecided(o(i))
    ensures Arrived(o, n) == n
  {
    if n > 0 {
      AllArrived(o, n - 1);
      assert Undecided(o(n - 1));
    }
  }

  lemma TaskCounts(retry: nat, job: Job)
    ensures var after, n := Poll(Fresh(retry, job), job.o).retry, AskedBy(retry, job);
            after == if GaveUp(retry, job) then 0 else retry + Arrived(job.o, n)
  {
    if job.viaPolicy {
      MonitorTask(Fresh(retry, job), job.o);
      AllArrived(job.o, AskedBy(retry, job) - 1);
    } else {
      SingleTask(Fresh(retry, job), job.o);
      assert Arrived(job.o, 1) == Arrived(job.o, 0) + if job.o(0).Serving? then 1 else 0;
    }
  }

  // Over any tasks the counter is the number of answers that have arrived since a task last gave up, successes included.
  lemma {:induction false} CounterAccount(retry: nat, jobs: seq<Job>)
    ensures RetryAfter(retry, jobs) == ArrivedSince(retry, jobs)
  {
    if jobs != [] {
      var n := |jobs| - 1;
      CounterAccount(retry, jobs[..n]);
      TaskCounts(RetryAfter(retry, jobs[..n]), jobs[n]);
    }
  }

  // So once two answers have arrived since, a task of the policy machine asks only once, whatever it is told.
  lemma TriesUsedUp(retry: nat, jobs: seq<Job>, job: Job)
    requires ArrivedSince(retry, jobs) >= 2 && job.viaPolicy
    ensures AskedBy(RetryAfter(retry, jobs), job) == 1
    ensures Undecided(job.o(0)) ==> GaveUp(RetryAfter(retry, jobs), job)
  {
    CounterAccount(retry, jobs);
  }

  // ---- the coroutine ----

  const MONITOR_BEGIN := 1
  const GET_STATUS := 2
  const NOTIFY_STATUS := 3
  const MONITOR_END := 4

  class Monitor {
    var retry: nat
    var status: Option<M.NasStatus>
    var roaming: bool
    var service: Service
    var viaPolicy: bool
    var callback: bool
    var step: nat
    var pending: bool
    var released: bool

    var asked: nat
    ghost var trace: Trace

    ghost function View(): World
      reads this
    {
      World(retry, status, roaming, service, viaPolicy, callback, asked, trace)
    }

    ghost predicate Valid()
      reads this
    {
      pending ==> !released && asked > 0
    }

    // How the task will end.
    ghost function Future(o: Oracle): World
      requires Valid()
      reads this
    {
      if released then View()
      else if pending then Answered(View(), o)
      else if step <= GET_STATUS then Poll(View(), o)
      else if step == NOTIFY_STATUS then Notify(View())
      else View().(trace := Then(trace, Released))
    }

    // The switch: entered at the current step, it falls through until it asks the modem or releases the task.
    method Step(ghost o: Oracle)
      requires !pending && !released
      modifies this`step, this`pending, this`asked, this`trace, this`released
      ensures Valid() && Future(o) == old(Future(o))
      ensures pending != released && (pending ==> old(step) <= GET_STATUS)
    {
      if step < GET_STATUS {
        step := GET_STATUS;
      }
      if step == GET_STATUS {
        asked := asked + 1;
        trace := Then(trace, Asked);
        pending := true;
        return;
      }
      if step == NOTIFY_STATUS && callback {
        trace := Then(trace, Told(status, roaming, service));
      }
      trace := Then(trace, Released);
      released := true;
    }

    method FindLte(radios: seq<string>) returns (lte: bool)
      ensures lte == HasLte(radios)
    {
      lte := false;
      for i := 0 to |radios|
        invariant lte == HasLte(radios[..i])
      {
        assert radios[..i + 1] == radios[..i] + [radios[i]];
        if radios[i] == "lte" {
          lte := true;
        }
      }
      assert radios[..|radios|] == radios;
    }

    // What an answer that arrived tells about the service, when the modem is attached.
    method NoteService(lte: bool, ps: bool, cs: bool)
      modifies this`status, this`service
      ensures status == Some(M.NasRegistered)
      ensures service == if !lte then NoService
                         else if ps && cs then BothServices
                         else if ps then PacketSwitched
                         else if cs then CircuitSwitched
                         else NoService
    {
      if !lte {
        service := NoService;
      } else if ps && cs {
        service := BothServices;
      } else if ps {
        service := PacketSwitched;
      } else if cs {
        service := CircuitSwitched;
      } else {
        service := NoService;
      }
      status := Some(M.NasRegistered);
    }

    // Weighs an answer that arrived: the status to tell, or back to the asking step.
    method Weigh(reply: Reply)
      requires reply.Serving?
      modifies this`retry, this`status, this`roaming, this`service, this`step
      ensures var c := Counted(old(View()), reply);
              && step == (if !Attached(reply) && viaPolicy && c.retry < 3 then GET_STATUS else NOTIFY_STATUS)
              && View() == if Attached(reply) then c.(status := Some(M.NasRegistered), service := ServiceOf(reply))
                           else if viaPolicy && c.retry >= 3 then c.(status := Some(M.NasRegistering), retry := 0)
                           else c
    {
      step := NOTIFY_STATUS;
      retry := retry + 1;
      if reply.roaming.Some? {
        roaming := reply.roaming.value;
      }
      var lte := FindLte(reply.radios);
      if reply.registered && (!lte || reply.ps) {
        NoteService(lte, reply.ps, reply.cs);
      } else if viaPolicy {
        if retry >= 3 {
          status := Some(M.NasRegistering);
          retry := 0;
        } else {
          step := GET_STATUS;
        }
      }
    }

    method Deliver(reply: Reply, ghost o: Oracle)
      requires Valid() && pending && reply == o(asked - 1)
      modifies this
      ensures Valid() && Future(o) == old(Future(o))
      ensures pending != released
      ensures pending ==> old(retry) < 2 && retry == old(retry) + 1
    {
      pending := false;
      if reply.Failed? {
        status := Some(M.NasNotRegistered);
        roaming := false;
        step := NOTIFY_STATUS;
      } else {
        Weigh(reply);
      }
      Step(o);
    }

    // Runs a fresh task to its end.
    method RunTask(o: Oracle)
      requires step == MONITOR_BEGIN && !pending && !released
      modifies this
      ensures released && !pending
      ensures View() == Poll(old(View()), o)
    {
      Step(o);
      while pending
        invariant Valid() && pending != released
        invariant Future(o) == Poll(old(View()), o)
        decreases pending, 3 - retry
      {
        Deliver(o(asked - 1), o);
      }
    }
  }
}
