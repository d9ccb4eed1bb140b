/** Which SIM slot is in use, over repeated reports of the state of all slots. */
module SlotSelection {
  import opened Iccid

  datatype Slot = Slot(active: bool, present: bool, iccid: seq<Byte>)

  // An active slot with a card that has an ICCID.
  predicate Usable(s: Slot) {
    s.active && s.present && s.iccid != []
  }

  // The selected slot is numbered from 1.
  const UNKNOWN := -1

  datatype Notice = Ready(slot: int) | NotReady

  datatype Selection = Selection(selected: int, notices: seq<Notice>)

  // The lowest usable slot from an index on, or the number of slots if there is none.
  function Lowest(slots: seq<Slot>, from: nat): (k: nat)
    requires from <= |slots|
    ensures from <= k <= |slots|
    ensures k < |slots| ==> Usable(slots[k])
    ensures forall j :: from <= j < k ==> !Usable(slots[j])
    decreases |slots| - from
  {
    if from == |slots| || Usable(slots[from]) then from else Lowest(slots, from + 1)
  }

  // The slot selected from an index on, if none is selected so far.
  function Choice(slots: seq<Slot>, from: nat): int
    requires from <= |slots|
  {
    var k := Lowest(slots, from);
    if k == |slots| then UNKNOWN else k + 1
  }

  // The selected slot is in the report and no longer usable.
  predicate Lost(slots: seq<Slot>, selected: int) {
    0 < selected <= |slots| && !Usable(slots[selected - 1])
  }

  // One report. With a callback the scan stops at the first change; without one it goes on, so that a loss may be
  // followed by the selection of a slot further up.
  function Reported(s: Selection, slots: seq<Slot>, callback: bool): Selection {
    if s.selected == UNKNOWN then
      var choice := Choice(slots, 0);
      Selection(choice, if choice != UNKNOWN && callback then s.notices + [Ready(choice)] else s.notices)
    else if !Lost(slots, s.selected) then s
    else if callback then Selection(UNKNOWN, s.notices + [NotReady])
    else Selection(Choice(slots, s.selected), s.notices)
  }

  // ---- repeated reports ----

  function AfterReports(reports: seq<seq<Slot>>): Selection {
    if reports == [] then Selection(UNKNOWN, [])
    else Reported(AfterReports(reports[..|reports| - 1]), reports[|reports| - 1], true)
  }

  // How often the selection has changed.
  function Changes(reports: seq<seq<Slot>>): nat {
    if reports == [] then 0
    else
      var past := reports[..|reports| - 1];
      Changes(past) + if AfterReports(reports).selected != AfterReports(past).selected then 1 else 0
  }

  predicate Alternates(notices: seq<Notice>) {
    forall i :: 0 <= i < |notices| ==> (notices[i].Ready? <==> i % 2 == 0)
  }

  // Whatever the reports: the selected slot is usable in the latest one, unless that has no such slot any more; the
  // notices alternate, one for every change of the selection, and the last one tells what is selected.
  lemma {:induction false} Selecting(reports: seq<seq<Slot>>)
    ensures var s := AfterReports(reports);
            && (s.selected == UNKNOWN || 0 < s.selected)
            && (reports == [] ==> s.selected == UNKNOWN)
            && (reports != [] && 0 < s.selected <= |reports[|reports| - 1]| ==>
                  var slot := reports[|reports| - 1][s.selected - 1];
                  slot.active && slot.present && slot.iccid != [])
            && Alternates(s.notices)
            && |s.notices| == Changes(reports)
            && (s.selected == UNKNOWN <==> |s.notices| % 2 == 0)
            && (s.selected != UNKNOWN ==> s.notices[|s.notices| - 1] == Ready(s.selected))
  {
    if reports != [] {
      Selecting(reports[..|reports| - 1]);
    }
  }

  // With reports of one length the selected slot is always one of them.
  lemma {:induction false} SelectingAmong(reports: seq<seq<Slot>>, n: nat)
    requires forall i :: 0 <= i < |reports| ==> |reports[i]| == n
    ensures AfterReports(reports).selected == UNKNOWN || 0 < AfterReports(reports).selected <= n
  {
    if reports != [] {
      Selecting(reports[..|reports| - 1]);
      SelectingAmong(reports[..|reports| - 1], n);
    }
  }

  // A lost slot is not replaced within the same report, whatever other slot is usable; the next report replaces it by
  // the lowest usable one.
  lemma ReplacementTakesTwoReports(s: Selection, lost: seq<Slot>, next: seq<Slot>)
    requires Lost(lost, s.selected)
    ensures var first := Reported(s, lost, true);
            && first == Selection(UNKNOWN, s.notices + [NotReady])
            && (forall k: nat :: k < |next| && Usable(next[k]) && (forall j :: 0 <= j < k ==> !Usable(next[j])) ==>
                  Reported(first, next, true) == Selection(k + 1, first.notices + [Ready(k + 1)]))
            && ((forall k: nat :: k < |next| ==> !Usable(next[k])) ==> Reported(first, next, true) == first)
  {
    forall k: nat | k < |next| && Usable(next[k]) && (forall j :: 0 <= j < k ==> !Usable(next[j]))
      ensures Lowest(next, 0) == k
    {
      LowestIs(next, 0, k);
    }
  }

  lemma {:induction false} LowestIs(slots: seq<Slot>, from: nat, k: nat)
    requires from <= k < |slots| && Usable(slots[k])
    requires forall j :: from <= j < k ==> !Usable(slots[j])
    ensures Lowest(slots, from) == k
    decreases |slots| - from
  {
    if from < k {
      LowestIs(slots, from + 1, k);
    }
  }

  // Without a selection, a report selects a slot exactly if it has one that is active and has a card with an ICCID: the
  // first of them. A selection stays as long as its slot is such a one, or is not in the report.
  lemma SelectsFirst(s: Selection, slots: seq<Slot>, callback: bool)
    requires s.selected == UNKNOWN || s.selected > 0
    ensures var r := Reported(s, slots, callback);
            && (s.selected == UNKNOWN ==>
                  && (r.selected == UNKNOWN <==>
                        forall k :: 0 <= k < |slots| ==> !(slots[k].active && slots[k].present && slots[k].iccid != []))
                  && (r.selected != UNKNOWN ==>
                        && 0 < r.selected <= |slots|
                        && slots[r.selected - 1].active && slots[r.selected - 1].present && slots[r.selected - 1].iccid != []
                        && forall k :: 0 <= k < r.selected - 1 ==>
                             !(slots[k].active && slots[k].present && slots[k].iccid != []))
                  && r.notices == s.notices + if r.selected != UNKNOWN && callback then [Ready(r.selected)] else [])
            && (s.selected > |slots| ==> r == s)
            && (0 < s.selected <= |slots| ==>
                  var slot := slots[s.selected - 1];
                  r == s <==> slot.active && slot.present && slot.iccid != [])
  {
    assert s.notices + [] == s.notices;
  }

  // Without a callback a report that loses the selected slot selects the first usable one above it in the same pass.
  lemma SilentReplacement(s: Selection, slots: seq<Slot>)
    requires 0 < s.selected <= |slots|
    requires var lost := slots[s.selected - 1]; !(lost.active && lost.present && lost.iccid != [])
    ensures var r := Reported(s, slots, false);
            && r.notices == s.notices
            && (r.selected != UNKNOWN ==>
                  && s.selected < r.selected <= |slots|
                  && slots[r.selected - 1].active && slots[r.selected - 1].present && slots[r.selected - 1].iccid != [])
            && forall k :: s.selected <= k < (if r.selected == UNKNOWN then |slots| else r.selected - 1) ==>
                 !(slots[k].active && slots[k].present && slots[k].iccid != [])
  {
  }

  class Selector {
    var selected: int
    ghost var notices: seq<Notice>

    ghost function View(): Selection
      reads this
    {
      Selection(selected, notices)
    }

    constructor ()
      ensures View() == Selection(UNKNOWN, [])
    {
      selected := UNKNOWN;
      notices := [];
    }

    ghost method Notify(n: Notice)
      modifies this`notices
      ensures notices == old(notices) + [n]
    {
      notices := notices + [n];
    }

    method SelectAndNotify(slots: seq<Slot>, callback: bool)
      requires selected == UNKNOWN || selected > 0
      modifies this
      ensures View() == Reported(old(View()), slots, callback)
    {
      var i := 0;
      while i < |slots|
        invariant i <= |slots| && notices == old(notices)
        invariant selected == UNKNOWN || selected > 0
        invariant callback ==> selected == old(selected)
        invariant selected == old(selected) ==>
                    if selected == UNKNOWN then Lowest(slots, i) == Lowest(slots, 0) else selected > i || !Lost(slots, selected)
        invariant selected != old(selected) ==>
                    if old(selected) == UNKNOWN then selected == Choice(slots, 0) && selected <= i
                    else Lost(slots, old(selected)) && old(selected) <= i
                         && if selected == UNKNOWN then Lowest(slots, i) == Lowest(slots, old(selected))
                            else selected == Choice(slots, old(selected)) && selected <= i
      {
        if selected == UNKNOWN {
          if slots[i].active && slots[i].present && |slots[i].iccid| > 0 {
            selected := i + 1;
            if callback {
              Notify(Ready(selected));
              break;
            }
          }
        } else if selected == i + 1 {
          if !slots[i].active || !slots[i].present || |slots[i].iccid| == 0 {
            selected := UNKNOWN;
            if callback {
              Notify(NotReady);
              break;
            }
          }
        }
        i := i + 1;
      }
    }
  }
}
