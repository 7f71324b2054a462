/** The time-driven assessment lifecycle: an opening sweep (Draft to Active
  * once the opening date has passed), a closing sweep (Active to Closed once
  * the due date has passed), and the tick that runs one after the other.
  *
  * Each sweep first selects the matching records, in natural order, and then
  * saves them one by one. A save that throws ends the sweep (the error is
  * logged and swallowed); `failAt` names the position, among the selected
  * records, of the first save that throws, if any. */
module Scheduler {
  import opened Core
  import opened Assessments

  datatype Sweep = Open | Close

  /** The query of each sweep. */
  predicate Selected(sweep: Sweep, a: Assessment, now: int)
  {
    match sweep
    case Open => a.status == Draft && a.isActive && a.opensOn.Some? && a.opensOn.value <= now
    case Close => a.status == Active && a.isActive && a.dueDate.Some? && a.dueDate.value <= now
  }

  function Target(sweep: Sweep): AssessmentStatus
  {
    match sweep
    case Open => Active
    case Close => Closed
  }

  /** Positions of the selected records, in increasing order. */
  function Picked(docs: seq<Assessment>, sweep: Sweep, now: int): (r: seq<nat>)
    ensures forall k :: 0 <= k < |r| ==> r[k] < |docs| && Selected(sweep, docs[r[k]], now)
    ensures forall i :: 0 <= i < |docs| && Selected(sweep, docs[i], now) ==> i in r
    ensures forall k, l :: 0 <= k < l < |r| ==> r[k] < r[l]
  {
    if docs == [] then []
    else
      var init := Picked(docs[..|docs| - 1], sweep, now);
      if Selected(sweep, docs[|docs| - 1], now) then init + [|docs| - 1] else init
  }

  /** The selected positions whose save was attempted and succeeded. */
  function Saved(picked: seq<nat>, failAt: Option<nat>): (r: seq<nat>)
    ensures r <= picked
  {
    if failAt.Some? then Take(picked, failAt.value) else picked
  }

  /** `docs` with the records at positions `idxs` moved to status `t`. */
  function Apply(docs: seq<Assessment>, idxs: seq<nat>, t: AssessmentStatus): (r: seq<Assessment>)
    ensures |r| == |docs|
  {
    seq(|docs|, i requires 0 <= i < |docs| => if i in idxs then docs[i].(status := t) else docs[i])
  }

  lemma ApplyStep(docs: seq<Assessment>, idxs: seq<nat>, p: nat, t: AssessmentStatus)
    requires p < |docs|
    ensures Apply(docs, idxs + [p], t) == Apply(docs, idxs, t)[p := docs[p].(status := t)]
  {
  }

  /** The collection after one sweep. */
  function SweepResult(docs: seq<Assessment>, sweep: Sweep, now: int, failAt: Option<nat>): (r: seq<Assessment>)
    ensures |r| == |docs|
  {
    Apply(docs, Saved(Picked(docs, sweep, now), failAt), Target(sweep))
  }

  /** Every saved position lies inside the collection. */
  lemma SavedInRange(docs: seq<Assessment>, sweep: Sweep, now: int, failAt: Option<nat>)
    ensures forall k :: 0 <= k < |Saved(Picked(docs, sweep, now), failAt)| ==>
      Saved(Picked(docs, sweep, now), failAt)[k] < |docs|
  {
    var picked := Picked(docs, sweep, now);
    var done := Saved(picked, failAt);
    forall k | 0 <= k < |done|
      ensures done[k] < |docs|
    {
      assert done[k] == picked[k];
    }
  }

  /** The save loop of a sweep: each record at the given positions is
    * moved to the status `t` and saved, in turn. */
  method SaveEach(store: AssessmentStore, done: seq<nat>, t: AssessmentStatus)
    requires forall k :: 0 <= k < |done| ==> done[k] < |store.docs|
    modifies store
    ensures store.docs == Apply(old(store.docs), done, t)
  {
    var docs := store.docs;
    var j := 0;
    assert done[..0] == [];
    while j < |done|
      invariant 0 <= j <= |done|
      invariant store.docs == Apply(docs, done[..j], t)
    {
      var p := done[j];
      ApplyStep(docs, done[..j], p, t);
      assert done[..j + 1] == done[..j] + [p];
      store.docs := store.docs[p := docs[p].(status := t)];
      j := j + 1;
    }
    assert done[..j] == done;
  }

  /** One sweep over the stored collection (`checkAndOpenAssessments` or
    * `checkAndCloseAssessments`): the saves before the failing one, if any,
    * take effect. */
  method RunSweep(store: AssessmentStore, sweep: Sweep, now: int, failAt: Option<nat>)
    modifies store
    ensures store.docs == SweepResult(old(store.docs), sweep, now, failAt)
  {
    SavedInRange(store.docs, sweep, now, failAt);
    SaveEach(store, Saved(Picked(store.docs, sweep, now), failAt), Target(sweep));
  }

  /** One scheduler tick: the opening sweep and then the closing sweep. */
  function Tick(docs: seq<Assessment>, now: int, openFail: Option<nat>, closeFail: Option<nat>): (r: seq<Assessment>)
    ensures |r| == |docs|
  {
    SweepResult(SweepResult(docs, Open, now, openFail), Close, now, closeFail)
  }

  /** `triggerManualCheck`: exactly one opening sweep followed by one closing sweep. */
  method TriggerManualCheck(store: AssessmentStore, now: int, openFail: Option<nat>, closeFail: Option<nat>)
    modifies store
    ensures store.docs == Tick(old(store.docs), now, openFail, closeFail)
  {
    RunSweep(store, Open, now, openFail);
    RunSweep(store, Close, now, closeFail);
  }

  /** A sweep changes only the status of selected records, and only to its target. */
  lemma SweepFrame(docs: seq<Assessment>, sweep: Sweep, now: int, failAt: Option<nat>, i: nat)
    requires i < |docs|
    ensures SweepResult(docs, sweep, now, failAt)[i] == docs[i]
      || (Selected(sweep, docs[i], now) && SweepResult(docs, sweep, now, failAt)[i] == docs[i].(status := Target(sweep)))
  {
    var done := Saved(Picked(docs, sweep, now), failAt);
    if i in done {
      var k :| 0 <= k < |done| && done[k] == i;
      assert Picked(docs, sweep, now)[k] == i;
    }
  }

  /** Without a failing save every selected record reaches the target status. */
  lemma SweepComplete(docs: seq<Assessment>, sweep: Sweep, now: int, i: nat)
    requires i < |docs| && Selected(sweep, docs[i], now)
    ensures SweepResult(docs, sweep, now, None)[i] == docs[i].(status := Target(sweep))
  {
  }

  /** A failing save splits the selected records: those before it are
    * transitioned, it and those after it keep their status. */
  lemma SweepStopsAtFailure(docs: seq<Assessment>, sweep: Sweep, now: int, f: nat, k: nat)
    requires k < |Picked(docs, sweep, now)|
    ensures var p := Picked(docs, sweep, now)[k];
      SweepResult(docs, sweep, now, Some(f))[p].status == Target(sweep) <==> k < f
  {
    var picked := Picked(docs, sweep, now);
    var p := picked[k];
    var done := Saved(picked, Some(f));
    if k < f {
      assert done[k] == p;
    } else {
      forall l | 0 <= l < |done| ensures done[l] != p {
        assert done[l] == picked[l];
      }
      assert docs[p].status != Target(sweep) by {
        assert Selected(sweep, docs[p], now);
      }
    }
  }

  /** Automated transitions are monotone: Draft may become Active and Active
    * may become Closed; every other status and every other field is kept. */
  lemma TickMonotone(docs: seq<Assessment>, now: int, openFail: Option<nat>, closeFail: Option<nat>, i: nat)
    requires i < |docs|
    ensures var a, b := docs[i], Tick(docs, now, openFail, closeFail)[i];
      b == a.(status := b.status)
      && (b.status == a.status
          || (a.status == Draft && b.status == Active)
          || (a.status == Draft && b.status == Closed)
          || (a.status == Active && b.status == Closed))
  {
    var mid := SweepResult(docs, Open, now, openFail);
    SweepFrame(docs, Open, now, openFail, i);
    SweepFrame(mid, Close, now, closeFail, i);
  }

  /** After a tick without failures no active-flagged record is still due to
    * open or to close. */
  lemma {:induction false} TickSettles(docs: seq<Assessment>, now: int, i: nat)
    requires i < |docs|
    ensures !Selected(Open, Tick(docs, now, None, None)[i], now)
    ensures !Selected(Close, Tick(docs, now, None, None)[i], now)
  {
    var mid := SweepResult(docs, Open, now, None);
    SweepFrame(docs, Open, now, None, i);
    SweepFrame(mid, Close, now, None, i);
    if Selected(Open, docs[i], now) {
      SweepComplete(docs, Open, now, i);
    }
    if Selected(Close, mid[i], now) {
      SweepComplete(mid, Close, now, i);
    }
  }

  /** A sweep that selects nothing leaves the collection as it is. */
  lemma SweepNothingSelected(docs: seq<Assessment>, sweep: Sweep, now: int, failAt: Option<nat>)
    requires forall i :: 0 <= i < |docs| ==> !Selected(sweep, docs[i], now)
    ensures SweepResult(docs, sweep, now, failAt) == docs
  {
    PickedNothing(docs, sweep, now);
    assert Saved(Picked(docs, sweep, now), failAt) == [];
  }

  /** A sweep that selects nothing picks no position. */
  lemma {:induction false} PickedNothing(docs: seq<Assessment>, sweep: Sweep, now: int)
    requires forall i :: 0 <= i < |docs| ==> !Selected(sweep, docs[i], now)
    ensures Picked(docs, sweep, now) == []
  {
    if docs != [] {
      var init := docs[..|docs| - 1];
      assert forall i :: 0 <= i < |init| ==> init[i] == docs[i];
      PickedNothing(init, sweep, now);
    }
  }

  /** A second tick at the same time changes nothing. */
  lemma TickIdempotent(docs: seq<Assessment>, now: int, openFail: Option<nat>, closeFail: Option<nat>)
    ensures var once := Tick(docs, now, None, None);
      Tick(once, now, openFail, closeFail) == once
  {
    var once := Tick(docs, now, None, None);
    forall i | 0 <= i < |once| ensures !Selected(Open, once[i], now) && !Selected(Close, once[i], now) {
      TickSettles(docs, now, i);
    }
    SweepNothingSelected(once, Open, now, openFail);
    SweepNothingSelected(once, Close, now, closeFail);
  }

  /** A draft whose opening and due dates have both passed is closed by a single tick. */
  lemma DraftPastDueClosesInOneTick(docs: seq<Assessment>, now: int, i: nat)
    requires i < |docs|
    requires docs[i].status == Draft && docs[i].isActive
    requires docs[i].opensOn.Some? && docs[i].opensOn.value <= now
    requires docs[i].dueDate.Some? && docs[i].dueDate.value <= now
    ensures Tick(docs, now, None, None)[i].status == Closed
  {
    var mid := SweepResult(docs, Open, now, None);
    SweepComplete(docs, Open, now, i);
    SweepComplete(mid, Close, now, i);
  }
}
