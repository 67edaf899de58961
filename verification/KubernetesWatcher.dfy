/**
 * The goroutine that watches a job on the cluster (service/kubernetes/service.go): it goes through the
 * events until one settles the matter, or until the watch closes, and reports to the stop callback.
 */
module KubernetesWatcher {

  import opened Wrappers
  import opened Admission

  /** An event on the job with its status at the time, or on some other kind of object. */
  datatype Event =
    | JobEvent(status: JobStatus, deleted: bool)
    | OtherObject

  /** A watch that could not be set up, or the events up to its closing. */
  datatype Watch = CannotWatch | Watched(events: seq<Event>)

  /** What a job came to, as far as its events tell. */
  datatype Verdict = Succeeded | Failed | Deleted | Closed

  /** An event that ends the watching. A failure weighs more than a success, and both more than a
      deletion. */
  function Decision(ev: Event): (v: Option<Verdict>) {
    match ev
    case OtherObject => None
    case JobEvent(status, deleted) =>
      if status.failed > 0 then Some(Failed)
      else if status.succeeded > 0 then Some(Succeeded)
      else if deleted then Some(Deleted)
      else None
  }

  function VerdictOf(events: seq<Event>): (v: Verdict) {
    if events == [] then Closed
    else match Decision(events[0])
      case Some(v) => v
      case None => VerdictOf(events[1..])
  }

  /** What the callback is told; nothing if it is not called. */
  function Report(w: Watch): (r: Option<bool>) {
    if w.CannotWatch? then None
    else match VerdictOf(w.events)
      case Succeeded => Some(true)
      case Failed => Some(false)
      case Closed => Some(false)
      case Deleted => None
  }

  /** The event shows the job to have failed, to have succeeded or to be deleted. */
  predicate IsDecisive(ev: Event) {
    ev.JobEvent? && (ev.status.failed > 0 || ev.status.succeeded > 0 || ev.deleted)
  }

  ghost predicate FirstDecisive(events: seq<Event>, i: int) {
    && 0 <= i < |events|
    && IsDecisive(events[i])
    && forall j :: 0 <= j < i ==> !IsDecisive(events[j])
  }

  lemma DecisiveEventsDecide(ev: Event)
    ensures Decision(ev).Some? <==> IsDecisive(ev)
  {
  }

  /** The verdict is that of the first event that gives one. */
  lemma {:induction false} VerdictIsTheFirst(events: seq<Event>, v: Verdict)
    ensures VerdictOf(events) == v <==>
            || (exists i :: FirstDecisive(events, i) && Decision(events[i]) == Some(v))
            || (v == Closed && forall i :: 0 <= i < |events| ==> !IsDecisive(events[i]))
  {
    if events != [] {
      var rest := events[1..];
      VerdictIsTheFirst(rest, v);
      if Decision(events[0]).Some? {
        assert FirstDecisive(events, 0);
        assert forall i :: FirstDecisive(events, i) ==> i == 0;
      } else {
        forall i | 0 <= i < |rest|
          ensures FirstDecisive(rest, i) <==> FirstDecisive(events, i + 1)
        {
          assert forall j :: 0 <= j <= i ==> events[j + 1] == rest[j];
          assert forall j :: 0 < j <= i ==> events[j] == rest[j - 1];
        }
        assert forall i :: FirstDecisive(events, i) ==> i > 0 && FirstDecisive(rest, i - 1);
        assert forall i :: 0 <= i < |rest| ==> events[i + 1] == rest[i];
        assert forall i :: 0 < i < |events| ==> events[i] == rest[i - 1];
      }
    }
  }

  /**
   * The callback runs with success exactly when the first decisive event shows no failure and some
   * success; with false exactly when that event shows a failure or there is none before the watch
   * closes; and not at all exactly when that event is the deletion, or there is no watch.
   */
  lemma ReportCharacterisation(w: Watch)
    ensures Report(w) == Some(true) <==>
            w.Watched? && exists i :: FirstDecisive(w.events, i) && w.events[i].status.failed <= 0 && w.events[i].status.succeeded > 0
    ensures Report(w) == Some(false) <==>
            w.Watched? && ((exists i :: FirstDecisive(w.events, i) && w.events[i].status.failed > 0)
                           || forall i :: 0 <= i < |w.events| ==> !IsDecisive(w.events[i]))
    ensures Report(w) == None <==>
            w.Watched? ==> exists i :: FirstDecisive(w.events, i) && w.events[i].status.failed <= 0 && w.events[i].status.succeeded <= 0
  {
    if w.Watched? {
      var v := VerdictOf(w.events);
      VerdictIsTheFirst(w.events, v);
      assert forall i, k :: FirstDecisive(w.events, i) && FirstDecisive(w.events, k) ==> i == k;
    }
  }

  /** A watch that is cut short gives the verdict of the whole one, or none yet. */
  lemma {:induction false} CutShort(events: seq<Event>, more: seq<Event>)
    ensures VerdictOf(events) != Closed ==> VerdictOf(events + more) == VerdictOf(events)
    ensures VerdictOf(events) == Closed ==> VerdictOf(events + more) == VerdictOf(more)
  {
    if events == [] {
      assert events + more == more;
    } else {
      CutShort(events[1..], more);
      assert (events + more)[1..] == events[1..] + more;
    }
  }

  /** A reported success is never taken back; it is about a job that no longer counts as running. */
  lemma SuccessIsFinal(events: seq<Event>, more: seq<Event>)
    requires Report(Watched(events)) == Some(true)
    ensures Report(Watched(events + more)) == Some(true)
    ensures exists i :: FirstDecisive(events, i) && !IsActive(events[i].status)
  {
    CutShort(events, more);
    VerdictIsTheFirst(events, Succeeded);
  }

  /**
   * A reported failure need not be one: the report on a watch that closes undecided is false, and
   * what it would have been depends on the events that were missed alone.
   */
  lemma ClosingReportsFailure(events: seq<Event>, more: seq<Event>)
    requires forall i :: 0 <= i < |events| ==> events[i].JobEvent? ==> IsActive(events[i].status) && !events[i].deleted
    ensures Report(Watched(events)) == Some(false)
    ensures Report(Watched(events + more)) == Report(Watched(more))
  {
    VerdictIsTheFirst(events, Closed);
    CutShort(events, more);
  }

  /** Runs the watch; `calls` lists what the callback was called with: success exactly when the first
      decisive event shows no failure and some success, false when it shows a failure or the watch
      closes without one, and nothing when it is the deletion or there is no watch. */
  method Run(w: Watch) returns (calls: seq<bool>)
    ensures |calls| <= 1
    ensures calls == [true] <==>
            w.Watched? && exists i :: FirstDecisive(w.events, i) && w.events[i].status.failed <= 0 && w.events[i].status.succeeded > 0
    ensures calls == [false] <==>
            w.Watched? && ((exists i :: FirstDecisive(w.events, i) && w.events[i].status.failed > 0)
                           || forall i :: 0 <= i < |w.events| ==> !IsDecisive(w.events[i]))
    ensures calls == [] <==>
            w.Watched? ==> exists i :: FirstDecisive(w.events, i) && w.events[i].status.failed <= 0 && w.events[i].status.succeeded <= 0
    ensures Report(w) == if calls == [] then None else Some(calls[0])
  {
    ReportCharacterisation(w);
    if w.CannotWatch? {
      return [];
    }
    var success := false;
    var i := 0;
    while i < |w.events|
      invariant 0 <= i <= |w.events|
      invariant !success
      invariant VerdictOf(w.events) == VerdictOf(w.events[i..])
    {
      var ev := w.events[i];
      assert w.events[i..][1..] == w.events[i + 1..];
      if ev.OtherObject? {
        i := i + 1;
        continue;
      }
      if ev.status.failed > 0 {
        assert VerdictOf(w.events) == Failed;
        break;
      }
      if ev.status.succeeded > 0 {
        success := true;
        assert VerdictOf(w.events) == Succeeded;
        break;
      }
      if ev.deleted {
        return [];
      }
      i := i + 1;
    }
    return [success];
  }
}
