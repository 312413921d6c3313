/**
 * Event sequences run against a freshly mounted widget, proved from the
 * handlers' contracts alone.
 */
module Scenarios {
  import opened Wrappers
  import opened Catalog
  import opened StatusLine
  import opened Widget

  /** Browsing entry `i`, a step by `dt` selects the clamped index and tracks exactly that id. */
  method StepFromEntry(i: int, dt: int) returns (selected: Option<string>, ghost events: seq<TrackEvent>)
    requires 0 <= i < |Dirs|
    ensures selected == Some(Dirs[StepTarget(|Dirs|, i, dt)].id)
    ensures events == [TrackEvent(Category, selected.value)]
  {
    var w := new TimeMachine(Some(Dirs[i].id));
    DirsWellFormed();
    FindIndexOfId(Dirs, i);
    w.MoveTimeBy(dt);
    selected, events := w.override, w.log;
  }

  /**
   * ArrowRight at the last entry and ArrowLeft at the first re-select that
   * entry, and each press still tracks that entry's id once.
   */
  method KeysClampAtEnds() returns (right: Option<string>, left: Option<string>,
                                    ghost rlog: seq<TrackEvent>, ghost llog: seq<TrackEvent>)
    ensures right == Some(Dirs[|Dirs| - 1].id)
    ensures left == Some(Dirs[0].id)
    ensures rlog == [TrackEvent(Category, right.value)]
    ensures llog == [TrackEvent(Category, left.value)]
  {
    DirsWellFormed();
    var w := new TimeMachine(Some(Dirs[|Dirs| - 1].id));
    FindIndexOfId(Dirs, |Dirs| - 1);
    w.HandleKeyDown("ArrowRight");
    right := w.override;
    var v := new TimeMachine(Some(Dirs[0].id));
    FindIndexOfId(Dirs, 0);
    v.HandleKeyDown("ArrowLeft");
    left := v.override;
    rlog, llog := w.log, v.log;
  }

  /** An override that is no catalog id (or `null`) is left alone by a step, which tracks nothing. */
  method StepWithUnknownOverride(stored: Option<string>, dt: int) returns (selected: Option<string>, ghost events: seq<TrackEvent>)
    requires forall k :: 0 <= k < |Dirs| ==> stored != Some(Dirs[k].id)
    ensures selected == stored && events == []
  {
    var w := new TimeMachine(stored);
    w.MoveTimeBy(dt);
    selected, events := w.override, w.log;
  }

  /** From live mode the history button opens entry 0, and a second press returns to live mode. */
  method ToggleTwiceFromLive() returns (browsing: Option<string>, live: Option<string>)
    ensures browsing == Some(Dirs[0].id) && live == None
  {
    var w := new TimeMachine(None);
    w.Toggle();
    browsing := w.override;
    DirsWellFormed();
    w.Toggle();
    live := w.override;
  }

  /**
   * Hover segment `i`, leave it, hover segment `j` before the clear timer
   * runs: the cancelled timer never clears the hover, so `j` stays hovered.
   */
  method HoverCancelsPendingClear(i: int, j: int) returns (shown: Option<string>)
    requires 0 <= i < |Dirs| - 1 && 0 <= j < |Dirs| - 1
    ensures shown == Some(Dirs[j].id)
  {
    var w := new TimeMachine(Some(Dirs[0].id));
    w.MouseOver(i);
    w.MouseOut();
    var cancelled := w.timeout.value;
    w.MouseOver(j);
    w.Fire(cancelled);
    shown := w.hover;
  }

  /** Leaving a segment and letting the timer run clears the hover; the line falls back to the override. */
  method UnhoverClears(i: int) returns (shown: Option<string>, line: Status)
    requires 0 <= i < |Dirs| - 1
    ensures shown == None
    ensures line == Viewing(Dirs[i].id)
  {
    DirsWellFormed();
    var w := new TimeMachine(Some(Dirs[i].id));
    w.MouseOver(i);
    w.MouseOut();
    w.Fire(w.timeout.value);
    shown := w.hover;
    line := StatusOf(w.hover, w.override);
  }
}
