/**
 * The `TimeMachine` component's state and event handlers
 * (src/components/TimeMachine.js:24-64, 133-138). The override lives in an
 * external store and is modelled as a field; `trackEvent` appends to a ghost
 * log; `setTimeout`/`clearTimeout` become a set of pending timer handles and an
 * explicit `Fire` step taken by the host.
 */
module Widget {
  import opened Wrappers
  import opened Catalog
  import opened Timeline
  import opened StatusLine

  /** A call `trackEvent(category, { dir })` to the analytics sink. */
  datatype TrackEvent = TrackEvent(category: string, dir: string)

  const Category: string := "Time Machine"

  /** The step a key press asks for: `ArrowRight` is +1, `ArrowLeft` is -1, other keys nothing. */
  function KeyDelta(key: string): (d: Option<int>)
    ensures d == Some(1) <==> key == "ArrowRight"
    ensures d == Some(-1) <==> key == "ArrowLeft"
    ensures d.None? <==> key != "ArrowRight" && key != "ArrowLeft"
  {
    if key == "ArrowRight" then Some(1)
    else if key == "ArrowLeft" then Some(-1)
    else None
  }

  /** `Math.min(dirs.length - 1, Math.max(0, browsingIndex + dt))`: the step clamped into the catalog. */
  function StepTarget(n: nat, i: int, dt: int): (r: int)
    requires 0 <= i < n
    ensures 0 <= r < n
    ensures 0 <= i + dt < n ==> r == i + dt
    ensures i + dt < 0 ==> r == 0
    ensures n <= i + dt ==> r == n - 1
  {
    Min(n - 1, Max(0, i + dt))
  }

  /** What `renderControl()` draws: the status line and the timeline segments. */
  datatype Control = Control(status: Status, segments: seq<Segment>)

  class TimeMachine {
    /** The snapshot being browsed, from `useDirectoryOverride`; `None` is `null`. */
    var override: Option<string>
    /** `useState("")`: the hovered segment's id; `None` is `null`. */
    var hover: Option<string>
    /** `timeout.current`: the last handle `setTimeout` returned; `None` while `undefined`. */
    var timeout: Option<nat>
    /** Timers scheduled and neither fired nor cleared. */
    var pending: set<nat>
    /** The handle the host gives the next `setTimeout`. */
    var nextTimer: nat
    /** Every `trackEvent` call so far. */
    ghost var log: seq<TrackEvent>

    /** Handles already given out are below `nextTimer`, so a new one is fresh. */
    ghost predicate Valid()
      reads this
    {
      (forall h :: h in pending ==> h < nextTimer) && (timeout.Some? ==> timeout.value < nextTimer)
    }

    /** Mounting the component with the store's current override. */
    constructor (stored: Option<string>)
      ensures Valid()
      ensures override == stored && hover == Some("") && timeout == None && pending == {} && log == []
    {
      override := stored;
      hover := Some("");
      timeout := None;
      pending := {};
      nextTimer := 1;
      log := [];
    }

    /** `goBackTo(index)`: select entry `index` and report it to the tracking sink. */
    method GoBackTo(index: int)
      requires Valid() && 0 <= index < |Dirs|
      modifies this
      ensures Valid()
      ensures override == Some(Dirs[index].id)
      ensures log == old(log) + [TrackEvent(Category, Dirs[index].id)]
      ensures hover == old(hover) && timeout == old(timeout) && pending == old(pending) && nextTimer == old(nextTimer)
    {
      var directory := Dirs[index].id;
      log := log + [TrackEvent(Category, directory)];
      override := Some(directory);
    }

    /** The outcome `moveTimeBy(dt)` promises, relative to the override and log before the call. */
    ghost predicate SteppedFrom(before: Option<string>, logBefore: seq<TrackEvent>, dt: int)
      reads this
    {
      var i := FindIndex(Dirs, before);
      if i == -1 then override == before && log == logBefore
      else
        var target := Dirs[StepTarget(|Dirs|, i, dt)].id;
        override == Some(target) && log == logBefore + [TrackEvent(Category, target)]
    }

    /**
     * `moveTimeBy(dt)`: when the override is a catalog id at index `i`, select
     * the clamped index `i + dt` (tracking it even when the clamp re-selects
     * `i`); otherwise change nothing and track nothing.
     */
    method MoveTimeBy(dt: int)
      requires Valid()
      modifies this
      ensures Valid()
      ensures SteppedFrom(old(override), old(log), dt)
      ensures hover == old(hover) && timeout == old(timeout) && pending == old(pending) && nextTimer == old(nextTimer)
    {
      var browsingIndex := FindIndex(Dirs, override);
      if browsingIndex == -1 {
        return;
      }
      GoBackTo(StepTarget(|Dirs|, browsingIndex, dt));
    }

    /** `handleKeyDown(e)`: the arrow keys step by one; other keys do nothing. */
    method HandleKeyDown(key: string)
      requires Valid()
      modifies this
      ensures Valid()
      ensures KeyDelta(key).Some? ==> SteppedFrom(old(override), old(log), KeyDelta(key).value)
      ensures KeyDelta(key).None? ==> override == old(override) && log == old(log)
      ensures hover == old(hover) && timeout == old(timeout) && pending == old(pending) && nextTimer == old(nextTimer)
    {
      var d := KeyDelta(key);
      if d.Some? {
        MoveTimeBy(d.value);
      }
    }

    /** The history button: a truthy override is cleared (untracked); otherwise entry 0 is selected. */
    method Toggle()
      requires Valid()
      modifies this
      ensures Valid()
      ensures Truthy(old(override)) ==> override == None && log == old(log)
      ensures !Truthy(old(override)) ==> override == Some(Dirs[0].id) && log == old(log) + [TrackEvent(Category, Dirs[0].id)]
      ensures hover == old(hover) && timeout == old(timeout) && pending == old(pending) && nextTimer == old(nextTimer)
    {
      if Truthy(override) {
        override := None;
      } else {
        GoBackTo(0);
      }
    }

    /** Mouse over segment `index`: cancel the timer in `timeout.current`, then hover that segment's id. */
    method MouseOver(index: int)
      requires Valid() && 0 <= index < |Dirs| - 1
      modifies this
      ensures Valid()
      ensures hover == Some(Dirs[index].id)
      ensures pending == if old(timeout).Some? then old(pending) - {old(timeout).value} else old(pending)
      ensures override == old(override) && log == old(log) && timeout == old(timeout) && nextTimer == old(nextTimer)
    {
      if timeout.Some? {
        pending := pending - {timeout.value};
      }
      hover := Some(Dirs[index].id);
    }

    /** Mouse out of a segment: schedule a fresh timer that will clear the hover, and keep it in `timeout.current`. */
    method MouseOut()
      requires Valid()
      modifies this
      ensures Valid()
      ensures timeout.Some? && timeout.value !in old(pending)
      ensures pending == old(pending) + {timeout.value}
      ensures override == old(override) && hover == old(hover) && log == old(log)
    {
      var handle := nextTimer;
      nextTimer := nextTimer + 1;
      pending := pending + {handle};
      timeout := Some(handle);
    }

    /** The host runs timer `handle`: a pending one clears the hover; a cleared or fired one never runs. */
    method Fire(handle: nat)
      requires Valid()
      modifies this
      ensures Valid()
      ensures pending == old(pending) - {handle}
      ensures hover == if handle in old(pending) then None else old(hover)
      ensures override == old(override) && log == old(log) && timeout == old(timeout) && nextTimer == old(nextTimer)
    {
      if handle in pending {
        pending := pending - {handle};
        hover := None;
      }
    }

    /** `{!!override && renderControl()}`: the control is drawn only while the override is truthy, and then never says "latest". */
    function Rendered(): (r: Option<Control>)
      reads this
      ensures r.Some? <==> Truthy(override)
      ensures r.Some? ==> r.value.status != Latest && |r.value.segments| == |Dirs| - 1
    {
      if Truthy(override) then Some(Control(StatusOf(hover, override), Segments(Dirs, override))) else None
    }
  }
}
