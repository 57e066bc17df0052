/** Sync windows: which of them hold back a plan or an apply of a layer, and when. */
module SyncWindows {
  import opened Resources

  datatype Kind = Allow | Deny | OtherKind

  datatype Window = Window(kind: Kind, schedule: string, duration: string, layers: seq<string>, actions: seq<string>)

  /** The libraries the windows are read with. Times are in nanoseconds. */
  datatype Library = Library(
    parseSchedule: string -> Option<Schedule>,
    parseDuration: string -> Option<int>,
    matches: (string, string) -> Option<bool>)     // filepath.Match: None for a malformed pattern

  const SECOND := 1_000_000_000

  /** What a schedule is read as: a cron expression, with its fire times and a search for the next one that looks only
      so far ahead; or "@every" and a delay, which has no fire times of its own. */
  datatype Schedule = Cron(fires: int -> bool, search: int -> Option<int>) | Every(delay: int)

  /** The start that follows t. With a delay it is counted from t, to the second. */
  function Next(schedule: Schedule, t: int): Option<int> {
    match schedule
    case Cron(_, search) => search(t)
    case Every(delay) => Some(t + delay - t % SECOND)
  }

  /** How far ahead the search looks: five years at the least. */
  const HORIZON := 5 * 365 * 24 * 3600 * SECOND

  /** The least fire time after t is found, unless there is none within the horizon; a delay is a second or more. */
  ghost predicate Sound(s: Schedule) {
    match s
    case Cron(fires, search) =>
      (forall t :: match search(t)
         case Some(u) => u > t && fires(u) && forall v :: t < v < u ==> !fires(v)
         case None => forall v :: t < v <= t + HORIZON ==> !fires(v))
    case Every(delay) => delay >= SECOND
  }

  /** The window's schedule, if it can be read, is sound. */
  ghost predicate Readable(lib: Library, window: Window) {
    var schedule := lib.parseSchedule(window.schedule);
    schedule.Some? ==> Sound(schedule.value)
  }

  // ---- one window ----

  /** Only the first start after now - dur is looked at. When there is none the start is the zero time, which no
      duration reaches from. */
  predicate IsWindowActive(lib: Library, window: Window, now: int) {
    var schedule, dur := lib.parseSchedule(window.schedule), lib.parseDuration(window.duration);
    && schedule.Some?
    && dur.Some?
    && var start := Next(schedule.value, now - dur.value);
    && start.Some? && start.value < now < start.value + dur.value
  }

  /** Now lies strictly inside an occurrence: for a cron expression, one that begins at a fire time; with a delay, the
      one that is counted from a duration ago. */
  ghost predicate InOccurrence(lib: Library, window: Window, now: int) {
    var schedule, dur := lib.parseSchedule(window.schedule), lib.parseDuration(window.duration);
    && schedule.Some?
    && dur.Some?
    && match schedule.value
       case Cron(fires, _) => exists s :: fires(s) && s < now < s + dur.value
       case Every(delay) => delay < dur.value + (now - dur.value) % SECOND
  }

  /** The search gives up: the window is longer than the horizon and does not fire early in it. */
  predicate GivesUp(lib: Library, window: Window, now: int) {
    var schedule, dur := lib.parseSchedule(window.schedule), lib.parseDuration(window.duration);
    && schedule.Some? && dur.Some? && dur.value > HORIZON
    && Next(schedule.value, now - dur.value).None?
  }

  /** Testing that one start is enough, exactly as long as the search for it does not give up on an occurrence. */
  lemma OneStartIsEnoughIff(lib: Library, window: Window, now: int)
    requires Readable(lib, window)
    ensures (IsWindowActive(lib, window, now) <==> InOccurrence(lib, window, now))
            <==> !(GivesUp(lib, window, now) && InOccurrence(lib, window, now))
  {
  }

  predicate Bounded(lib: Library, window: Window) {
    lib.parseDuration(window.duration).Some? ==> lib.parseDuration(window.duration).value <= HORIZON
  }

  /** For windows no longer than the horizon there is no such case. */
  lemma OneStartIsEnough(lib: Library, window: Window, now: int)
    requires Readable(lib, window) && Bounded(lib, window)
    ensures IsWindowActive(lib, window, now) <==> InOccurrence(lib, window, now)
  {
  }

  /** A delay makes no windows that open and close: one at least a second shorter than its delay is never open, one
      longer than its delay always. Only in between does the time matter, and then by its fraction of a second. */
  lemma EveryIsAlwaysOrNever(lib: Library, window: Window, delay: int, dur: int, now: int)
    requires lib.parseSchedule(window.schedule) == Some(Every(delay)) && delay >= SECOND
    requires lib.parseDuration(window.duration) == Some(dur)
    ensures IsWindowActive(lib, window, now) <==> delay - dur < (now - dur) % SECOND
    ensures dur > delay ==> IsWindowActive(lib, window, now)
    ensures dur <= delay - SECOND ==> !IsWindowActive(lib, window, now)
    ensures dur <= delay && (now - dur) % SECOND == 0 ==> !IsWindowActive(lib, window, now)
  {
  }

  /** No fire times make a cron expression of a delay of more than a second. */
  lemma EveryIsNoCron(fires: int -> bool, search: int -> Option<int>, delay: int)
    requires forall t :: search(t) == Next(Every(delay), t)
    requires delay > SECOND
    ensures !Sound(Cron(fires, search))
  {
    assert search(0) == Some(delay) && search(SECOND) == Some(SECOND + delay);
    assert SECOND < delay < SECOND + delay;
  }

  ghost predicate Covers(lib: Library, window: Window, layer: string) {
    exists i :: 0 <= i < |window.layers|
      && (window.layers[i] == "*" || lib.matches(window.layers[i], layer) == Some(true))
  }

  /** A malformed pattern is skipped. */
  method IsLayerInSyncWindow(lib: Library, window: Window, layer: string) returns (inside: bool)
    ensures inside <==> Covers(lib, window, layer)
  {
    for i := 0 to |window.layers|
      invariant forall j :: 0 <= j < i ==> window.layers[j] != "*" && lib.matches(window.layers[j], layer) != Some(true)
    {
      var pattern := window.layers[i];
      if pattern == "*" {
        return true;
      }
      var matched := lib.matches(pattern, layer);
      if matched.None? {
        continue;
      }
      if matched.value {
        return true;
      }
    }
    return false;
  }

  // ---- all windows ----

  datatype Reason = NoReason | InsideDenyWindow | OutsideAllowWindow

  ghost predicate Applies(lib: Library, window: Window, action: string, layer: string) {
    action in window.actions && Covers(lib, window, layer)
  }

  /** Some window of a kind applies, and when asked for, is active. */
  ghost predicate Present(
    lib: Library, windows: seq<Window>, kind: Kind, active: bool, action: string, layer: string, now: int)
  {
    exists i :: 0 <= i < |windows| && Counts(lib, windows[i], kind, active, action, layer, now)
  }

  ghost predicate Counts(lib: Library, w: Window, kind: Kind, active: bool, action: string, layer: string, now: int) {
    w.kind == kind && Applies(lib, w, action, layer) && (active ==> IsWindowActive(lib, w, now))
  }

  /** The order of the windows plays no part. */
  ghost function Verdict(lib: Library, windows: seq<Window>, action: string, layer: string, now: int): Reason {
    if Present(lib, windows, Deny, true, action, layer, now) then InsideDenyWindow
    else if Present(lib, windows, Allow, false, action, layer, now)
            && !Present(lib, windows, Allow, true, action, layer, now)
    then OutsideAllowWindow
    else NoReason
  }

  method IsSyncBlocked(lib: Library, windows: seq<Window>, action: string, layer: string, now: int)
    returns (blocked: bool, reason: Reason)
    ensures reason == Verdict(lib, windows, action, layer, now)
    ensures blocked <==> reason != NoReason
  {
    if |windows| == 0 {
      return false, NoReason;
    }
    var hasAllow, allowWindowActive := false, false;
    for i := 0 to |windows|
      invariant !Present(lib, windows[..i], Deny, true, action, layer, now)
      invariant hasAllow <==> Present(lib, windows[..i], Allow, false, action, layer, now)
      invariant allowWindowActive <==> Present(lib, windows[..i], Allow, true, action, layer, now)
    {
      var window := windows[i];
      OneMoreWindow(lib, windows, i, action, layer, now);
      if action !in window.actions {
        continue;
      }
      var inside := IsLayerInSyncWindow(lib, window, layer);
      if !inside {
        continue;
      }
      if window.kind == Allow {
        hasAllow := true;
      }
      if IsWindowActive(lib, window, now) {
        match window.kind {
          case Deny =>
            assert Counts(lib, windows[i], Deny, true, action, layer, now);
            return true, InsideDenyWindow;
          case Allow => allowWindowActive := true;
          case _ =>
        }
      }
    }
    assert windows[..|windows|] == windows;
    if hasAllow {
      if allowWindowActive {
        return false, NoReason;
      }
      return true, OutsideAllowWindow;
    }
    return false, NoReason;
  }

  lemma OneMoreWindow(lib: Library, windows: seq<Window>, i: nat, action: string, layer: string, now: int)
    requires i < |windows|
    ensures forall kind, active ::
              Present(lib, windows[..i + 1], kind, active, action, layer, now) <==>
                Present(lib, windows[..i], kind, active, action, layer, now)
                || Counts(lib, windows[i], kind, active, action, layer, now)
  {
  }

  /** An applicable window of a kind has an occurrence that now lies in. */
  ghost predicate Open(lib: Library, windows: seq<Window>, kind: Kind, action: string, layer: string, now: int) {
    exists i :: 0 <= i < |windows| && Counts(lib, windows[i], kind, false, action, layer, now)
      && InOccurrence(lib, windows[i], now)
  }

  /** The documented behaviour, in terms of the windows' occurrences and whatever their order: inside a deny window
      nothing goes; otherwise, once an allow window applies, one has to be open. */
  lemma VerdictByOccurrence(lib: Library, windows: seq<Window>, action: string, layer: string, now: int)
    requires forall i :: 0 <= i < |windows| ==> Readable(lib, windows[i]) && Bounded(lib, windows[i])
    ensures var verdict := Verdict(lib, windows, action, layer, now);
            && (verdict == InsideDenyWindow <==> Open(lib, windows, Deny, action, layer, now))
            && (verdict == OutsideAllowWindow <==>
                  && !Open(lib, windows, Deny, action, layer, now)
                  && Present(lib, windows, Allow, false, action, layer, now)
                  && !Open(lib, windows, Allow, action, layer, now))
  {
  }
}
