/** The artifact of a detached run: many inspectors, one watchdog and the launcher read it,
    decide, and write it back. Every write is one section under the artifact's write lock,
    which module LockedArtifact shows to act as one step, but what is written was decided earlier,
    from an older copy. */
module DetachedArtifact {
  import opened Wrappers

  /** A timestamp as the date library reads it: milliseconds, or not a number. */
  datatype Stamp = Unreadable | At(ms: int)

  datatype Status = Running | Passed | Failed | FailedToStart | ExitedWithoutResult | Timeout

  predicate Terminal(status: Status) { !status.Running? }

  datatype Artifact = Artifact(
    pid: nat,
    startedAt: Stamp,
    status: Status,
    deadlineAt: Option<Stamp>,
    lastObservedAt: Option<Stamp>,
    statusUpdatedAt: Stamp,
    resultObservedAt: Option<Stamp>,   // a result was seen while the process was still running
    finishedAt: Option<Stamp>,
    watchdogPid: Option<nat>)

  predicate SameRun(a: Artifact, b: Artifact) {
    a.pid == b.pid && a.startedAt == b.startedAt
  }

  function ObservedAt(a: Artifact): Stamp {
    match a.lastObservedAt
    case Some(stamp) => stamp
    case None => a.statusUpdatedAt
  }

  /** Between two running copies of one run, the one observed earlier loses. */
  predicate IsStale(current: Artifact, next: Artifact) {
    && ObservedAt(current).At? && ObservedAt(next).At?
    && (|| ObservedAt(next).ms < ObservedAt(current).ms
        || (ObservedAt(next).ms == ObservedAt(current).ms
            && current.lastObservedAt.Some? && next.lastObservedAt.Some?))
  }

  /** Whether a write is dropped in favour of what is stored. */
  predicate Preserves(stored: Option<Artifact>, next: Artifact, mayReplaceOtherRun: bool) {
    match stored
    case None => !mayReplaceOtherRun
    case Some(current) =>
      if SameRun(current, next) then
        Terminal(current.status) || (!Terminal(next.status) && IsStale(current, next))
      else
        !mayReplaceOtherRun
  }

  datatype Event =
    | Write(next: Artifact)                // inspector, watchdog start-up failure, watchdog pid
    | Launch(next: Artifact)               // a launch may replace another run
    | FailLaunch(next: Artifact)           // the spawn error handler
    | WatchdogVerdict(copy: Artifact, observedAt: Stamp, status: Status)
    | WatchdogSighting(copy: Artifact, observedAt: Stamp)
    | Remove

  function Or<T>(first: Option<T>, second: Option<T>): Option<T> {
    if first.Some? then first else second
  }

  /** What one locked section leaves stored. */
  function Apply(stored: Option<Artifact>, e: Event): Option<Artifact> {
    match e
    case Write(next) => if Preserves(stored, next, false) then stored else Some(next)
    case Launch(next) => if Preserves(stored, next, true) then stored else Some(next)
    case FailLaunch(next) =>
      if stored.Some? && (!SameRun(stored.value, next) || Preserves(stored, next, true)) then stored else Some(next)
    case WatchdogVerdict(copy, observedAt, status) =>
      if stored.Some? && SameRun(stored.value, copy) && !Terminal(stored.value.status) then
        Some(stored.value.(
          status := status,
          finishedAt := Or(stored.value.finishedAt, Some(observedAt)),
          lastObservedAt := Some(observedAt),
          statusUpdatedAt := observedAt))
      else stored
    case WatchdogSighting(copy, observedAt) =>
      if stored.Some? && SameRun(stored.value, copy) && !Terminal(stored.value.status) then
        Some(stored.value.(
          lastObservedAt := Some(observedAt),
          resultObservedAt := Or(stored.value.resultObservedAt, Some(observedAt))))
      else stored
    case Remove => None
  }

  function ApplyAll(stored: Option<Artifact>, events: seq<Event>): Option<Artifact>
    decreases |events|
  {
    if events == [] then stored else ApplyAll(Apply(stored, events[0]), events[1..])
  }

  /** The file itself, written as the source writes it. */
  class ArtifactFile {
    var stored: Option<Artifact>

    constructor ()
      ensures stored == None
    {
      stored := None;
    }

    method WriteWithCurrentLock(next: Artifact, mayReplaceOtherRun: bool) returns (persisted: Artifact)
      modifies this
      ensures stored == Apply(old(stored), if mayReplaceOtherRun then Launch(next) else Write(next))
      ensures persisted == if stored.Some? then stored.value else next
    {
      var preserve;
      if stored.None? {
        preserve := !mayReplaceOtherRun;
      } else {
        var current := stored.value;
        preserve := SameRun(current, next) && Terminal(current.status);
        if !preserve && SameRun(current, next) && !Terminal(next.status) {
          var currentAt, nextAt := ObservedAt(current), ObservedAt(next);
          if currentAt.At? && nextAt.At? && nextAt.ms < currentAt.ms {
            preserve := true;
          } else if current.lastObservedAt.Some? && next.lastObservedAt.Some?
              && currentAt.At? && nextAt.At? && nextAt.ms == currentAt.ms {
            preserve := true;
          }
        }
        if !preserve {
          preserve := !mayReplaceOtherRun && !SameRun(current, next);
        }
      }
      if preserve {
        return if stored.None? then next else stored.value;
      }
      stored := Some(next);
      return next;
    }

    method WriteFailedLaunch(next: Artifact) returns (persisted: Artifact)
      modifies this
      ensures stored == Apply(old(stored), FailLaunch(next)) && stored == Some(persisted)
    {
      if stored.Some? && !SameRun(stored.value, next) {
        return stored.value;
      }
      persisted := WriteWithCurrentLock(next, true);
    }

    method WriteWatchdogVerdict(copy: Artifact, observedAt: Stamp, status: Status)
      modifies this
      ensures stored == Apply(old(stored), WatchdogVerdict(copy, observedAt, status))
    {
      if stored.None? {
        return;   // reading the missing file throws
      }
      var latest := stored.value;
      if latest.pid != copy.pid || latest.startedAt != copy.startedAt {
        return;
      }
      if Terminal(latest.status) {
        return;
      }
      var finishedAt := if latest.finishedAt.Some? then latest.finishedAt else Some(observedAt);
      stored := Some(latest.(status := status, finishedAt := finishedAt,
                             lastObservedAt := Some(observedAt), statusUpdatedAt := observedAt));
    }

    method WriteWatchdogSighting(copy: Artifact, observedAt: Stamp)
      modifies this
      ensures stored == Apply(old(stored), WatchdogSighting(copy, observedAt))
    {
      if stored.None? {
        return;
      }
      var latest := stored.value;
      if latest.pid != copy.pid || latest.startedAt != copy.startedAt || Terminal(latest.status) {
        return;
      }
      var sighting := if latest.resultObservedAt.Some? then latest.resultObservedAt else Some(observedAt);
      stored := Some(latest.(lastObservedAt := Some(observedAt), resultObservedAt := sighting));
    }

    method RemoveArtifact() returns (removed: Option<Artifact>)
      modifies this
      ensures stored == Apply(old(stored), Remove) && removed == old(stored)
    {
      removed := stored;
      if stored.Some? {
        stored := None;
      }
    }
  }

  // ---------------------------------------------------------------------------
  // What each write leaves, field by field

  /** The copy of the same run brought by a writer is kept out while both are running and it looks
      older: observed before the stored copy, or at the same moment when both record a look. */
  lemma WriteIsExactly(current: Artifact, next: Artifact)
    ensures var seen := if current.lastObservedAt.Some? then current.lastObservedAt.value else current.statusUpdatedAt;
      var brought := if next.lastObservedAt.Some? then next.lastObservedAt.value else next.statusUpdatedAt;
      var older := seen.At? && brought.At?
        && (brought.ms < seen.ms
            || (brought.ms == seen.ms && current.lastObservedAt.Some? && next.lastObservedAt.Some?));
      var accepted := current.status == Running && (next.status != Running || !older);
      var sameRun := current.pid == next.pid && current.startedAt == next.startedAt;
      && Apply(Some(current), Write(next)) == Some(if sameRun && accepted then next else current)
      && Apply(Some(current), Launch(next)) == Some(if !sameRun || accepted then next else current)
      && Apply(Some(current), FailLaunch(next)) == Some(if sameRun && accepted then next else current)
  {
  }

  /** With nothing stored only a launch, failed or not, stores anything. */
  lemma AbsentIsExactly(e: Event)
    ensures Apply(None, e) == (match e
      case Launch(next) => Some(next)
      case FailLaunch(next) => Some(next)
      case _ => None)
    ensures e.Remove? ==> forall stored :: Apply(stored, e) == None
  {
  }

  /** A watchdog's verdict goes onto the stored artifact of the same run while that is running. */
  lemma WatchdogVerdictIsExactly(current: Artifact, copy: Artifact, at: Stamp, status: Status)
    ensures var after := Apply(Some(current), WatchdogVerdict(copy, at, status));
      after.Some? &&
      if current.pid == copy.pid && current.startedAt == copy.startedAt && current.status == Running then
        && after.value.status == status
        && after.value.lastObservedAt == Some(at) && after.value.statusUpdatedAt == at
        && (if current.finishedAt.Some? then after.value.finishedAt == current.finishedAt
            else after.value.finishedAt == Some(at))
        && after.value.pid == current.pid && after.value.startedAt == current.startedAt
        && after.value.deadlineAt == current.deadlineAt && after.value.resultObservedAt == current.resultObservedAt
        && after.value.watchdogPid == current.watchdogPid
      else after.value == current
  {
  }

  /** And so does its sighting of a result; an earlier one is kept. */
  lemma WatchdogSightingIsExactly(current: Artifact, copy: Artifact, at: Stamp)
    ensures var after := Apply(Some(current), WatchdogSighting(copy, at));
      after.Some? &&
      if current.pid == copy.pid && current.startedAt == copy.startedAt && current.status == Running then
        && after.value.lastObservedAt == Some(at)
        && (if current.resultObservedAt.Some? then after.value.resultObservedAt == current.resultObservedAt
            else after.value.resultObservedAt == Some(at))
        && after.value.status == Running && after.value.statusUpdatedAt == current.statusUpdatedAt
        && after.value.pid == current.pid && after.value.startedAt == current.startedAt
        && after.value.deadlineAt == current.deadlineAt && after.value.finishedAt == current.finishedAt
        && after.value.watchdogPid == current.watchdogPid
      else after.value == current
  {
  }

  // ---------------------------------------------------------------------------
  // What holds over every interleaving

  /** Events that neither remove the artifact nor launch another run over it. */
  predicate LeavesRunInPlace(run: Artifact, e: Event) {
    !e.Remove? && (e.Launch? ==> SameRun(run, e.next))
  }

  /** A terminal verdict is final: whatever copies the writers hold, and in whatever order they
      write, the artifact is kept as a whole until it is removed or a launch replaces it. */
  lemma {:induction false} TerminalArtifactsAreFinal(verdict: Artifact, events: seq<Event>)
    requires Terminal(verdict.status)
    requires forall e <- events :: LeavesRunInPlace(verdict, e)
    ensures ApplyAll(Some(verdict), events) == Some(verdict)
    decreases |events|
  {
    if events != [] {
      assert LeavesRunInPlace(verdict, events[0]);
      assert Apply(Some(verdict), events[0]) == Some(verdict);
      TerminalArtifactsAreFinal(verdict, events[1..]);
    }
  }

  predicate IsLaunch(e: Event) { e.Launch? || e.FailLaunch? }

  /** Writers other than a launch never bring back a removed artifact. */
  lemma {:induction false} RemovedStaysRemoved(events: seq<Event>)
    requires forall e <- events :: !IsLaunch(e)
    ensures ApplyAll(None, events) == None
    decreases |events|
  {
    if events != [] {
      assert !IsLaunch(events[0]);
      RemovedStaysRemoved(events[1..]);
    }
  }

  /** Nor do they ever put one run's data over another's: what is stored stays the same run's, or goes. */
  lemma {:induction false} RunsAreNotMixedUp(current: Artifact, events: seq<Event>)
    requires forall e <- events :: !IsLaunch(e)
    ensures var after := ApplyAll(Some(current), events);
      after.Some? ==> SameRun(after.value, current)
    decreases |events|
  {
    if events != [] {
      assert !IsLaunch(events[0]);
      var next := Apply(Some(current), events[0]);
      if next.None? {
        RemovedStaysRemoved(events[1..]);
      } else {
        RunsAreNotMixedUp(next.value, events[1..]);
      }
    }
  }

  /** Exactly the events that change which run is stored. */
  lemma RunChangesExactlyBy(stored: Option<Artifact>, e: Event)
    ensures var after := Apply(stored, e);
      var sameRun := (stored.None? && after.None?)
        || (stored.Some? && after.Some? && SameRun(stored.value, after.value));
      !sameRun <==>
        || (e.Remove? && stored.Some?)
        || (e.Launch? && (stored.None? || !SameRun(stored.value, e.next)))
        || (e.FailLaunch? && stored.None?)
  {
  }

  // Going back in time

  /** The artifact a writer brings along whole. */
  function Brought(e: Event): Option<Artifact> {
    match e
    case Write(next) => Some(next)
    case Launch(next) => Some(next)
    case FailLaunch(next) => Some(next)
    case _ => None
  }

  /** The event writes about this run. */
  predicate Concerns(run: Artifact, e: Event) {
    match e
    case WatchdogVerdict(copy, _, _) => SameRun(run, copy)
    case WatchdogSighting(copy, _) => SameRun(run, copy)
    case Remove => false
    case _ => SameRun(run, Brought(e).value)
  }

  /** The time an event says the run was observed at. */
  function TimeOf(e: Event): Stamp {
    match e
    case WatchdogVerdict(_, observedAt, _) => observedAt
    case WatchdogSighting(_, observedAt) => observedAt
    case Remove => Unreadable
    case _ => ObservedAt(Brought(e).value)
  }

  predicate IsReadable(e: Event) { e.Remove? || TimeOf(e).At? }

  predicate IsOlder(e: Event, ms: int) { TimeOf(e).At? && TimeOf(e).ms < ms }

  /** The watchdog compares no times, and nobody does before ending a run. */
  predicate ComparesNoTimes(e: Event) {
    e.WatchdogVerdict? || e.WatchdogSighting? || (Brought(e).Some? && Terminal(Brought(e).value.status))
  }

  /** When an event moves the observation time of the stored run back, exactly. */
  lemma EventRewindsExactlyWhen(current: Artifact, e: Event)
    requires ObservedAt(current).At? && IsReadable(e)
    ensures var after := Apply(Some(current), e);
      (after.Some? && SameRun(after.value, current)
       && ObservedAt(after.value).At? && ObservedAt(after.value).ms < ObservedAt(current).ms) <==>
        && !Terminal(current.status) && Concerns(current, e)
        && ComparesNoTimes(e) && IsOlder(e, ObservedAt(current).ms)
  {
  }

  /** It does happen: an inspector that started looking earlier ends the run later. */
  lemma TerminalWritesCanRewind(run: Artifact) returns (verdict: Artifact)
    requires run.status.Running? && ObservedAt(run) == At(100)
    ensures Terminal(verdict.status) && ObservedAt(verdict) == At(50)
    ensures Apply(Some(run), Write(verdict)) == Some(verdict)
  {
    verdict := run.(status := Failed, lastObservedAt := Some(At(50)));
  }

  /** And a watchdog's sighting rewinds a run that goes on, so that a copy too old to be written
      before is written after it, and the sighting is gone again. */
  lemma SightingsCanRewind(run: Artifact) returns (sighting: Event, overwrite: Event)
    requires run.status.Running? && run.lastObservedAt == Some(At(100)) && run.resultObservedAt.None?
    ensures sighting == WatchdogSighting(run, At(50)) && overwrite == Write(run.(lastObservedAt := Some(At(60))))
    ensures Apply(Some(run), overwrite) == Some(run)
    ensures Apply(Some(run), sighting) == Some(run.(lastObservedAt := Some(At(50)), resultObservedAt := Some(At(50))))
    ensures ApplyAll(Some(run), [sighting, overwrite]) == Some(run.(lastObservedAt := Some(At(60))))
  {
    sighting := WatchdogSighting(run, At(50));
    overwrite := Write(run.(lastObservedAt := Some(At(60))));
    assert [sighting, overwrite][1..] == [overwrite] && [overwrite][1..] == [];
    var seen := Apply(Some(run), sighting);
    assert ApplyAll(seen, [overwrite]) == ApplyAll(Apply(seen, overwrite), []);
  }

  /** The event ends the stored run, and then nothing but a launch or a removal changes it. */
  predicate Settles(run: Artifact, e: Event) {
    && Concerns(run, e)
    && if e.WatchdogVerdict? then Terminal(e.status)
       else Brought(e).Some? && Terminal(Brought(e).value.status)
  }

  /** Up to the end of the run, every event about it is older than `ms`. */
  predicate AllOlder(run: Artifact, ms: int, events: seq<Event>) {
    events != [] ==>
      && (Concerns(run, events[0]) ==> IsOlder(events[0], ms))
      && (Settles(run, events[0]) || AllOlder(run, ms, events[1..]))
  }

  /** Before the run ends or with its end, an event that compares no times brings one older than
      `ms`, and every later event up to the end is older too. */
  predicate GoesBack(run: Artifact, ms: int, events: seq<Event>) {
    events != [] &&
    (|| (Concerns(run, events[0]) && ComparesNoTimes(events[0]) && IsOlder(events[0], ms)
         && (Settles(run, events[0]) || AllOlder(run, ms, events[1..])))
     || (!Settles(run, events[0]) && GoesBack(run, ms, events[1..])))
  }

  predicate Precedes(a: Artifact, ms: int) { ObservedAt(a).At? && ObservedAt(a).ms < ms }

  /** Over every interleaving of inspectors, watchdogs and launchers with one run: its observation
      time has gone back in the end exactly when some event took it back and none brought it forth. */
  lemma {:induction false} RunRewindsExactlyWhen(current: Artifact, events: seq<Event>)
    requires ObservedAt(current).At?
    requires forall e <- events :: LeavesRunInPlace(current, e) && IsReadable(e)
    ensures var after := ApplyAll(Some(current), events);
      && after.Some? && SameRun(after.value, current) && ObservedAt(after.value).At?
      && (ObservedAt(after.value).ms < ObservedAt(current).ms <==>
            !Terminal(current.status) && GoesBack(current, ObservedAt(current).ms, events))
  {
    if Terminal(current.status) {
      TerminalArtifactsAreFinal(current, events);
    } else {
      RunEndsBefore(current, ObservedAt(current).ms, events);
    }
  }

  lemma {:induction false} RunEndsBefore(current: Artifact, ms: int, events: seq<Event>)
    requires ObservedAt(current).At? && !Terminal(current.status)
    requires forall e <- events :: LeavesRunInPlace(current, e) && IsReadable(e)
    ensures var after := ApplyAll(Some(current), events);
      && after.Some? && SameRun(after.value, current) && ObservedAt(after.value).At?
      && (Precedes(after.value, ms) <==>
            (Precedes(current, ms) && AllOlder(current, ms, events)) || GoesBack(current, ms, events))
    decreases |events|
  {
    if events != [] {
      var e, rest := events[0], events[1..];
      assert LeavesRunInPlace(current, e) && IsReadable(e);
      EventMovesTime(current, e, ms);
      var next := Apply(Some(current), e).value;
      forall other <- rest ensures LeavesRunInPlace(next, other) && IsReadable(other) {
        assert LeavesRunInPlace(current, other);
      }
      hide Concerns, Settles, ComparesNoTimes, IsOlder, Precedes, Apply, LeavesRunInPlace, IsReadable;
      if Settles(current, e) {
        TerminalArtifactsAreFinal(next, rest);
      } else {
        RunEndsBefore(next, ms, rest);
        SameRunSameStory(current, next, ms, rest);
      }
    }
  }

  lemma EventMovesTime(current: Artifact, e: Event, ms: int)
    requires ObservedAt(current).At? && !Terminal(current.status)
    requires LeavesRunInPlace(current, e) && IsReadable(e)
    ensures var after := Apply(Some(current), e);
      && after.Some? && SameRun(after.value, current) && ObservedAt(after.value).At?
      && (Terminal(after.value.status) <==> Settles(current, e))
      && (Settles(current, e) ==> Concerns(current, e) && ComparesNoTimes(e))
      && (Precedes(after.value, ms) <==>
            if !Concerns(current, e) then Precedes(current, ms)
            else IsOlder(e, ms) && (ComparesNoTimes(e) || Precedes(current, ms)))
  {
  }

  lemma {:induction false} SameRunSameStory(a: Artifact, b: Artifact, ms: int, events: seq<Event>)
    requires SameRun(a, b)
    ensures AllOlder(a, ms, events) == AllOlder(b, ms, events)
    ensures GoesBack(a, ms, events) == GoesBack(b, ms, events)
    decreases |events|
  {
    if events != [] {
      assert Concerns(a, events[0]) == Concerns(b, events[0]) && Settles(a, events[0]) == Settles(b, events[0]);
      hide Concerns, Settles, ComparesNoTimes, IsOlder;
      SameRunSameStory(a, b, ms, events[1..]);
    }
  }

  /** A recorded sighting is lost exactly to a write, by an inspector or a launcher, that saw none
      itself, works on the same unfinished run, and does not look older. */
  lemma SightingIsLostExactlyWhen(current: Artifact, e: Event)
    requires current.resultObservedAt.Some?
    ensures var after := Apply(Some(current), e);
      (after.Some? && SameRun(after.value, current) && after.value.resultObservedAt.None?) <==>
        && Brought(e).Some? && Concerns(current, e)
        && Brought(e).value.resultObservedAt.None?
        && !Terminal(current.status)
        && (Terminal(Brought(e).value.status) || !IsStale(current, Brought(e).value))
  {
  }

  /** It does happen: the watchdog stamps its sighting with the time it started looking, and an
      inspector that started later but looked for the result earlier overwrites it. */
  lemma SightingsCanBeLost(run: Artifact) returns (sighting: Event, overwrite: Event)
    requires run == Artifact(7, At(0), Running, Some(At(1000)), None, At(0), None, None, None)
    ensures sighting == WatchdogSighting(run, At(100))
    ensures overwrite == Write(run.(lastObservedAt := Some(At(101))))
    ensures ApplyAll(Some(run), [sighting])
         == Some(run.(lastObservedAt := Some(At(100)), resultObservedAt := Some(At(100))))
    ensures ApplyAll(Some(run), [sighting, overwrite]) == Some(run.(lastObservedAt := Some(At(101))))
    ensures run.resultObservedAt == None
  {
    sighting := WatchdogSighting(run, At(100));
    overwrite := Write(run.(lastObservedAt := Some(At(101))));
    assert [sighting, overwrite][1..] == [overwrite];
    assert [sighting][1..] == [] && [overwrite][1..] == [];
    var seen := Apply(Some(run), sighting);
    assert ApplyAll(seen, [overwrite]) == ApplyAll(Apply(seen, overwrite), []);
  }
}
