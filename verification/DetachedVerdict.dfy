/** How a detached run is judged. The inspector and the timeout watchdog are two programs
    written separately; both look at the result file, the process and the deadline. */
module DetachedVerdict {
  import opened Wrappers
  import opened DetachedArtifact

  // ---------------------------------------------------------------------------
  // Which result file counts as this run's

  datatype FileKind = Regular | NonRegular | Oversized

  /** What the JSON text of a result says. */
  datatype Verdict = SaysPassed | SaysFailed | SaysNothing

  /** A candidate result file as one reading finds it. `digest` is injective on contents. */
  datatype Candidate = Candidate(
    path: string, present: bool, kind: FileKind,
    mtime: int, size: nat, digest: int,
    generatedAt: Option<Stamp>,   // only in a readable JSON object
    ownedClaim: bool,             // the result path's claim belongs to this run
    identityClaimed: bool,        // and so does the claim on the file's identity
    verdict: Verdict)

  /** What was at a result path before the launch; each part may be missing. */
  datatype Baseline = Baseline(
    path: string, existed: bool, mtime: Option<int>, size: Option<nat>, digest: Option<int>)

  function FindBaseline(baselines: seq<Baseline>, path: string): Option<Baseline> {
    if baselines == [] then None
    else if baselines[0].path == path then Some(baselines[0])
    else FindBaseline(baselines[1..], path)
  }

  function Deadline(run: Artifact): Option<int> {
    match run.deadlineAt
    case Some(At(ms)) => Some(ms)
    case _ => None
  }

  /** The file was finished before the deadline, as far as its times can be trusted: a time on a
      whole second may have been rounded down. */
  predicate PredatesDeadline(run: Artifact, c: Candidate) {
    match Deadline(run)
    case None => true
    case Some(deadline) =>
      && c.mtime < deadline
      && !(c.mtime % 1000 == 0 && deadline - c.mtime < 1000)
      && (c.kind.Regular? ==>
            match c.generatedAt
            case Some(At(generated)) => generated < deadline
            case _ => true)
  }

  predicate ComparableBaseline(b: Option<Baseline>) {
    b.Some? && b.value.existed && b.value.mtime.Some? && b.value.size.Some?
  }

  predicate ContentChanged(b: Option<Baseline>, c: Candidate) {
    if b.Some? && b.value.existed && b.value.size == Some(c.size) then
      b.value.digest.Some? && c.digest != b.value.digest.value
    else
      ComparableBaseline(b) && b.value.size != Some(c.size)
  }

  predicate IsBaseline(b: Option<Baseline>, c: Candidate) {
    && ComparableBaseline(b)
    && b.value.mtime == Some(c.mtime) && b.value.size == Some(c.size)
    && !ContentChanged(b, c)
  }

  predicate WrittenByRun(run: Artifact, b: Option<Baseline>, c: Candidate) {
    || ContentChanged(b, c)
    || (b.Some? && !b.value.existed)
    || run.startedAt.Unreadable?
    || c.mtime >= run.startedAt.ms
  }

  /** The inspector's test; anything that is not a regular file passes it as soon as it is new. */
  predicate BelongsToRun(run: Artifact, baselines: seq<Baseline>, c: Candidate) {
    var b := FindBaseline(baselines, c.path);
    if IsBaseline(b, c) then false
    else if c.kind.NonRegular? then true
    else if !PredatesDeadline(run, c) then false
    else WrittenByRun(run, b, c)
  }

  /** The watchdog's test. */
  predicate BelongsToOwnedRun(run: Artifact, baselines: seq<Baseline>, c: Candidate) {
    var b := FindBaseline(baselines, c.path);
    !IsBaseline(b, c) && PredatesDeadline(run, c) && WrittenByRun(run, b, c)
  }

  /** What reading one candidate yields: nothing, or a verdict. */
  function ReadCandidate(c: Candidate, belongs: bool): Option<Verdict> {
    if !c.present || !belongs then None
    else if !c.kind.Regular? then Some(SaysNothing)
    else if !c.ownedClaim then None
    else if !c.identityClaimed then Some(SaysNothing)
    else Some(c.verdict)
  }

  /** The inspector's reading, also the launcher's. */
  function ReadResult(run: Artifact, baselines: seq<Baseline>, c: Candidate): Option<Verdict> {
    ReadCandidate(c, BelongsToRun(run, baselines, c))
  }

  function Discover(run: Artifact, baselines: seq<Baseline>, candidates: seq<Candidate>): Option<Verdict> {
    if candidates == [] then None
    else if ReadResult(run, baselines, candidates[0]).Some? then ReadResult(run, baselines, candidates[0])
    else Discover(run, baselines, candidates[1..])
  }

  /** The watchdog's reading. */
  function ReadOwnedResult(run: Artifact, baselines: seq<Baseline>, c: Candidate): Option<Verdict> {
    ReadCandidate(c, BelongsToOwnedRun(run, baselines, c))
  }

  function DiscoverOwned(run: Artifact, baselines: seq<Baseline>, candidates: seq<Candidate>): Option<Verdict> {
    if candidates == [] then None
    else if ReadOwnedResult(run, baselines, candidates[0]).Some? then ReadOwnedResult(run, baselines, candidates[0])
    else DiscoverOwned(run, baselines, candidates[1..])
  }

  // Both tests and the readings, on the times, sizes and contents themselves

  /** A result predates a deadline when its file was written before it, and not on the last whole
      second before it, and it does not itself claim to be generated at or after the deadline. */
  lemma PredatesDeadlineIsExactly(run: Artifact, c: Candidate, deadline: int)
    requires run.deadlineAt == Some(At(deadline))
    ensures PredatesDeadline(run, c) <==>
      && c.mtime < deadline
      && !(c.mtime % 1000 == 0 && c.mtime > deadline - 1000)
      && (c.kind == Regular && c.generatedAt.Some? && c.generatedAt.value.At? ==> c.generatedAt.value.ms < deadline)
  {
  }

  lemma WithoutDeadlineAllPredate(run: Artifact, c: Candidate)
    requires run.deadlineAt == None || run.deadlineAt == Some(Unreadable)
    ensures PredatesDeadline(run, c)
  {
  }

  lemma {:induction false} BaselineIsFirst(baselines: seq<Baseline>, path: string)
    ensures FindBaseline(baselines, path) == None <==> forall b <- baselines :: b.path != path
    ensures FindBaseline(baselines, path).Some? ==>
      exists i :: 0 <= i < |baselines| && FindBaseline(baselines, path) == Some(baselines[i]) && baselines[i].path == path
                  && forall j :: 0 <= j < i ==> baselines[j].path != path
  {
    if baselines != [] {
      if baselines[0].path == path {
        assert FindBaseline(baselines, path) == Some(baselines[0]);
      } else {
        BaselineIsFirst(baselines[1..], path);
        if i :| 0 <= i < |baselines[1..]| && FindBaseline(baselines[1..], path) == Some(baselines[1..][i])
                && baselines[1..][i].path == path && forall j :: 0 <= j < i ==> baselines[1..][j].path != path {
          assert FindBaseline(baselines, path) == Some(baselines[i + 1]);
          assert forall j :: 0 < j < i + 1 ==> baselines[j] == baselines[1..][j - 1];
        }
      }
    }
  }

  /** Whether a file is this run's: it is not what was there before the launch, it predates the
      deadline, and it was written after the start, or has other contents, or nothing was there. For
      the inspector a new file that is not regular is so in any case. */
  lemma BelongsIsExactly(run: Artifact, baselines: seq<Baseline>, c: Candidate)
    ensures var b := FindBaseline(baselines, c.path);
      var existed := b.Some? && b.value.existed;
      var sameSize := existed && b.value.size == Some(c.size);
      var otherDigest := existed && b.value.digest.Some? && b.value.digest.value != c.digest;
      var otherSize := existed && b.value.mtime.Some? && b.value.size.Some? && b.value.size.value != c.size;
      var before := sameSize && b.value.mtime == Some(c.mtime) && !otherDigest;
      var written := (sameSize && otherDigest) || otherSize || (b.Some? && !b.value.existed)
        || run.startedAt == Unreadable || c.mtime >= run.startedAt.ms;
      && (BelongsToRun(run, baselines, c) <==> !before && (c.kind == NonRegular || (PredatesDeadline(run, c) && written)))
      && (BelongsToOwnedRun(run, baselines, c) <==> !before && PredatesDeadline(run, c) && written)
  {
  }

  /** A file is read for its verdict only if it is regular and both claims on it are this run's. */
  lemma ReadingIsExactly(c: Candidate, belongs: bool)
    ensures ReadCandidate(c, belongs).None? <==> !c.present || !belongs || (c.kind == Regular && !c.ownedClaim)
    ensures ReadCandidate(c, belongs).Some? ==>
      ReadCandidate(c, belongs).value == if c.kind == Regular && c.identityClaimed then c.verdict else SaysNothing
  {
  }

  /** The first candidate that yields anything decides. */
  lemma {:induction false} DiscoveryTakesTheFirst(run: Artifact, baselines: seq<Baseline>, candidates: seq<Candidate>, i: nat)
    requires i < |candidates|
    requires forall j :: 0 <= j < i ==> ReadResult(run, baselines, candidates[j]).None?
    ensures ReadResult(run, baselines, candidates[i]).Some? ==>
      Discover(run, baselines, candidates) == ReadResult(run, baselines, candidates[i])
    ensures i == |candidates| - 1 && ReadResult(run, baselines, candidates[i]).None? ==>
      Discover(run, baselines, candidates) == None
    decreases i
  {
    if i > 0 {
      DiscoveryTakesTheFirst(run, baselines, candidates[1..], i - 1);
    }
  }

  lemma {:induction false} OwnedDiscoveryTakesTheFirst(
    run: Artifact, baselines: seq<Baseline>, candidates: seq<Candidate>, i: nat)
    requires i < |candidates|
    requires forall j :: 0 <= j < i ==> ReadOwnedResult(run, baselines, candidates[j]).None?
    ensures ReadOwnedResult(run, baselines, candidates[i]).Some? ==>
      DiscoverOwned(run, baselines, candidates) == ReadOwnedResult(run, baselines, candidates[i])
    ensures i == |candidates| - 1 && ReadOwnedResult(run, baselines, candidates[i]).None? ==>
      DiscoverOwned(run, baselines, candidates) == None
    decreases i
  {
    if i > 0 {
      OwnedDiscoveryTakesTheFirst(run, baselines, candidates[1..], i - 1);
    }
  }

  /** A file with a full baseline is new exactly when its time, size or contents differ from it. */
  lemma NewMeansDifferent(run: Artifact, baselines: seq<Baseline>, c: Candidate)
    requires FindBaseline(baselines, c.path).Some?
    requires var b := FindBaseline(baselines, c.path).value;
      b.existed && b.mtime.Some? && b.size.Some? && b.digest.Some?
    ensures var b := FindBaseline(baselines, c.path).value;
      BelongsToRun(run, baselines, c) <==>
        && !(c.mtime == b.mtime.value && c.size == b.size.value && c.digest == b.digest.value)
        && (c.kind.NonRegular?
            || (PredatesDeadline(run, c)
                && (c.size != b.size.value || c.digest != b.digest.value
                    || run.startedAt.Unreadable? || c.mtime >= run.startedAt.ms)))
  {
  }

  /** The two freshness tests differ only on new files that are not regular. */
  lemma FreshnessTestsAgreeExactlyWhen(run: Artifact, baselines: seq<Baseline>, c: Candidate)
    ensures (BelongsToRun(run, baselines, c) <==> BelongsToOwnedRun(run, baselines, c)) <==>
      var b := FindBaseline(baselines, c.path);
      !c.kind.NonRegular? || IsBaseline(b, c) || (PredatesDeadline(run, c) && WrittenByRun(run, b, c))
  {
  }

  /** A file whose text can say passed is discovered only if it earned it. */
  predicate Earned(run: Artifact, baselines: seq<Baseline>, c: Candidate) {
    && c.present && c.kind.Regular? && c.ownedClaim && c.identityClaimed && c.verdict.SaysPassed?
    && !IsBaseline(FindBaseline(baselines, c.path), c)
    && PredatesDeadline(run, c)
    && WrittenByRun(run, FindBaseline(baselines, c.path), c)
  }

  lemma {:induction false} DiscoveredPassIsEarned(run: Artifact, baselines: seq<Baseline>, candidates: seq<Candidate>)
    requires Discover(run, baselines, candidates) == Some(SaysPassed)
    ensures exists c :: c in candidates && Earned(run, baselines, c)
  {
    if ReadResult(run, baselines, candidates[0]).Some? {
      assert Earned(run, baselines, candidates[0]);
    } else {
      DiscoveredPassIsEarned(run, baselines, candidates[1..]);
    }
  }

  lemma {:induction false} DiscoveredOwnedPassIsEarned(run: Artifact, baselines: seq<Baseline>, candidates: seq<Candidate>)
    requires DiscoverOwned(run, baselines, candidates) == Some(SaysPassed)
    ensures exists c :: c in candidates && Earned(run, baselines, c)
  {
    if ReadOwnedResult(run, baselines, candidates[0]).Some? {
      assert Earned(run, baselines, candidates[0]);
    } else {
      DiscoveredOwnedPassIsEarned(run, baselines, candidates[1..]);
    }
  }

  /** What a result that passes has to be, in full: a regular file, owned twice over, that says so,
      from before the deadline if there is one, and new: nothing was there, or it has another size or
      other contents, or it was written after the start and is not the very file that was there. */
  ghost predicate PassesInTime(run: Artifact, baselines: seq<Baseline>, c: Candidate) {
    && c.verdict == SaysPassed && c.present && c.kind == Regular && c.ownedClaim && c.identityClaimed
    && (forall deadline :: run.deadlineAt == Some(At(deadline)) ==>
          && c.mtime < deadline
          && !(c.mtime % 1000 == 0 && deadline - 1000 < c.mtime)
          && (forall generated :: c.generatedAt == Some(At(generated)) ==> generated < deadline))
    && (forall start :: run.startedAt == At(start) && (forall b <- baselines :: b.path != c.path) ==>
          c.mtime >= start)
    && (forall b <- baselines :: FindBaseline(baselines, c.path) == Some(b) && b.existed ==>
          && !(b.mtime == Some(c.mtime) && b.size == Some(c.size) && b.digest == Some(c.digest))
          && (forall start :: run.startedAt == At(start) && b.size == Some(c.size) && b.digest == Some(c.digest) ==>
                c.mtime >= start))
  }

  lemma EarnedPassesInTime(run: Artifact, baselines: seq<Baseline>, c: Candidate)
    requires Earned(run, baselines, c)
    ensures PassesInTime(run, baselines, c)
  {
    if run.deadlineAt.Some? && run.deadlineAt.value.At? {
      PredatesDeadlineIsExactly(run, c, run.deadlineAt.value.ms);
    }
    BaselineIsFirst(baselines, c.path);
  }

  /** Neither program discovers a pass in a file that came too late or was there before. */
  lemma DiscoveredPassesAreInTime(run: Artifact, baselines: seq<Baseline>, candidates: seq<Candidate>)
    requires Discover(run, baselines, candidates) == Some(SaysPassed)
      || DiscoverOwned(run, baselines, candidates) == Some(SaysPassed)
    ensures exists c :: c in candidates && PassesInTime(run, baselines, c)
  {
    if Discover(run, baselines, candidates) == Some(SaysPassed) {
      DiscoveredPassIsEarned(run, baselines, candidates);
    } else {
      DiscoveredOwnedPassIsEarned(run, baselines, candidates);
    }
    var c :| c in candidates && Earned(run, baselines, c);
    EarnedPassesInTime(run, baselines, c);
  }

  // ---------------------------------------------------------------------------
  // The decision

  /** All that one inspection observes about a running artifact's copy. */
  datatype View = View(
    copy: Artifact,
    observedAt: Stamp,
    phaseFails: bool,          // the phase file could not be read
    found: Option<Verdict>,    // the result, looked up once
    settled: Option<Verdict>,  // and looked up again after the process was seen gone
    alive: bool,               // the liveness test
    terminates: bool)          // terminating the process could be confirmed

  predicate Overdue(v: View) {
    !Terminal(v.copy.status) && v.observedAt.At? && Deadline(v.copy).Some? && v.observedAt.ms >= Deadline(v.copy).value
  }

  function Settled(v: View): Verdict
    requires v.found.Some?
  {
    if v.found == Some(SaysNothing) && v.settled.Some? then v.settled.value else v.found.value
  }

  function StatusOf(verdict: Verdict): Status {
    match verdict
    case SaysPassed => Passed
    case SaysFailed => Failed
    case SaysNothing => Failed
  }

  /** The inspector's new status. */
  function Inspected(v: View): Status {
    if Terminal(v.copy.status) then v.copy.status
    else if Overdue(v) && (v.phaseFails || v.found.None? || v.alive || v.copy.resultObservedAt.Some?) then
      if v.terminates then Timeout else Running
    else if v.alive then Running
    else if v.phaseFails then Failed
    else if v.found.None? then ExitedWithoutResult
    else StatusOf(Settled(v))
  }

  /** And its record of a result seen while the process was running. */
  function Sighted(v: View): Option<Stamp> {
    if Terminal(v.copy.status) || v.phaseFails || v.found.None? || !v.alive then v.copy.resultObservedAt
    else Or(v.copy.resultObservedAt, Some(v.observedAt))
  }

  /** The artifact an inspection goes on to write. */
  function WrittenBy(v: View): (next: Artifact)
    ensures SameRun(next, v.copy) && next.deadlineAt == v.copy.deadlineAt && next.watchdogPid == v.copy.watchdogPid
  {
    var status := Inspected(v);
    v.copy.(
      status := status,
      resultObservedAt := Sighted(v),
      lastObservedAt := Some(v.observedAt),
      finishedAt := if Terminal(status) then Or(v.copy.finishedAt, Some(v.observedAt)) else v.copy.finishedAt,
      statusUpdatedAt := if status != v.copy.status then v.observedAt else v.copy.statusUpdatedAt)
  }

  /** `inspectDetachedRun` from the copy to the artifact it goes on to write. */
  method Inspect(v: View) returns (next: Artifact)
    ensures next == WrittenBy(v)
    ensures next.status == Inspected(v)
    ensures next.resultObservedAt == Sighted(v)
    ensures next.finishedAt == if Terminal(next.status) then Or(v.copy.finishedAt, Some(v.observedAt)) else v.copy.finishedAt
  {
    var artifact := v.copy;
    var wasTerminal := Terminal(artifact.status);
    var result := if wasTerminal then None else v.found;
    var sighting := artifact.resultObservedAt;
    var nextStatus := artifact.status;
    var overdue := false;
    if !wasTerminal && v.observedAt.At? && Deadline(artifact).Some? {
      overdue := v.observedAt.ms >= Deadline(artifact).value;
    }
    var timedOut := if v.terminates then Timeout else Running;

    if v.phaseFails && !wasTerminal {
      if overdue {
        nextStatus := timedOut;
      } else {
        nextStatus := if v.alive then Running else Failed;
      }
    } else if result.Some? {
      var status := result.value;
      if v.alive && sighting.None? {
        sighting := Some(v.observedAt);
      }
      if overdue && (v.alive || sighting.Some?) {
        nextStatus := timedOut;
      } else if v.alive {
        nextStatus := Running;
      } else {
        if status.SaysNothing? && v.settled.Some? {
          status := v.settled.value;
        }
        nextStatus := StatusOf(status);
      }
    } else if !wasTerminal {
      if overdue {
        nextStatus := timedOut;
      } else if !v.alive {
        nextStatus := ExitedWithoutResult;
      } else {
        nextStatus := Running;
      }
    }

    var finishedAt := artifact.finishedAt;
    if Terminal(nextStatus) && finishedAt.None? {
      finishedAt := Some(v.observedAt);
    }
    next := artifact.(
      finishedAt := finishedAt,
      lastObservedAt := Some(v.observedAt),
      resultObservedAt := sighting,
      status := nextStatus,
      statusUpdatedAt := if nextStatus != artifact.status then v.observedAt else artifact.statusUpdatedAt);
  }

  /** What the watchdog does after one look. */
  datatype Action = Nothing | LookAgain | RecordSighting | Conclude(status: Status)

  function Watched(v: View): Action {
    if Terminal(v.copy.status) then Nothing
    else if v.alive then
      if Overdue(v) then (if v.terminates then Conclude(Timeout) else LookAgain)
      else if v.found.Some? && !v.found.value.SaysNothing? then RecordSighting
      else LookAgain
    else match v.found
      case Some(SaysNothing) => Conclude(Failed)
      case Some(verdict) =>
        if Overdue(v) && v.copy.resultObservedAt.Some? then (if v.terminates then Conclude(Timeout) else LookAgain)
        else Conclude(StatusOf(verdict))
      case None =>
        if Overdue(v) then (if v.terminates then Conclude(Timeout) else LookAgain)
        else Conclude(ExitedWithoutResult)
  }

  /** `inspectDeadline`, writing what it decides; `ownsRun` and `myPid` are its guards. */
  method WatchDeadline(file: ArtifactFile, v: View, ownsRun: bool, myPid: nat) returns (lookAgain: bool)
    modifies file
    ensures var acts := ownsRun && (v.copy.watchdogPid.Some? ==> v.copy.watchdogPid.value == myPid);
      var action := if acts then Watched(v) else Nothing;
      && file.stored == (match action
           case Conclude(status) => Apply(old(file.stored), WatchdogVerdict(v.copy, v.observedAt, status))
           case RecordSighting => Apply(old(file.stored), WatchdogSighting(v.copy, v.observedAt))
           case _ => old(file.stored))
      && (lookAgain <==> action.LookAgain? || action.RecordSighting?)
  {
    lookAgain := false;
    if !ownsRun || (v.copy.watchdogPid.Some? && v.copy.watchdogPid.value != myPid) || Terminal(v.copy.status) {
      return;
    }
    var finite := Deadline(v.copy).Some?;
    var overdue := finite && v.observedAt.At? && v.observedAt.ms >= Deadline(v.copy).value;
    var recordTimeout := false;
    if v.found.Some? {
      if !v.found.value.SaysNothing? {
        if v.alive {
          if overdue {
            recordTimeout := true;
          } else {
            file.WriteWatchdogSighting(v.copy, v.observedAt);
            if finite {
              return true;
            }
          }
        } else {
          if overdue && v.copy.resultObservedAt.Some? {
            recordTimeout := true;
          } else {
            file.WriteWatchdogVerdict(v.copy, v.observedAt, if v.found.value.SaysPassed? then Passed else Failed);
            return;
          }
        }
      } else if !v.alive {
        file.WriteWatchdogVerdict(v.copy, v.observedAt, Failed);
        return;
      }
    }
    if !recordTimeout && !overdue {
      if !v.alive {
        file.WriteWatchdogVerdict(v.copy, v.observedAt, ExitedWithoutResult);
        return;
      }
      return true;
    }
    if !v.terminates {
      return true;
    }
    file.WriteWatchdogVerdict(v.copy, v.observedAt, Timeout);
  }

  // ---------------------------------------------------------------------------
  // The decisions, written out

  lemma OverdueIsExactly(v: View)
    ensures Overdue(v) <==>
      v.copy.status == Running
      && exists deadline, now :: v.copy.deadlineAt == Some(At(deadline)) && v.observedAt == At(now) && now >= deadline
  {
    if Overdue(v) {
      assert v.copy.deadlineAt == Some(At(v.copy.deadlineAt.value.ms)) && v.observedAt == At(v.observedAt.ms);
    }
  }

  /** Whether a result was seen while the process was running: from now on, if there is one, the
      process is alive, the phase can be read and none was seen before. */
  lemma SightedIsExactly(v: View)
    ensures Sighted(v) ==
      if v.copy.resultObservedAt == None && v.copy.status == Running && v.alive && !v.phaseFails && v.found != None
      then Some(v.observedAt) else v.copy.resultObservedAt
  {
  }

  /** What an inspection writes, field by field. */
  lemma WrittenByIsExactly(v: View)
    ensures var next := WrittenBy(v);
      && next.status == Inspected(v) && next.resultObservedAt == Sighted(v)
      && next.lastObservedAt == Some(v.observedAt)
      && next.statusUpdatedAt == (if Inspected(v) == v.copy.status then v.copy.statusUpdatedAt else v.observedAt)
      && next.finishedAt ==
           (if Inspected(v) == Running || v.copy.finishedAt.Some? then v.copy.finishedAt else Some(v.observedAt))
      && next.pid == v.copy.pid && next.startedAt == v.copy.startedAt
      && next.deadlineAt == v.copy.deadlineAt && next.watchdogPid == v.copy.watchdogPid
  {
  }

  /** When the watchdog does what. */
  lemma WatchedIsExactly(v: View)
    ensures Watched(v) == Nothing <==> v.copy.status != Running
    ensures Watched(v) == Conclude(Timeout) <==>
      && Overdue(v) && v.terminates
      && (v.alive || v.found == None || (v.found != Some(SaysNothing) && v.copy.resultObservedAt != None))
    ensures Watched(v) == Conclude(Passed) <==>
      && v.copy.status == Running && !v.alive && v.found == Some(SaysPassed)
      && !(Overdue(v) && v.copy.resultObservedAt != None)
    ensures Watched(v) == Conclude(Failed) <==>
      && v.copy.status == Running && !v.alive
      && (v.found == Some(SaysNothing)
          || (v.found == Some(SaysFailed) && !(Overdue(v) && v.copy.resultObservedAt != None)))
    ensures Watched(v) == Conclude(ExitedWithoutResult) <==>
      v.copy.status == Running && !v.alive && v.found == None && !Overdue(v)
    ensures Watched(v) == RecordSighting <==>
      && v.copy.status == Running && v.alive && !Overdue(v)
      && (v.found == Some(SaysPassed) || v.found == Some(SaysFailed))
    ensures Watched(v).Conclude? ==> Watched(v).status in {Timeout, Passed, Failed, ExitedWithoutResult}
  {
  }

  // ---------------------------------------------------------------------------
  // Soundness of a verdict

  /** A running artifact turns terminal only after the process was found, or made, gone. */
  lemma TerminalMeansGone(v: View)
    requires v.copy.status.Running?
    ensures Terminal(Inspected(v)) ==> if Inspected(v).Timeout? then v.terminates && Overdue(v) else !v.alive
    ensures Watched(v).Conclude? ==> if Watched(v).status.Timeout? then v.terminates && Overdue(v) else !v.alive
    ensures Watched(v).Conclude? ==> Terminal(Watched(v).status)
  {
  }

  /** Exactly when an inspection yields each terminal status. */
  lemma InspectionYieldsExactly(v: View)
    requires v.copy.status.Running?
    ensures Inspected(v) == Passed <==>
      && !v.alive && !v.phaseFails
      && (v.found == Some(SaysPassed) || (v.found == Some(SaysNothing) && v.settled == Some(SaysPassed)))
      && !(Overdue(v) && v.copy.resultObservedAt.Some?)
    ensures Inspected(v) == Timeout <==>
      && Overdue(v) && v.terminates
      && (v.phaseFails || v.found.None? || v.alive || v.copy.resultObservedAt.Some?)
    ensures Inspected(v) == ExitedWithoutResult <==> !v.alive && !v.phaseFails && v.found.None? && !Overdue(v)
    ensures Inspected(v) == Failed <==>
      && !v.alive
      && (if v.phaseFails then !Overdue(v)
          else && !(Overdue(v) && v.copy.resultObservedAt.Some?)
               && (v.found == Some(SaysFailed) || (v.found == Some(SaysNothing) && v.settled != Some(SaysPassed))))
    ensures Inspected(v) == Running <==>
      if Overdue(v) && (v.phaseFails || v.found.None? || v.alive || v.copy.resultObservedAt.Some?) then !v.terminates
      else v.alive
    ensures Inspected(v) != FailedToStart
  {
  }

  /** A verdict once given is not reconsidered. */
  lemma InspectionKeepsVerdicts(v: View)
    requires v.copy.status != Running
    ensures Inspected(v) == v.copy.status && Sighted(v) == v.copy.resultObservedAt && Watched(v) == Nothing
  {
  }

  /** A pass is earned: some candidate is a regular, owned, new file finished before the deadline
      that says so, the process is gone, and the deadline did not pass on a result seen earlier. */
  lemma PassedVerdictsAreEarned(v: View, baselines: seq<Baseline>, first: seq<Candidate>, second: seq<Candidate>)
    requires v.copy.status.Running?
    requires v.found == Discover(v.copy, baselines, first)
    requires v.settled == Discover(v.copy, baselines, second)
    requires Inspected(v) == Passed
    ensures exists c :: (c in first || c in second) && Earned(v.copy, baselines, c)
    ensures !v.alive
    ensures !(Overdue(v) && v.copy.resultObservedAt.Some?)
  {
    if v.found == Some(SaysPassed) {
      DiscoveredPassIsEarned(v.copy, baselines, first);
    } else {
      DiscoveredPassIsEarned(v.copy, baselines, second);
    }
  }

  // ---------------------------------------------------------------------------
  // Agreement of the two programs

  function WatchedStatus(v: View): Status {
    if Watched(v).Conclude? then Watched(v).status else v.copy.status
  }

  function WatchedSighting(v: View): Option<Stamp> {
    if Watched(v).RecordSighting? then Or(v.copy.resultObservedAt, Some(v.observedAt)) else v.copy.resultObservedAt
  }

  /** With a result that is absent or says passed or failed, both reach the same status unless the
      phase file cannot be read, which only the inspector looks at; and then exactly as stated. */
  lemma StatusesAgree(v: View)
    requires v.found != Some(SaysNothing)
    ensures Inspected(v) == WatchedStatus(v) <==>
      || Terminal(v.copy.status)
      || v.alive
      || !v.phaseFails
      || (if Overdue(v) then v.found.None? || v.copy.resultObservedAt.Some? else v.found == Some(SaysFailed))
  {
  }

  /** For every view: they agree exactly when there is nothing to decide, the process is alive, or
      the two ways of deciding come out the same. */
  lemma StatusesAgreeExactlyWhen(v: View)
    ensures Inspected(v) == WatchedStatus(v) <==>
      || Terminal(v.copy.status)
      || v.alive
      || (!v.phaseFails
          && (v.found != Some(SaysNothing)
              || (!(Overdue(v) && v.copy.resultObservedAt.Some?) && v.settled != Some(SaysPassed))))
      || (v.phaseFails && Overdue(v)
          && (v.found.None? || (v.found != Some(SaysNothing) && v.copy.resultObservedAt.Some?)))
      || (v.phaseFails && !Overdue(v) && (v.found == Some(SaysNothing) || v.found == Some(SaysFailed)))
  {
  }

  /** An unreadable phase file sets them apart: the inspector fails a run the watchdog passes. */
  lemma PhaseFailureFlipsTheVerdict(v: View)
    requires v.copy.status.Running? && v.phaseFails && v.found == Some(SaysPassed) && !v.alive && !Overdue(v)
    ensures Inspected(v) == Failed && WatchedStatus(v) == Passed
  {
  }

  /** Their records of a result seen while the process was running differ exactly when there was
      none before, and only one of them makes it: the inspector at or after the deadline or of a
      result that says nothing, the watchdog when the phase file cannot be read. */
  lemma SightingsAgreeExactlyWhen(v: View)
    requires v.copy.status.Running?
    ensures Sighted(v) == WatchedSighting(v) <==>
      !(v.alive && v.found.Some? && v.copy.resultObservedAt.None?
        && (if v.phaseFails then !Overdue(v) && v.found != Some(SaysNothing)
            else Overdue(v) || v.found == Some(SaysNothing)))
  {
  }

  /** The difference decides a run: if termination cannot be confirmed at the deadline and the
      process then exits, the watchdog alone ends it as passed, the inspector alone as timed out. */
  lemma UnrecordedSightingFlipsTheVerdict(v: View, later: Stamp)
    requires v.copy.status.Running? && v.copy.resultObservedAt.None? && !v.phaseFails
    requires v.found == Some(SaysPassed) && Overdue(v) && v.alive && !v.terminates
    requires later.At? && later.ms >= v.observedAt.ms
    ensures var inspected := v.copy.(status := Inspected(v), resultObservedAt := Sighted(v));
      var watched := v.copy.(status := WatchedStatus(v), resultObservedAt := WatchedSighting(v));
      && inspected.status.Running? && watched.status.Running?
      && Inspected(v.(copy := inspected, observedAt := later, alive := false, terminates := true)) == Timeout
      && WatchedStatus(v.(copy := watched, observedAt := later, alive := false, terminates := true)) == Passed
  {
  }

  // ---------------------------------------------------------------------------
  // Whole runs: inspectors, watchdogs and launchers over stale copies

  datatype RunId = RunId(pid: nat, startedAt: Stamp)

  function IdOf(a: Artifact): RunId { RunId(a.pid, a.startedAt) }

  /** What the launch of a run fixes for good: its deadline, and what was at its result paths before. */
  datatype Conditions = Conditions(deadlineAt: Option<Stamp>, baselines: seq<Baseline>)

  /** What is stored, everything that ever was, the runs whose process is gone, and every candidate
      result file that any program has read. */
  datatype System = System(
    stored: Option<Artifact>, history: set<Artifact>, gone: set<RunId>, seen: set<Candidate>,
    launched: RunId -> Conditions)

  datatype SystemEvent =
    | Exits(run: RunId)
    | Inspects(v: View, first: seq<Candidate>, second: seq<Candidate>)   // the files of its two looks
    | Watches(v: View, look: seq<Candidate>)
    | Launches(next: Artifact, look: seq<Candidate>)
    | FailsLaunch(next: Artifact)
    | RecordsWatchdog(copy: Artifact, watchdogPid: nat)
    | FailsWatchdog(copy: Artifact, terminated: bool, at: Stamp)
    | Removes

  /** Pid 0 stands for a process that never started. */
  predicate IsGone(s: System, a: Artifact) { a.pid == 0 || IdOf(a) in s.gone }

  function BaselinesOf(s: System, a: Artifact): seq<Baseline> { s.launched(IdOf(a)).baselines }

  /** An artifact is the launch's own, and says failed-to-start if the process never started. */
  predicate IsLaunched(s: System, a: Artifact) {
    if a.pid == 0 then a.status == FailedToStart else a.deadlineAt == s.launched(IdOf(a)).deadlineAt
  }

  /** A copy is something that was stored once, and a view's results are what reading files yields;
      the liveness test never misses a live process, and a confirmed termination means the process is
      gone. A launcher writes a terminal artifact only for a process that is gone, and a passed one
      only on a result that says so. */
  predicate CanHappen(s: System, e: SystemEvent) {
    match e
    case Inspects(v, first, second) =>
      && v.copy in s.history && (!v.alive ==> IsGone(s, v.copy))
      && v.found == Discover(v.copy, BaselinesOf(s, v.copy), first)
      && v.settled == Discover(v.copy, BaselinesOf(s, v.copy), second)
    case Watches(v, look) =>
      && v.copy in s.history && (!v.alive ==> IsGone(s, v.copy))
      && v.found == DiscoverOwned(v.copy, BaselinesOf(s, v.copy), look)
    case Launches(next, look) =>
      && IsLaunched(s, next) && (Terminal(next.status) ==> IsGone(s, next))
      && (next.status.Passed? ==> Discover(next, BaselinesOf(s, next), look) == Some(SaysPassed))
    case FailsLaunch(next) => IsLaunched(s, next) && next.status.FailedToStart? && IsGone(s, next)
    case RecordsWatchdog(copy, _) => copy in s.history && copy.status.Running?
    case FailsWatchdog(copy, _, _) => copy in s.history && copy.status.Running?
    case _ => true
  }

  function Stores(s: System, stored: Option<Artifact>): System {
    s.(stored := stored, history := s.history + (if stored.Some? then {stored.value} else {}))
  }

  function Ends(s: System, ends: bool, a: Artifact): System {
    if ends then s.(gone := s.gone + {IdOf(a)}) else s
  }

  function Reads(s: System, look: seq<Candidate>): System {
    s.(seen := s.seen + set c <- look :: c)
  }

  function Happens(s: System, e: SystemEvent): System {
    match e
    case Exits(run) => s.(gone := s.gone + {run})
    case Inspects(v, first, second) =>
      var ended := Ends(s, Inspected(v).Timeout? && !Terminal(v.copy.status), v.copy);
      Reads(Stores(ended, Apply(s.stored, Write(WrittenBy(v)))), first + second)
    case Watches(v, look) =>
      (match Watched(v)
       case Conclude(status) =>
         Reads(Stores(Ends(s, status.Timeout?, v.copy),
                      Apply(s.stored, WatchdogVerdict(v.copy, v.observedAt, status))), look)
       case RecordSighting => Reads(Stores(s, Apply(s.stored, WatchdogSighting(v.copy, v.observedAt))), look)
       case _ => Reads(s, look))
    case Launches(next, look) => Reads(Stores(s, Apply(s.stored, Launch(next))), look)
    case FailsLaunch(next) => Stores(s, Apply(s.stored, FailLaunch(next)))
    case RecordsWatchdog(copy, watchdogPid) =>
      Stores(s, Apply(s.stored, Write(copy.(watchdogPid := Some(watchdogPid)))))
    case FailsWatchdog(copy, terminated, at) =>
      var next := copy.(status := if terminated then FailedToStart else Running,
                        lastObservedAt := Some(at), statusUpdatedAt := at);
      Stores(Ends(s, terminated, copy), Apply(s.stored, Write(next)))
    case Removes => Stores(s, Apply(s.stored, Remove))
  }

  predicate IsSystemRun(s: System, events: seq<SystemEvent>)
    decreases |events|
  {
    events != [] ==> CanHappen(s, events[0]) && IsSystemRun(Happens(s, events[0]), events[1..])
  }

  function Final(s: System, events: seq<SystemEvent>): System
    decreases |events|
  {
    if events == [] then s else Final(Happens(s, events[0]), events[1..])
  }

  /** The artifact's verdict is one its process and its result justify. */
  ghost predicate IsJustified(s: System, a: Artifact) {
    && IsLaunched(s, a)
    && (Terminal(a.status) ==> IsGone(s, a))
    && (a.status.Passed? ==> exists c :: c in s.seen && Earned(a, BaselinesOf(s, a), c))
  }

  ghost predicate AllJustified(s: System) {
    && (s.stored.Some? ==> s.stored.value in s.history)
    && forall a <- s.history :: IsJustified(s, a)
  }

  /** What justified a verdict goes on justifying it. */
  lemma StaysJustified(s: System, t: System, a: Artifact)
    requires IsJustified(s, a) && s.launched == t.launched && s.gone <= t.gone && s.seen <= t.seen
    ensures IsJustified(t, a)
  {
  }

  /** And it justifies the same verdict about the same run, whatever else was changed. */
  lemma JustifiesSameRun(s: System, a: Artifact, b: Artifact)
    requires IsJustified(s, a) && SameRun(a, b) && a.deadlineAt == b.deadlineAt && a.status == b.status
    ensures IsJustified(s, b)
  {
    if a.status.Passed? {
      var c :| c in s.seen && Earned(a, BaselinesOf(s, a), c);
      assert Earned(b, BaselinesOf(s, b), c);
    }
  }

  lemma StoringKeepsJustified(s: System, t: System, next: Artifact)
    requires AllJustified(s) && IsJustified(t, next)
    requires s.launched == t.launched && s.gone <= t.gone && s.seen <= t.seen && t.history == s.history + {next}
    requires t.stored == Some(next)
    ensures AllJustified(t)
  {
    forall a <- t.history ensures IsJustified(t, a) {
      if a != next {
        StaysJustified(s, t, a);
      }
    }
  }

  lemma KeepingKeepsJustified(s: System, t: System)
    requires AllJustified(s)
    requires s.launched == t.launched && s.gone <= t.gone && s.seen <= t.seen && t.history == s.history
    requires t.stored == s.stored || t.stored.None?
    ensures AllJustified(t)
  {
    forall a <- t.history ensures IsJustified(t, a) {
      StaysJustified(s, t, a);
    }
  }

  lemma InspectionIsJustified(s: System, v: View, first: seq<Candidate>, second: seq<Candidate>)
    requires AllJustified(s) && CanHappen(s, Inspects(v, first, second))
    ensures IsJustified(Happens(s, Inspects(v, first, second)), WrittenBy(v))
  {
    var t := Happens(s, Inspects(v, first, second));
    var next := WrittenBy(v);
    StaysJustified(s, t, v.copy);
    if Terminal(v.copy.status) {
      JustifiesSameRun(t, v.copy, next);
    } else if next.status.Passed? {
      PassedVerdictsAreEarned(v, BaselinesOf(s, v.copy), first, second);
      var c :| (c in first || c in second) && Earned(v.copy, BaselinesOf(s, v.copy), c);
      assert c in first + second && c in t.seen && Earned(next, BaselinesOf(t, next), c);
    }
  }

  lemma WatchedVerdictIsJustified(s: System, v: View, look: seq<Candidate>, next: Artifact)
    requires AllJustified(s) && CanHappen(s, Watches(v, look)) && Watched(v).Conclude?
    requires s.stored.Some? && SameRun(s.stored.value, v.copy) && !Terminal(s.stored.value.status)
    requires SameRun(next, s.stored.value) && next.deadlineAt == s.stored.value.deadlineAt
    requires next.status == Watched(v).status
    ensures IsJustified(Happens(s, Watches(v, look)), next)
  {
    var t := Happens(s, Watches(v, look));
    assert IsJustified(s, s.stored.value) && IsJustified(s, v.copy);
    if next.status.Passed? {
      DiscoveredOwnedPassIsEarned(v.copy, BaselinesOf(s, v.copy), look);
      var c :| c in look && Earned(v.copy, BaselinesOf(s, v.copy), c);
      assert c in t.seen && Earned(next, BaselinesOf(t, next), c);
    }
  }

  lemma SystemStepKeepsJustified(s: System, e: SystemEvent)
    requires AllJustified(s) && CanHappen(s, e)
    ensures AllJustified(Happens(s, e))
  {
    var t := Happens(s, e);
    if t.stored == s.stored || t.stored.None? {
      assert t.history == s.history;
      KeepingKeepsJustified(s, t);
    } else {
      var next := t.stored.value;
      NextIsJustified(s, e, next);
      StoringKeepsJustified(s, t, next);
    }
  }

  lemma NextIsJustified(s: System, e: SystemEvent, next: Artifact)
    requires AllJustified(s) && CanHappen(s, e)
    requires Happens(s, e).stored == Some(next) && s.stored != Some(next)
    ensures IsJustified(Happens(s, e), next)
  {
    var t := Happens(s, e);
    match e
    case Inspects(v, first, second) => InspectionIsJustified(s, v, first, second);
    case Watches(v, look) =>
      if Watched(v).Conclude? {
        WatchedVerdictIsJustified(s, v, look, next);
      } else {
        StaysJustified(s, t, s.stored.value);
        JustifiesSameRun(t, s.stored.value, next);
      }
    case Launches(_, look) =>
      if next.status.Passed? {
        DiscoveredPassIsEarned(next, BaselinesOf(s, next), look);
        var c :| c in look && Earned(next, BaselinesOf(s, next), c);
        assert c in t.seen;
      }
    case FailsLaunch(_) =>
    case RecordsWatchdog(copy, _) =>
      StaysJustified(s, t, copy);
      JustifiesSameRun(t, copy, next);
    case FailsWatchdog(copy, _, _) => assert IsJustified(s, copy);
  }

  /** A run counts as gone only once its process exited or its termination was confirmed. */
  lemma GoneIsExactly(s: System, e: SystemEvent, run: RunId)
    requires CanHappen(s, e)
    ensures run in Happens(s, e).gone <==>
      || run in s.gone
      || e == Exits(run)
      || (e.Inspects? && run == RunId(e.v.copy.pid, e.v.copy.startedAt) && e.v.copy.status == Running
          && Inspected(e.v) == Timeout)
      || (e.Watches? && run == RunId(e.v.copy.pid, e.v.copy.startedAt) && Watched(e.v) == Conclude(Timeout))
      || (e.FailsWatchdog? && run == RunId(e.copy.pid, e.copy.startedAt) && e.terminated)
    ensures CanHappen(s, Exits(run)) && CanHappen(s, Removes)
  {
  }

  /** When the watchdog cannot be started, the run has failed to start if it could be terminated. */
  lemma WatchdogFailureIsExactly(s: System, copy: Artifact, terminated: bool, at: Stamp)
    requires CanHappen(s, FailsWatchdog(copy, terminated, at)) && s.stored == Some(copy)
    ensures terminated ==>
      var stored := Happens(s, FailsWatchdog(copy, terminated, at)).stored;
      && stored.Some? && stored.value.status == FailedToStart
      && stored.value.lastObservedAt == Some(at) && stored.value.statusUpdatedAt == at
      && stored.value.pid == copy.pid && stored.value.startedAt == copy.startedAt
      && stored.value.deadlineAt == copy.deadlineAt && stored.value.resultObservedAt == copy.resultObservedAt
    ensures !terminated ==>
      Happens(s, FailsWatchdog(copy, terminated, at)).stored ==
      Apply(s.stored, Write(copy.(lastObservedAt := Some(at), statusUpdatedAt := at)))
  {
  }

  /** What is stored after a watchdog's look, or an inspector's, at the run that is stored. */
  lemma LooksAreStored(s: System, e: SystemEvent, stored: Artifact)
    requires CanHappen(s, e) && s.stored == Some(stored) && stored.status == Running
    ensures e.Watches? && stored.pid == e.v.copy.pid && stored.startedAt == e.v.copy.startedAt ==>
      && Happens(s, e).stored.Some?
      && (Watched(e.v).Conclude? ==> Happens(s, e).stored.value.status == Watched(e.v).status)
      && (!Watched(e.v).Conclude? ==> Happens(s, e).stored.value.status == Running)
    ensures e.Inspects? && stored == e.v.copy && e.v.observedAt.At?
            && (stored.lastObservedAt.Some? && stored.lastObservedAt.value.At? && stored.lastObservedAt.value.ms < e.v.observedAt.ms) ==>
      Happens(s, e).stored == Some(WrittenBy(e.v))
  {
  }

  /** In every run of the system a stored terminal verdict belongs to a process that is gone, and a
      stored pass, whoever wrote it, came from a result file that earned it. */
  lemma {:induction false} StoredVerdictsAreJustified(s: System, events: seq<SystemEvent>)
    requires AllJustified(s) && IsSystemRun(s, events)
    ensures AllJustified(Final(s, events))
    ensures var t := Final(s, events);
      t.stored.Some? ==>
        && (t.stored.value.status != Running ==>
              t.stored.value.pid == 0 || RunId(t.stored.value.pid, t.stored.value.startedAt) in t.gone)
        && (t.stored.value.status.Passed? ==>
              exists c :: c in t.seen && PassesInTime(t.stored.value, BaselinesOf(t, t.stored.value), c))
    decreases |events|
  {
    if events == [] {
      if s.stored.Some? && s.stored.value.status.Passed? {
        var c :| c in s.seen && Earned(s.stored.value, BaselinesOf(s, s.stored.value), c);
        EarnedPassesInTime(s.stored.value, BaselinesOf(s, s.stored.value), c);
      }
    } else {
      SystemStepKeepsJustified(s, events[0]);
      hide AllJustified, CanHappen, Happens;
      StoredVerdictsAreJustified(Happens(s, events[0]), events[1..]);
    }
  }

  /** The system starts with nothing stored, so this holds of all its runs. */
  lemma FromTheBeginning(launched: RunId -> Conditions)
    ensures AllJustified(System(None, {}, {}, {}, launched))
  {
  }
}
