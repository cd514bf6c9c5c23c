/** The artifact behind its lock. A process reads the stored artifact and writes it back in two
    steps, both while it holds the write lock; the calls of every other process come in between.
    What is stored is nevertheless always what single, undivided writes would have stored. */
module LockedArtifact {
  import opened Wrappers
  import opened LockProtocol
  import Stored = DetachedArtifact

  /** The lock, the artifact, and what the processes inside the lock have read of it. */
  datatype System = System(
    lock: State, stored: Option<Stored.Artifact>, read: map<Process, Option<Stored.Artifact>>)

  datatype Step =
    | Locking(e: Event)
    | Reads(p: Process)
    | Writes(p: Process, write: Stored.Event)   // decided from what `p` has read

  ghost predicate IsInside(s: System, p: Process) {
    p in s.lock.running && s.lock.running[p].Critical?
  }

  ghost predicate CanTake(s: System, step: Step) {
    match step
    case Locking(e) => CanFire(s.lock, e) && TakesGuardItRead(s.lock, e)
    case Reads(p) => IsInside(s, p)
    case Writes(p, _) => IsInside(s, p) && p in s.read
  }

  /** A process that leaves the section, or dies in it, takes what it has read along. */
  function Take(s: System, step: Step): System
    requires step.Locking? && step.e.Call? ==> step.e.p in s.lock.running
    requires step.Writes? ==> step.p in s.read
  {
    match step
    case Locking(e) => s.(lock := Fire(s.lock, e), read := s.read - {e.p})
    case Reads(p) => s.(read := s.read[p := s.stored])
    case Writes(p, write) => s.(stored := Stored.Apply(s.read[p], write), read := s.read - {p})
  }

  /** What each step does: a call of the lock protocol is just that and ends the caller's section; a
      read takes what is stored, a write stores what it makes of what was read. */
  lemma StepsAreExactly(s: System, step: Step)
    requires CanTake(s, step)
    ensures step.Locking? ==>
      && Take(s, step).lock == Fire(s.lock, step.e) && Take(s, step).stored == s.stored
      && step.e.p !in Take(s, step).read
    ensures step.Reads? ==>
      && Take(s, step).lock == s.lock && Take(s, step).stored == s.stored
      && step.p in Take(s, step).read && Take(s, step).read[step.p] == s.stored
    ensures step.Writes? ==>
      && Take(s, step).lock == s.lock && Take(s, step).stored == Stored.Apply(s.read[step.p], step.write)
      && step.p !in Take(s, step).read
    ensures step.Reads? || step.Writes? ==> step.p in s.lock.running && s.lock.running[step.p] == Critical
  {
  }

  ghost predicate IsHistory(s: System, steps: seq<Step>)
    decreases |steps|
  {
    steps != [] ==> CanTake(s, steps[0]) && IsHistory(Take(s, steps[0]), steps[1..])
  }

  ghost function Final(s: System, steps: seq<Step>): System
    requires IsHistory(s, steps)
    decreases |steps|
  {
    if steps == [] then s else Final(Take(s, steps[0]), steps[1..])
  }

  function WritesOf(steps: seq<Step>): seq<Stored.Event> {
    if steps == [] then []
    else (if steps[0].Writes? then [steps[0].write] else []) + WritesOf(steps[1..])
  }

  // ---------------------------------------------------------------------------

  /** Whoever has read the artifact is inside the lock, and nothing was written since. */
  ghost predicate ReadsAreCurrent(s: System) {
    forall p <- s.read :: IsInside(s, p) && s.read[p] == s.stored
  }

  lemma OnlyOneInside(s: System, p: Process, q: Process)
    requires Inv(s.lock) && IsInside(s, p) && IsInside(s, q)
    ensures p == q
  {
    HolderOwns(s.lock, p, Lock);
    HolderOwns(s.lock, q, Lock);
  }

  lemma StepKeepsReadsCurrent(s: System, step: Step)
    requires Inv(s.lock) && ReadsAreCurrent(s) && CanTake(s, step)
    ensures Inv(Take(s, step).lock) && ReadsAreCurrent(Take(s, step))
  {
    hide Inv, Fire;
    match step
    case Locking(e) =>
      InvStep(s.lock, e);
      forall q <- s.read | q != e.p ensures IsInside(Take(s, step), q) {
        OthersStayPut(s.lock, e, q);
      }
    case Reads(p) =>
    case Writes(p, _) =>
      forall q <- s.read ensures q == p {
        OnlyOneInside(s, p, q);
      }
  }

  /** A write decided from a reading in the same section is a write to what is stored. */
  lemma {:induction false} SectionsAreUndivided(s: System, steps: seq<Step>)
    requires Inv(s.lock) && ReadsAreCurrent(s) && IsHistory(s, steps)
    ensures Inv(Final(s, steps).lock) && ReadsAreCurrent(Final(s, steps))
    ensures Final(s, steps).stored == Stored.ApplyAll(s.stored, WritesOf(steps))
    decreases |steps|
  {
    hide Inv, ReadsAreCurrent, Fire, Stored.Apply;
    if steps != [] {
      var next := Take(s, steps[0]);
      StepKeepsReadsCurrent(s, steps[0]);
      SectionsAreUndivided(next, steps[1..]);
      if steps[0].Writes? {
        ReadingIsCurrent(s, steps[0].p);
        assert WritesOf(steps)[1..] == WritesOf(steps[1..]);
      } else {
        assert WritesOf(steps) == WritesOf(steps[1..]);
      }
    }
  }

  lemma ReadingIsCurrent(s: System, p: Process)
    requires ReadsAreCurrent(s) && p in s.read
    ensures s.read[p] == s.stored
  {
  }

  /** From the beginning on: the interleaved history stores what its writes store one after the
      other, so whatever holds of every sequence of writes holds of it. */
  lemma HistoriesAreSequences(steps: seq<Step>)
    requires IsHistory(System(EMPTY, None, map[]), steps)
    ensures Final(System(EMPTY, None, map[]), steps).stored == Stored.ApplyAll(None, WritesOf(steps))
  {
    SectionsAreUndivided(System(EMPTY, None, map[]), steps);
  }
}
