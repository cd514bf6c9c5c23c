/** What the assumption about the takeover guard is worth.

    The mutual exclusion of module LockProtocol is proved for runs in which no newer guard is
    taken aside for a stale one, as none is while no process dies inside the guard. Here a
    single process does, and at the end of the run two live processes are both inside the lock. */
module LockProtocolLimits {
  import opened LockProtocol

  const O := Process(1, 0)
  const X := Process(2, 0)
  const A := Process(3, 0)
  const B := Process(4, 0)
  const C := Process(5, 0)

  /** How many processes die inside the guard. */
  ghost function GuardDeaths(s: State, events: seq<Event>): nat
    requires IsRun(s, events)
    decreases |events|
  {
    if events == [] then 0
    else (if SparesGuard(s, events[0]) then 0 else 1) + GuardDeaths(Fire(s, events[0]), events[1..])
  }

  lemma {:induction false} GuardDeathsAddUp(s: State, events: seq<Event>, e: Event)
    requires IsRun(s, events) && CanFire(After(s, events), e) && IsRun(s, events + [e])
    ensures GuardDeaths(s, events + [e]) == GuardDeaths(s, events) + if SparesGuard(After(s, events), e) then 0 else 1
    decreases |events|
  {
    hide Fire, SparesGuard;
    if events != [] {
      assert (events + [e])[1..] == events[1..] + [e];
      GuardDeathsAddUp(Fire(s, events[0]), events[1..], e);
    } else {
      assert (events + [e])[1..] == [] && (events + [e])[0] == e;
    }
  }

  ghost predicate Reaches(events: seq<Event>, s: State, deaths: nat) {
    IsRun(EMPTY, events) && After(EMPTY, events) == s && GuardDeaths(EMPTY, events) == deaths
  }

  lemma Do(events: seq<Event>, s: State, deaths: nat, e: Event) returns (longer: seq<Event>, next: State)
    requires Reaches(events, s, deaths) && CanFire(s, e) && SparesGuard(s, e)
    ensures Reaches(longer, next, deaths) && next == Fire(s, e)
  {
    RunExtends(EMPTY, events, e);
    GuardDeathsAddUp(EMPTY, events, e);
    return events + [e], Fire(s, e);
  }

  lemma DieInGuard(events: seq<Event>, s: State, deaths: nat, p: Process) returns (longer: seq<Event>, next: State)
    requires Reaches(events, s, deaths) && p in s.running && Holds(s.running[p], Guard)
    ensures Reaches(longer, next, deaths + 1) && next == Fire(s, Crash(p))
  {
    RunExtends(EMPTY, events, Crash(p));
    GuardDeathsAddUp(EMPTY, events, Crash(p));
    return events + [Crash(p)], Fire(s, Crash(p));
  }

  /** Reads a dead owner's file, judges it, reads it again. */
  lemma ConfirmStale(events: seq<Event>, s: State, deaths: nat, p: Process) returns (longer: seq<Event>, next: State)
    requires Reaches(events, s, deaths) && p in s.running && s.running[p].Look?
    requires s.running[p].target in s.disk && s.disk[s.running[p].target].owner !in s.running
    ensures Reaches(longer, next, deaths)
    ensures var pc := s.running[p];
      next == Goto(s, p, Displace(pc.target, pc.task, s.disk[pc.target]))
  {
    hide Reaches;
    longer, next := Do(events, s, deaths, Call(p, true, 0));
    longer, next := Do(longer, next, deaths, Call(p, true, 0));
    longer, next := Do(longer, next, deaths, Call(p, true, 0));
  }

  /** Renames the file just confirmed, compares it, removes it. */
  lemma RemoveStale(events: seq<Event>, s: State, deaths: nat, p: Process) returns (longer: seq<Event>, next: State)
    requires Reaches(events, s, deaths) && p in s.running && s.running[p].Displace?
    requires s.running[p].target in s.disk && s.disk[s.running[p].target] == s.running[p].snapshot
    ensures Reaches(longer, next, deaths)
    ensures var pc := s.running[p];
      next == Goto(s.(disk := s.disk - {pc.target}), p, AfterReclaim(pc.target, pc.task))
  {
    hide Reaches;
    longer, next := Do(events, s, deaths, Call(p, true, 0));
    longer, next := Do(longer, next, deaths, Call(p, true, 0));
    longer, next := Do(longer, next, deaths, Call(p, true, 0));
  }

  /** Finds the mutex taken and takes the guard. */
  lemma EnterGuard(events: seq<Event>, s: State, deaths: nat, p: Process, task: Task)
    returns (longer: seq<Event>, next: State)
    requires Reaches(events, s, deaths) && p in s.running && s.running[p].Idle?
    requires Mutex in s.disk && Guard !in s.disk
    ensures Reaches(longer, next, deaths)
    ensures next == Goto(s.(disk := s.disk[Guard := File(0, p, s.nextToken)], nextToken := s.nextToken + 1),
                         p, Look(Mutex, task))
  {
    hide Reaches;
    longer, next := Do(events, s, deaths, Start(p, task));
    longer, next := Do(longer, next, deaths, Call(p, true, 0));
    longer, next := Do(longer, next, deaths, Call(p, true, 0));
  }

  /** Finds the mutex and the guard taken. */
  lemma FindGuard(events: seq<Event>, s: State, deaths: nat, p: Process, task: Task)
    returns (longer: seq<Event>, next: State)
    requires Reaches(events, s, deaths) && p in s.running && s.running[p].Idle?
    requires Mutex in s.disk && Guard in s.disk
    ensures Reaches(longer, next, deaths)
    ensures next == Goto(s, p, Look(Guard, task))
  {
    hide Reaches;
    longer, next := Do(events, s, deaths, Start(p, task));
    longer, next := Do(longer, next, deaths, Call(p, true, 0));
    longer, next := Do(longer, next, deaths, Call(p, true, 0));
  }

  /** Takes the mutex and in it the lock. */
  lemma TakeLock(events: seq<Event>, s: State, deaths: nat, p: Process) returns (longer: seq<Event>, next: State)
    requires Reaches(events, s, deaths) && p in s.running && s.running[p] == ClaimMutex(Claim)
    requires Mutex !in s.disk && Lock !in s.disk
    ensures Reaches(longer, next, deaths)
    ensures next == Goto(
      s.(disk := s.disk[Mutex := File(0, p, s.nextToken)][Lock := File(0, p, s.nextToken + 1)],
         nextToken := s.nextToken + 2), p, CheckMutex(true))
  {
    hide Reaches;
    longer, next := Do(events, s, deaths, Call(p, true, 0));
    longer, next := Do(longer, next, deaths, Call(p, true, 0));
  }

  lemma LeaveMutex(events: seq<Event>, s: State, deaths: nat, p: Process, acquired: bool)
    returns (longer: seq<Event>, next: State)
    requires Reaches(events, s, deaths) && p in s.running && s.running[p] == CheckMutex(acquired)
    requires Mutex in s.disk && s.disk[Mutex].owner == p
    ensures Reaches(longer, next, deaths)
    ensures next == Goto(s.(disk := s.disk - {Mutex}), p, AfterMutex(acquired))
  {
    hide Reaches;
    longer, next := Do(events, s, deaths, Call(p, true, 0));
    longer, next := Do(longer, next, deaths, Call(p, true, 0));
  }

  /** Took aside another file than it read, and finds the path taken again: it cannot put it back. */
  lemma KeepAside(events: seq<Event>, s: State, deaths: nat, p: Process) returns (longer: seq<Event>, next: State)
    requires Reaches(events, s, deaths) && p in s.running && s.running[p].Compare?
    requires s.running[p].aside != s.running[p].snapshot && s.running[p].target in s.disk
    ensures Reaches(longer, next, deaths)
    ensures next == Goto(s, p, AfterReclaim(s.running[p].target, s.running[p].task))
  {
    hide Reaches;
    longer, next := Do(events, s, deaths, Call(p, true, 0));
    longer, next := Do(longer, next, deaths, Call(p, true, 0));
  }

  lemma LeaveGuard(events: seq<Event>, s: State, deaths: nat, p: Process) returns (longer: seq<Event>, next: State)
    requires Reaches(events, s, deaths) && p in s.running && s.running[p].CheckGuard?
    requires Guard in s.disk && s.disk[Guard].owner == p
    ensures Reaches(longer, next, deaths)
    ensures next == Goto(s.(disk := s.disk - {Guard}), p, ClaimMutex(s.running[p].task))
  {
    hide Reaches;
    longer, next := Do(events, s, deaths, Call(p, true, 0));
    longer, next := Do(longer, next, deaths, Call(p, true, 0));
  }

  // The states between the phases of the run

  const MUTEX_OF_O := File(0, O, 0)
  const LOCK_OF_O := File(0, O, 1)
  const GUARD_OF_X := File(0, X, 2)
  const GUARD_OF_A := File(0, A, 3)
  const GUARD_OF_C := File(0, C, 4)
  const MUTEX_OF_A := File(0, A, 5)
  const MUTEX_OF_B := File(0, B, 6)

  const SPAWNED := State(map[], map[O := Idle, X := Idle, A := Idle, B := Idle, C := Idle], {}, 0)
  const MUTEX_LOST := State(
    map[Mutex := MUTEX_OF_O, Lock := LOCK_OF_O], map[X := Idle, A := Idle, B := Idle, C := Idle], {O}, 2)
  const STALE := State(
    map[Mutex := MUTEX_OF_O, Lock := LOCK_OF_O, Guard := GUARD_OF_X],
    map[A := Idle, B := Idle, C := Idle], {O, X}, 3)
  const GUARD_CONFIRMED := STALE.(running := map[
    A := Displace(Guard, Reclaim, GUARD_OF_X), B := Displace(Guard, Reclaim, GUARD_OF_X), C := Idle])
  const GUARD_TAKEN := State(
    map[Mutex := MUTEX_OF_O, Lock := LOCK_OF_O, Guard := GUARD_OF_A],
    map[A := Look(Mutex, Reclaim), B := Displace(Guard, Reclaim, GUARD_OF_X), C := Idle], {O, X}, 4)
  const GUARD_DISPLACED := State(
    map[Mutex := MUTEX_OF_O, Lock := LOCK_OF_O],
    map[A := Look(Mutex, Reclaim), B := Compare(Guard, Reclaim, GUARD_OF_X, GUARD_OF_A), C := Idle], {O, X}, 4)
  const GUARD_SHARED := State(
    map[Mutex := MUTEX_OF_O, Lock := LOCK_OF_O, Guard := GUARD_OF_C],
    map[A := Look(Mutex, Reclaim), B := ClaimMutex(Reclaim), C := Look(Mutex, Claim)], {O, X}, 5)
  const MUTEX_FREE := State(
    map[Lock := LOCK_OF_O, Guard := GUARD_OF_C],
    map[A := CheckGuard(Reclaim), B := ClaimMutex(Reclaim), C := Displace(Mutex, Claim, MUTEX_OF_O)], {O, X}, 5)
  const MUTEX_BROKEN := State(
    map[Lock := LOCK_OF_O, Guard := GUARD_OF_C, Mutex := MUTEX_OF_A],
    map[A := Look(Lock, Reclaim), B := ClaimMutex(Reclaim), C := Displace(Mutex, Claim, MUTEX_OF_O)], {O, X}, 6)
  const MUTEX_SHARED := State(
    map[Lock := LOCK_OF_O, Guard := GUARD_OF_C, Mutex := MUTEX_OF_B],
    map[A := Displace(Lock, Reclaim, LOCK_OF_O), B := Look(Lock, Reclaim), C := Compare(Mutex, Claim, MUTEX_OF_O, MUTEX_OF_A)],
    {O, X}, 7)
  const GUARD_LEFT := State(
    map[Lock := LOCK_OF_O, Mutex := MUTEX_OF_B],
    map[A := Displace(Lock, Reclaim, LOCK_OF_O), B := Look(Lock, Reclaim), C := ClaimMutex(Claim)], {O, X}, 7)
  const LOCK_RECLAIMED := State(
    map[], map[A := Displace(Lock, Reclaim, LOCK_OF_O), B := Idle, C := ClaimMutex(Claim)], {O, X}, 7)
  const LOCK_HELD := State(
    map[Lock := File(0, B, 8)], map[A := Displace(Lock, Reclaim, LOCK_OF_O), B := Critical, C := ClaimMutex(Claim)],
    {O, X}, 9)

  lemma ReachSpawned() returns (events: seq<Event>)
    ensures Reaches(events, SPAWNED, 0)
  {
    var s := EMPTY;
    events := [];
    assert Reaches(events, s, 0);
    hide Reaches;
    events, s := Do(events, s, 0, Spawn(O));
    events, s := Do(events, s, 0, Spawn(X));
    events, s := Do(events, s, 0, Spawn(A));
    events, s := Do(events, s, 0, Spawn(B));
    events, s := Do(events, s, 0, Spawn(C));
    assert s == SPAWNED;
  }

  /** `O` dies holding the lock and its mutex. */
  lemma ReachMutexLost(prefix: seq<Event>) returns (events: seq<Event>)
    requires Reaches(prefix, SPAWNED, 0)
    ensures Reaches(events, MUTEX_LOST, 0)
  {
    hide Reaches;
    var s := SPAWNED;
    events, s := Do(prefix, s, 0, Start(O, Claim));
    events, s := TakeLock(events, s, 0, O);
    events, s := Do(events, s, 0, Crash(O));
    assert s.running == MUTEX_LOST.running;
    assert s == MUTEX_LOST;
  }

  /** `X` dies inside the takeover guard. */
  lemma ReachStale(prefix: seq<Event>) returns (events: seq<Event>)
    requires Reaches(prefix, MUTEX_LOST, 0)
    ensures Reaches(events, STALE, 1)
  {
    hide Reaches;
    var s := MUTEX_LOST;
    events, s := EnterGuard(prefix, s, 0, X, Claim);
    events, s := DieInGuard(events, s, 0, X);
    assert s.running == STALE.running;
    assert s == STALE;
  }

  /** `A` and `B` both confirm that the guard is stale. */
  lemma ReachGuardConfirmed(prefix: seq<Event>) returns (events: seq<Event>)
    requires Reaches(prefix, STALE, 1)
    ensures Reaches(events, GUARD_CONFIRMED, 1)
  {
    hide Reaches;
    var s := STALE;
    events, s := FindGuard(prefix, s, 1, A, Reclaim);
    events, s := ConfirmStale(events, s, 1, A);
    events, s := FindGuard(events, s, 1, B, Reclaim);
    events, s := ConfirmStale(events, s, 1, B);
    assert s == GUARD_CONFIRMED;
  }

  /** `A` breaks it and takes the guard. */
  lemma ReachGuardTaken(prefix: seq<Event>) returns (events: seq<Event>)
    requires Reaches(prefix, GUARD_CONFIRMED, 1)
    ensures Reaches(events, GUARD_TAKEN, 1)
  {
    hide Reaches;
    var s := GUARD_CONFIRMED;
    events, s := RemoveStale(prefix, s, 1, A);
    events, s := Do(events, s, 1, Call(A, true, 0));
    assert s == GUARD_TAKEN;
  }

  /** `B`, still acting on the old file, displaces the live one. */
  lemma ReachGuardDisplaced(prefix: seq<Event>) returns (events: seq<Event>)
    requires Reaches(prefix, GUARD_TAKEN, 1)
    ensures Reaches(events, GUARD_DISPLACED, 1)
  {
    hide Reaches;
    var s := GUARD_TAKEN;
    events, s := Do(prefix, s, 1, Call(B, true, 0));
    assert s == GUARD_DISPLACED;
  }

  /** `C` takes the guard too, so `B` cannot put the file back. */
  lemma ReachGuardShared(prefix: seq<Event>) returns (events: seq<Event>)
    requires Reaches(prefix, GUARD_DISPLACED, 1)
    ensures Reaches(events, GUARD_SHARED, 1)
  {
    hide Reaches;
    var s := GUARD_DISPLACED;
    events, s := EnterGuard(prefix, s, 1, C, Claim);
    events, s := KeepAside(events, s, 1, B);
    events, s := Do(events, s, 1, Call(B, true, 0));
    assert s == GUARD_SHARED;
  }

  /** `A` and `C` both confirm the stale mutex; `A` breaks it. */
  lemma ReachMutexFree(prefix: seq<Event>) returns (events: seq<Event>)
    requires Reaches(prefix, GUARD_SHARED, 1)
    ensures Reaches(events, MUTEX_FREE, 1)
  {
    hide Reaches;
    var s := GUARD_SHARED;
    events, s := ConfirmStale(prefix, s, 1, A);
    events, s := ConfirmStale(events, s, 1, C);
    events, s := RemoveStale(events, s, 1, A);
    assert s == MUTEX_FREE;
  }

  /** `A` passes by the guard, which is no longer its own, and takes the mutex. */
  lemma ReachMutexBroken(prefix: seq<Event>) returns (events: seq<Event>)
    requires Reaches(prefix, MUTEX_FREE, 1)
    ensures Reaches(events, MUTEX_BROKEN, 1)
  {
    hide Reaches;
    var s := MUTEX_FREE;
    events, s := Do(prefix, s, 1, Call(A, true, 0));
    events, s := Do(events, s, 1, Call(A, true, 0));
    assert s == MUTEX_BROKEN;
  }

  /** `A` confirms the stale lock; `C` displaces `A`'s live mutex and `B` takes it too. */
  lemma ReachMutexShared(prefix: seq<Event>) returns (events: seq<Event>)
    requires Reaches(prefix, MUTEX_BROKEN, 1)
    ensures Reaches(events, MUTEX_SHARED, 1)
  {
    hide Reaches;
    var s := MUTEX_BROKEN;
    events, s := ConfirmStale(prefix, s, 1, A);
    events, s := Do(events, s, 1, Call(C, true, 0));
    events, s := Do(events, s, 1, Call(B, true, 0));
    assert s == MUTEX_SHARED;
  }

  /** `C` leaves the guard. */
  lemma ReachGuardLeft(prefix: seq<Event>) returns (events: seq<Event>)
    requires Reaches(prefix, MUTEX_SHARED, 1)
    ensures Reaches(events, GUARD_LEFT, 1)
  {
    hide Reaches;
    var s := MUTEX_SHARED;
    events, s := KeepAside(prefix, s, 1, C);
    events, s := LeaveGuard(events, s, 1, C);
    assert s == GUARD_LEFT;
  }

  /** `B` reclaims the lock and leaves. */
  lemma ReachLockReclaimed(prefix: seq<Event>) returns (events: seq<Event>)
    requires Reaches(prefix, GUARD_LEFT, 1)
    ensures Reaches(events, LOCK_RECLAIMED, 1)
  {
    hide Reaches;
    var s := GUARD_LEFT;
    events, s := ConfirmStale(prefix, s, 1, B);
    events, s := RemoveStale(events, s, 1, B);
    events, s := LeaveMutex(events, s, 1, B, false);
    assert s == LOCK_RECLAIMED;
  }

  /** `B` claims the lock. */
  lemma ReachLockHeld(prefix: seq<Event>) returns (events: seq<Event>)
    requires Reaches(prefix, LOCK_RECLAIMED, 1)
    ensures Reaches(events, LOCK_HELD, 1)
  {
    hide Reaches;
    var s := LOCK_RECLAIMED;
    events, s := Do(prefix, s, 1, Start(B, Claim));
    events, s := TakeLock(events, s, 1, B);
    events, s := LeaveMutex(events, s, 1, B, true);
    assert s.disk == LOCK_HELD.disk;
    assert s == LOCK_HELD;
  }

  /** `A`, acting on the old file, displaces `B`'s live lock; `C` claims the lock as well. */
  lemma ReachLockShared(prefix: seq<Event>) returns (events: seq<Event>, s: State)
    requires Reaches(prefix, LOCK_HELD, 1)
    ensures Reaches(events, s, 1)
    ensures B in s.running && s.running[B].Critical? && C in s.running && s.running[C].Critical?
  {
    hide Reaches;
    s := LOCK_HELD;
    events, s := Do(prefix, s, 1, Call(A, true, 0));
    events, s := TakeLock(events, s, 1, C);
    events, s := LeaveMutex(events, s, 1, C, true);
  }

  /** One death inside the guard, and no more, is enough to let two live processes hold the lock;
      so the assumption cannot simply be dropped. */
  lemma GuardDeathBreaksExclusion() returns (events: seq<Event>)
    ensures IsRun(EMPTY, events) && GuardDeaths(EMPTY, events) == 1 && !IsSoundRun(EMPTY, events)
    ensures B != C
    ensures B in After(EMPTY, events).running && After(EMPTY, events).running[B].Critical?
    ensures C in After(EMPTY, events).running && After(EMPTY, events).running[C].Critical?
  {
    var s: State;
    events := ReachSpawned();
    events := ReachMutexLost(events);
    events := ReachStale(events);
    events := ReachGuardConfirmed(events);
    events := ReachGuardTaken(events);
    events := ReachGuardDisplaced(events);
    events := ReachGuardShared(events);
    events := ReachMutexFree(events);
    events := ReachMutexBroken(events);
    events := ReachMutexShared(events);
    events := ReachGuardLeft(events);
    events := ReachLockReclaimed(events);
    events := ReachLockHeld(events);
    events, s := ReachLockShared(events);
    if IsSoundRun(EMPTY, events) {
      MutualExclusion(events, B, C, Lock);
      assert false;
    }
  }

  const MUTEX_STALE := State(map[Mutex := MUTEX_OF_O], map[X := Idle, A := Idle, B := Idle, C := Idle], {O}, 1)

  /** `O` dies holding only the mutex. */
  lemma ReachMutexStale(prefix: seq<Event>) returns (events: seq<Event>)
    requires Reaches(prefix, SPAWNED, 0)
    ensures Reaches(events, MUTEX_STALE, 0)
  {
    hide Reaches;
    var s := SPAWNED;
    events, s := Do(prefix, s, 0, Start(O, Claim));
    events, s := Do(events, s, 0, Call(O, true, 0));
    events, s := Do(events, s, 0, Crash(O));
    assert s.running == MUTEX_STALE.running;
    assert s == MUTEX_STALE;
  }

  lemma ReachGuardStranded(prefix: seq<Event>) returns (events: seq<Event>, s: State)
    requires Reaches(prefix, MUTEX_STALE, 0)
    ensures Reaches(events, s, 1)
    ensures Guard in s.disk && s.disk[Guard].owner in s.dead && Mutex !in s.disk && Lock !in s.disk
  {
    hide Reaches;
    s := MUTEX_STALE;
    events, s := EnterGuard(prefix, s, 0, X, Claim);
    events, s := ConfirmStale(events, s, 0, X);
    events, s := RemoveStale(events, s, 0, X);
    events, s := DieInGuard(events, s, 0, X);
  }

  /** A process that dies in the guard after breaking the mutex leaves a guard that module
      LockRecovery's contender never clears: recovery from here leaves that file behind. */
  lemma StrandedGuardIsReachable() returns (events: seq<Event>)
    ensures IsRun(EMPTY, events) && GuardDeaths(EMPTY, events) == 1
    ensures var s := After(EMPTY, events);
      Guard in s.disk && s.disk[Guard].owner in s.dead && Mutex !in s.disk && Lock !in s.disk
  {
    var s: State;
    events := ReachSpawned();
    events := ReachMutexStale(events);
    events, s := ReachGuardStranded(events);
  }
}
