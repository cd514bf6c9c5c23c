/** Recovery from crashes: one contender running alone over whatever lock files crashed
    processes left behind. The loops and calls are those of the source, in its order. Every
    call made is one of module LockProtocol's, so what a contender does is a run of that protocol. */
module LockRecovery {
  import opened LockProtocol

  /** The mutex can be entered: it is free, or stale and so is whatever guards its takeover. */
  predicate Enterable(files: map<Path, File>, dead: set<Process>) {
    Mutex !in files || (files[Mutex].owner in dead && Claimable(files, dead, Guard))
  }

  predicate Claimable(files: map<Path, File>, dead: set<Process>, path: Path) {
    path in files ==> files[path].owner in dead
  }

  function WithoutStale(files: map<Path, File>, dead: set<Process>, path: Path): map<Path, File> {
    if Claimable(files, dead, path) then files - {path} else files
  }

  /** What entering the mutex does to the other two files. */
  predicate OnlyGuardCleared(before: map<Path, File>, after: map<Path, File>) {
    && (Lock in after <==> Lock in before)
    && (Lock in before ==> after[Lock] == before[Lock])
    && (Guard in after <==> Guard in before && Mutex !in before)
  }

  // ---------------------------------------------------------------------------
  // The calls of one process on its own, as a run of the protocol

  ghost predicate Leads(start: State, calls: seq<Event>, s: State) {
    IsRun(start, calls) && After(start, calls) == s
  }

  lemma Then(start: State, calls: seq<Event>, s: State, e: Event) returns (longer: seq<Event>)
    requires Leads(start, calls, s) && CanFire(s, e)
    ensures Leads(start, longer, Fire(s, e))
  {
    RunExtends(start, calls, e);
    return calls + [e];
  }

  function Alone(files: map<Path, File>, me: Process, pc: PC, dead: set<Process>, nextToken: nat): State {
    State(files, map[me := pc], dead, nextToken)
  }

  /** Where winning or losing a claim leads. */
  function Claimed(pc: PC, won: bool): PC {
    match pc
    case ClaimMutex(task) => if !won then ClaimGuard(task) else if task.Claim? then ClaimLock else Look(Lock, task)
    case ClaimGuard(task) => if won then Look(Mutex, task) else Look(Guard, task)
    case ClaimGuardAgain(task) => if won then Look(Mutex, task) else ClaimMutex(task)
    case _ => CheckMutex(won)
  }

  predicate Claims(pc: PC, path: Path) {
    match path
    case Mutex => pc.ClaimMutex?
    case Guard => pc.ClaimGuard? || pc.ClaimGuardAgain?
    case Lock => pc.ClaimLock?
  }

  /** Where a release leads. */
  function Released(pc: PC): PC {
    match pc
    case CheckGuard(task) => ClaimMutex(task)
    case CheckMutex(acquired) => AfterMutex(acquired)
    case _ => Idle
  }

  function Removal(pc: PC): PC {
    match pc
    case CheckGuard(task) => RemoveGuard(task)
    case CheckMutex(acquired) => RemoveMutex(acquired)
    case _ => RemoveLock
  }

  predicate Releases(pc: PC, path: Path) {
    match path
    case Mutex => pc.CheckMutex?
    case Guard => pc.CheckGuard?
    case Lock => pc.CheckLock?
  }

  lemma LinkAlone(start: State, calls: seq<Event>, files: map<Path, File>, me: Process, pc: PC,
                  dead: set<Process>, nextToken: nat, path: Path) returns (longer: seq<Event>)
    requires Leads(start, calls, Alone(files, me, pc, dead, nextToken)) && Claims(pc, path)
    ensures Leads(start, longer,
                  if path in files then Alone(files, me, Claimed(pc, false), dead, nextToken)
                  else Alone(files[path := File(0, me, nextToken)], me, Claimed(pc, true), dead, nextToken + 1))
  {
    hide Leads;
    longer := Then(start, calls, Alone(files, me, pc, dead, nextToken), Call(me, false, 0));
    assert map[me := pc][me := Claimed(pc, path !in files)] == map[me := Claimed(pc, path !in files)];
  }

  lemma ReleaseAlone(start: State, calls: seq<Event>, files: map<Path, File>, me: Process, pc: PC,
                     dead: set<Process>, nextToken: nat, path: Path) returns (longer: seq<Event>)
    requires Leads(start, calls, Alone(files, me, pc, dead, nextToken)) && Releases(pc, path)
    ensures Leads(start, longer,
                  Alone(if path in files && files[path].owner.pid == me.pid then files - {path} else files,
                        me, Released(pc), dead, nextToken))
  {
    hide Leads;
    if path in files && files[path].owner.pid == me.pid {
      var remove := Removal(pc);
      longer := StepAlone(start, calls, files, me, pc, dead, nextToken, Call(me, false, 0), remove);
      longer := Then(start, longer, Alone(files, me, remove, dead, nextToken), Call(me, false, 0));
      assert map[me := remove][me := Released(pc)] == map[me := Released(pc)];
    } else {
      longer := StepAlone(start, calls, files, me, pc, dead, nextToken, Call(me, false, 0), Released(pc));
    }
  }

  /** A move that leaves the files alone. */
  lemma StepAlone(start: State, calls: seq<Event>, files: map<Path, File>, me: Process, pc: PC,
                  dead: set<Process>, nextToken: nat, e: Event, next: PC) returns (longer: seq<Event>)
    requires Leads(start, calls, Alone(files, me, pc, dead, nextToken))
    requires CanFire(Alone(files, me, pc, dead, nextToken), e)
    requires Fire(Alone(files, me, pc, dead, nextToken), e) == Goto(Alone(files, me, pc, dead, nextToken), me, next)
    ensures Leads(start, longer, Alone(files, me, next, dead, nextToken))
  {
    hide Leads, Fire, CanFire;
    longer := Then(start, calls, Alone(files, me, pc, dead, nextToken), e);
    assert map[me := pc][me := next] == map[me := next];
  }

  lemma ReclaimAlone(start: State, calls: seq<Event>, files: map<Path, File>, me: Process, path: Path, task: Task,
                     dead: set<Process>, nextToken: nat) returns (longer: seq<Event>)
    requires Leads(start, calls, Alone(files, me, Look(path, task), dead, nextToken)) && me !in dead
    ensures Leads(start, longer,
                  Alone(WithoutStale(files, dead, path), me, AfterReclaim(path, task), dead, nextToken))
  {
    hide Leads;
    if path !in files {
      longer := StepAlone(start, calls, files, me, Look(path, task), dead, nextToken, Call(me, false, 0),
                          AfterReclaim(path, task));
      assert files - {path} == files;
    } else {
      var snapshot := files[path];
      longer := StepAlone(start, calls, files, me, Look(path, task), dead, nextToken, Call(me, false, 0),
                          Judge(path, task, snapshot));
      if snapshot.owner !in dead {
        longer := StepAlone(start, longer, files, me, Judge(path, task, snapshot), dead, nextToken,
                            Call(me, false, 0), AfterReclaim(path, task));
      } else {
        longer := StepAlone(start, longer, files, me, Judge(path, task, snapshot), dead, nextToken,
                            Call(me, true, 0), Recheck(path, task, snapshot));
        longer := DisplaceAlone(start, longer, files, me, path, task, dead, nextToken);
      }
    }
  }

  lemma DisplaceAlone(start: State, calls: seq<Event>, files: map<Path, File>, me: Process, path: Path, task: Task,
                      dead: set<Process>, nextToken: nat) returns (longer: seq<Event>)
    requires path in files
    requires Leads(start, calls, Alone(files, me, Recheck(path, task, files[path]), dead, nextToken))
    ensures Leads(start, longer, Alone(files - {path}, me, AfterReclaim(path, task), dead, nextToken))
  {
    hide Leads;
    var snapshot := files[path];
    var compare := Compare(path, task, snapshot, snapshot);
    longer := StepAlone(start, calls, files, me, Recheck(path, task, snapshot), dead, nextToken,
                        Call(me, false, 0), Displace(path, task, snapshot));
    longer := Then(start, longer, Alone(files, me, Displace(path, task, snapshot), dead, nextToken), Call(me, false, 0));
    assert map[me := Displace(path, task, snapshot)][me := compare] == map[me := compare];
    longer := StepAlone(start, longer, files - {path}, me, compare, dead, nextToken, Call(me, false, 0),
                        Discard(path, task, snapshot, snapshot));
    longer := StepAlone(start, longer, files - {path}, me, Discard(path, task, snapshot, snapshot), dead, nextToken,
                        Call(me, false, 0), AfterReclaim(path, task));
  }

  class Contender {
    const me: Process
    /** The owners the liveness test reports gone; nobody else runs meanwhile. */
    const dead: set<Process>
    /** How often a deadline check still passes, in the mutex loop and in the lock loop. */
    const mutexRetries: nat
    const lockRetries: nat
    var files: map<Path, File>
    var nextToken: nat
    /** The state of the protocol the contender began in, and its calls since. */
    ghost const start: State
    ghost var calls: seq<Event>

    /** The contender's calls so far are a run of the protocol, and it stands at `pc` now. */
    ghost predicate StandsAt(pc: PC)
      reads this
    {
      Leads(start, calls, Alone(files, me, pc, dead, nextToken)) && me !in dead
    }

    constructor (me: Process, dead: set<Process>, mutexRetries: nat, lockRetries: nat, files: map<Path, File>,
                 nextToken: nat)
      requires me !in dead
      ensures this.me == me && this.dead == dead && this.files == files
      ensures this.mutexRetries == mutexRetries && this.lockRetries == lockRetries
      ensures start == State(files, map[me := Idle], dead, nextToken) && StandsAt(Idle)
    {
      this.me, this.dead, this.files, this.nextToken := me, dead, files, nextToken;
      this.mutexRetries, this.lockRetries := mutexRetries, lockRetries;
      start, calls := State(files, map[me := Idle], dead, nextToken), [];
    }

    method Link(path: Path, ghost pc: PC) returns (won: bool)
      requires StandsAt(pc) && Claims(pc, path)
      modifies this
      ensures StandsAt(Claimed(pc, won))
      ensures won <==> path !in old(files)
      ensures !won ==> files == old(files)
      ensures won ==> path in files && files[path].owner == me && files - {path} == old(files)
    {
      won := path !in files;
      calls := LinkAlone(start, calls, files, me, pc, dead, nextToken, path);
      if won {
        files := files[path := File(0, me, nextToken)];
        nextToken := nextToken + 1;
        assert files - {path} == old(files);
      }
    }

    /** A move from one place in the code to the next that leaves the files alone. */
    ghost method Move(pc: PC, e: Event, next: PC)
      requires StandsAt(pc) && CanFire(Alone(files, me, pc, dead, nextToken), e)
      requires Fire(Alone(files, me, pc, dead, nextToken), e) == Goto(Alone(files, me, pc, dead, nextToken), me, next)
      modifies this`calls
      ensures StandsAt(next)
    {
      calls := StepAlone(start, calls, files, me, pc, dead, nextToken, e, next);
    }

    /** Removes the file at `path` only if it carries this process's pid number. */
    method RemoveOwned(path: Path, ghost pc: PC)
      requires StandsAt(pc) && Releases(pc, path)
      modifies this`files, this`calls
      ensures StandsAt(Released(pc))
      ensures path in old(files) && old(files)[path].owner.pid == me.pid ==> files == old(files) - {path}
      ensures !(path in old(files) && old(files)[path].owner.pid == me.pid) ==> files == old(files)
    {
      calls := ReleaseAlone(start, calls, files, me, pc, dead, nextToken, path);
      if path in files && files[path].owner.pid == me.pid {
        files := files - {path};
      }
    }

    /** Reads the file, judges its owner, reads it again, renames it aside, compares, removes. */
    method ReclaimStale(path: Path, ghost task: Task) returns (reclaimed: bool)
      requires StandsAt(Look(path, task))
      modifies this`files, this`calls
      ensures StandsAt(AfterReclaim(path, task))
      ensures reclaimed <==> path in old(files) && old(files)[path].owner in dead
      ensures files == WithoutStale(old(files), dead, path)
    {
      calls := ReclaimAlone(start, calls, files, me, path, task, dead, nextToken);
      if path !in files {
        assert files - {path} == files;
        return false;
      }
      var snapshot := files[path];
      if snapshot.owner !in dead || path !in files || files[path] != snapshot {
        return false;
      }
      // running alone, the file renamed aside is the one just read, so it is never put back
      files := files - {path};
      return true;
    }

    /** Breaks a stale mutex under the takeover guard. */
    method ReclaimMutex(ghost task: Task) returns (reclaimed: bool)
      requires StandsAt(ClaimGuard(task))
      modifies this
      ensures StandsAt(ClaimMutex(task))
      ensures reclaimed <==>
                Claimable(old(files), dead, Guard) && Mutex in old(files) && old(files)[Mutex].owner in dead
      ensures files == if Claimable(old(files), dead, Guard)
                       then WithoutStale(old(files), dead, Mutex) - {Guard}
                       else old(files)
    {
      hide StandsAt;
      var claimed := Link(Guard, ClaimGuard(task));
      if !claimed {
        var _ := ReclaimStale(Guard, task);
        claimed := Link(Guard, ClaimGuardAgain(task));
        if !claimed {
          return false;
        }
      }
      assert files - {Guard} == old(files) - {Guard};
      assert Mutex in files <==> Mutex in old(files) - {Guard};
      assert Mutex in files ==> (files - {Guard})[Mutex] == (old(files) - {Guard})[Mutex];
      label underGuard:
      reclaimed := ReclaimStale(Mutex, task);
      assert files - {Guard} == WithoutStale(old@underGuard(files) - {Guard}, dead, Mutex);
      RemoveOwned(Guard, CheckGuard(task));
    }

    /** Claims the mutex, breaking stale ones on the way; gives up at the deadline. */
    method EnterMutex(ghost task: Task) returns (entered: bool)
      requires StandsAt(ClaimMutex(task))
      modifies this
      ensures StandsAt(if entered then Claimed(ClaimMutex(task), true) else Idle)
      ensures entered <==> Enterable(old(files), dead)
      ensures entered ==> Mutex in files && files[Mutex].owner == me
      ensures entered ==> OnlyGuardCleared(old(files), files - {Mutex})
      ensures !entered ==> !Enterable(files, dead)
    {
      hide StandsAt;
      var retries := mutexRetries;
      entered := false;
      while !entered
        invariant StandsAt(if entered then Claimed(ClaimMutex(task), true) else ClaimMutex(task))
        invariant entered ==> Enterable(old(files), dead)
        invariant entered ==> Mutex in files && files[Mutex].owner == me
        invariant entered ==> OnlyGuardCleared(old(files), files - {Mutex})
        invariant !entered ==>
          || files == old(files)
          || (Enterable(old(files), dead) && Mutex in old(files) && Mutex !in files
              && OnlyGuardCleared(old(files), files))
          || (!Enterable(old(files), dead) && Claimable(old(files), dead, Guard) && files == old(files) - {Guard})
        decreases !entered, Mutex in files, retries
      {
        ghost var before := files;
        entered := Link(Mutex, ClaimMutex(task));
        if !entered {
          var reclaimed := ReclaimMutex(task);
          if reclaimed {
            continue;
          }
          assert before - {Guard} == old(files) - {Guard};
          if retries == 0 {
            Move(ClaimMutex(task), GiveUp(me), Idle);
            return false;
          }
          retries := retries - 1;
        } else {
          assert files - {Mutex} == before;
        }
      }
    }

    method LeaveMutex(ghost acquired: bool)
      requires StandsAt(CheckMutex(acquired)) && Mutex in files && files[Mutex].owner == me
      modifies this`files, this`calls
      ensures StandsAt(AfterMutex(acquired))
      ensures files == old(files) - {Mutex}
    {
      RemoveOwned(Mutex, CheckMutex(acquired));
    }

    /** Claims the lock file while holding the mutex; None when the mutex could not be entered. */
    method ClaimLock() returns (entered: bool, claimed: bool)
      requires StandsAt(Idle)
      modifies this
      ensures StandsAt(if claimed then Critical else Idle)
      ensures entered <==> Enterable(old(files), dead)
      ensures claimed <==> entered && Lock !in old(files)
      ensures !entered ==> !Enterable(files, dead)
      ensures entered ==> Mutex !in files && (Guard in files <==> Guard in old(files) && Mutex !in old(files))
      ensures entered && !claimed ==> Lock in files && files[Lock] == old(files)[Lock]
      ensures claimed ==> Lock in files && files[Lock].owner == me
    {
      claimed := false;
      Move(Idle, Start(me, Claim), ClaimMutex(Claim));
      hide StandsAt;
      entered := EnterMutex(Claim);
      if entered {
        claimed := Link(Lock, PC.ClaimLock);
        LeaveMutex(claimed);
      }
    }

    /** Reclaims a stale lock file while holding the mutex. */
    method ReclaimLock() returns (entered: bool)
      requires StandsAt(Idle)
      modifies this
      ensures StandsAt(Idle)
      ensures entered <==> Enterable(old(files), dead)
      ensures entered ==> Mutex !in files && (Guard in files <==> Guard in old(files) && Mutex !in old(files))
      ensures entered && Claimable(old(files), dead, Lock) ==> Lock !in files
      ensures entered && !Claimable(old(files), dead, Lock) ==> Lock in files && files[Lock] == old(files)[Lock]
    {
      Move(Idle, Start(me, Reclaim), ClaimMutex(Reclaim));
      hide StandsAt;
      entered := EnterMutex(Reclaim);
      if entered {
        var _ := ReclaimStale(Lock, Reclaim);
        LeaveMutex(false);
      }
    }

    /** The acquire loop. It succeeds exactly when everything in its way is free or stale, and
        then within two iterations; a takeover guard left behind is only cleared on the way
        through a stale mutex. */
    method Acquire() returns (acquired: bool, iterations: nat)
      requires StandsAt(Idle)
      modifies this
      ensures StandsAt(if acquired then Critical else Idle)
      ensures acquired <==>
                && Enterable(old(files), dead)
                && (Lock in old(files) ==> old(files)[Lock].owner in dead && lockRetries > 0)
      ensures acquired ==> iterations == if Lock in old(files) then 2 else 1
      ensures acquired ==> Lock in files && files[Lock].owner == me && Mutex !in files
      ensures acquired ==> (Guard in files <==> Guard in old(files) && Mutex !in old(files))
    {
      hide StandsAt;
      var retries := lockRetries;
      acquired, iterations := false, 0;
      while !acquired
        invariant StandsAt(if acquired then Critical else Idle)
        invariant acquired ==> Enterable(old(files), dead) && Claimable(old(files), dead, Lock)
        invariant iterations > 0 && Lock in old(files) ==> lockRetries > 0
        invariant acquired ==> iterations == if Lock in old(files) then 2 else 1
        invariant acquired ==> Lock in files && files[Lock].owner == me && Mutex !in files
        invariant iterations == 0 ==> files == old(files) && retries == lockRetries && !acquired
        invariant iterations > 0 ==> Enterable(old(files), dead)
        invariant iterations > 0 ==> Mutex !in files && (Guard in files <==> Guard in old(files) && Mutex !in old(files))
        invariant iterations > 0 && !acquired ==> Lock in old(files)
        invariant iterations > 0 && !acquired && Claimable(old(files), dead, Lock) ==> iterations == 1 && Lock !in files
        invariant iterations > 0 && !acquired && !Claimable(old(files), dead, Lock) ==>
          Lock in files && files[Lock] == old(files)[Lock]
        decreases !acquired, retries
      {
        iterations := iterations + 1;
        var entered;
        entered, acquired := ClaimLock();
        if !acquired {
          if retries == 0 {
            return;
          }
          retries := retries - 1;
          entered := ReclaimLock();
          if !entered {
            return;   // the mutex deadline passed: the error is not caught here
          }
        }
      }
    }

    method Release()
      requires StandsAt(Critical) && Lock in files && files[Lock].owner == me
      modifies this`files, this`calls
      ensures StandsAt(Idle)
      ensures files == old(files) - {Lock}
    {
      Move(Critical, Call(me, false, 0), CheckLock);
      RemoveOwned(Lock, CheckLock);
    }

    /** When every holder has crashed, a contender alone gets in and out again. It leaves nothing
        behind, with one exception: a takeover guard whose mutex was already gone. */
    method Recover() returns (acquired: bool, iterations: nat)
      requires StandsAt(Idle) && lockRetries >= 1
      requires forall path <- files :: files[path].owner in dead
      modifies this
      ensures StandsAt(Idle)
      ensures acquired && iterations <= 2
      ensures Lock !in files && Mutex !in files
      ensures Guard in files <==> Guard in old(files) && Mutex !in old(files)
    {
      acquired, iterations := Acquire();
      Release();
    }
  }
}
