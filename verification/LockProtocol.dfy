/** The crash-tolerant lock of detached runs, one file-system call per step.

    A lock file is claimed by `link`, so the first claimant wins. A claim or a reclaim
    of the lock normally runs while holding the reclamation mutex, itself such a file,
    and a stale mutex is broken only while holding the takeover guard, a third one.
    Processes interleave freely and may crash between any two calls.

    Two facts about the world are assumed, in `CanFire`: a process judged dead is dead
    and its identity never runs again; the pid number of a dead process may be reused. */
module LockProtocol {

  /** A pid number may be reused; a pid together with a start time is not. */
  datatype Process = Process(pid: nat, startTime: nat)

  datatype Path = Lock | Mutex | Guard

  /** A lock file: its inode (reusable), and the owner and random token in its text. */
  datatype File = File(inode: nat, owner: Process, token: nat)

  /** What a process does once it holds the mutex. */
  datatype Task = Claim | Reclaim

  /** Where a process stands between two file-system calls. */
  datatype PC =
    | Idle
    | ClaimMutex(task: Task)
    | ClaimGuard(task: Task)
    | ClaimGuardAgain(task: Task)
    // reclaiming the file at `target`: read it, judge its owner, read it again,
    // rename it aside, compare what was renamed, then remove it or put it back
    | Look(target: Path, task: Task)
    | Judge(target: Path, task: Task, snapshot: File)
    | Recheck(target: Path, task: Task, snapshot: File)
    | Displace(target: Path, task: Task, snapshot: File)
    | Compare(target: Path, task: Task, snapshot: File, aside: File)
    | Discard(target: Path, task: Task, snapshot: File, aside: File)
    | CheckVacant(target: Path, task: Task, aside: File)
    | PutBack(target: Path, task: Task, aside: File)
    // releasing: read the pid in the file, then remove the file
    | CheckGuard(task: Task)
    | RemoveGuard(task: Task)
    | ClaimLock
    | CheckMutex(acquired: bool)
    | RemoveMutex(acquired: bool)
    | Critical
    | CheckLock
    | RemoveLock

  /** The three files, the live processes, the processes that crashed, the next unused token. */
  datatype State = State(
    disk: map<Path, File>, running: map<Process, PC>, dead: set<Process>, nextToken: nat)

  datatype Event =
    | Spawn(p: Process)
    | Crash(p: Process)
    | Start(p: Process, task: Task)
    | ClaimDirectly(p: Process, inode: nat)   // a path claim retried without the mutex
    | GiveUp(p: Process)                      // the mutex deadline passed
    | Call(p: Process, verdictDead: bool, inode: nat)

  const EMPTY := State(map[], map[], {}, 0)

  predicate Reclaims(pc: PC, target: Path) {
    (pc.Look? || pc.Judge? || pc.Recheck? || pc.Displace? || pc.Compare? || pc.Discard?
      || pc.CheckVacant? || pc.PutBack?)
    && pc.target == target
  }

  /** The code between a successful claim of `path` and the call that removes its file. */
  predicate Holds(pc: PC, path: Path) {
    match path
    case Lock =>
      pc.Critical? || pc.CheckLock? || pc.RemoveLock?
      || ((pc.CheckMutex? || pc.RemoveMutex?) && pc.acquired)
    case Mutex => pc.ClaimLock? || pc.CheckMutex? || pc.RemoveMutex? || Reclaims(pc, Lock)
    case Guard => pc.CheckGuard? || pc.RemoveGuard? || Reclaims(pc, Mutex)
  }

  ghost predicate CanFire(s: State, e: Event) {
    match e
    case Spawn(p) =>
      p !in s.running && p !in s.dead && forall q <- s.running :: q.pid != p.pid
    case Crash(p) => p in s.running
    case Start(p, _) => p in s.running && s.running[p].Idle?
    case ClaimDirectly(p, _) => p in s.running && s.running[p].Idle?
    case GiveUp(p) => p in s.running && s.running[p].ClaimMutex?
    case Call(p, verdictDead, _) =>
      && p in s.running
      && !s.running[p].Idle?
      && (s.running[p].Judge? && verdictDead ==> s.running[p].snapshot.owner !in s.running)
  }

  /** `link` of a fresh file: it fails when the path exists. */
  function Link(s: State, p: Process, path: Path, inode: nat, won: PC, lost: PC): State
  {
    if path in s.disk then Goto(s, p, lost)
    else Goto(s.(disk := s.disk[path := File(inode, p, s.nextToken)], nextToken := s.nextToken + 1), p, won)
  }

  function Goto(s: State, p: Process, pc: PC): State {
    s.(running := s.running[p := pc])
  }

  /** Where a reclaim returns to. */
  function AfterReclaim(target: Path, task: Task): PC {
    match target
    case Guard => ClaimGuardAgain(task)
    case Mutex => CheckGuard(task)
    case Lock => CheckMutex(false)
  }

  /** `removeOwned` reads the pid number in the file and goes on to remove it only if it is its own. */
  function CheckOwned(s: State, p: Process, path: Path, remove: PC, skip: PC): State {
    Goto(s, p, if path in s.disk && s.disk[path].owner.pid == p.pid then remove else skip)
  }

  function AfterMutex(acquired: bool): PC { if acquired then Critical else Idle }

  function Fire(s: State, e: Event): State
    requires e.Call? ==> e.p in s.running
  {
    match e
    case Spawn(p) => Goto(s, p, Idle)
    case Crash(p) => s.(running := s.running - {p}, dead := s.dead + {p})
    case Start(p, task) => Goto(s, p, ClaimMutex(task))
    case ClaimDirectly(p, inode) => Link(s, p, Lock, inode, Critical, Idle)
    case GiveUp(p) => Goto(s, p, Idle)
    case Call(p, verdictDead, inode) => FireCall(s, p, verdictDead, inode)
  }

  function FireCall(s: State, p: Process, verdictDead: bool, inode: nat): State
    requires p in s.running
  {
    match s.running[p]
    case Idle => s
    case ClaimMutex(task) =>
      Link(s, p, Mutex, inode, if task.Claim? then ClaimLock else Look(Lock, task), ClaimGuard(task))
    case ClaimGuard(task) => Link(s, p, Guard, inode, Look(Mutex, task), Look(Guard, task))
    case ClaimGuardAgain(task) => Link(s, p, Guard, inode, Look(Mutex, task), ClaimMutex(task))
    case CheckGuard(task) => CheckOwned(s, p, Guard, RemoveGuard(task), ClaimMutex(task))
    case RemoveGuard(task) => Goto(s.(disk := s.disk - {Guard}), p, ClaimMutex(task))
    case ClaimLock => Link(s, p, Lock, inode, CheckMutex(true), CheckMutex(false))
    case CheckMutex(acquired) => CheckOwned(s, p, Mutex, RemoveMutex(acquired), AfterMutex(acquired))
    case RemoveMutex(acquired) => Goto(s.(disk := s.disk - {Mutex}), p, AfterMutex(acquired))
    case Critical => Goto(s, p, CheckLock)
    case CheckLock => CheckOwned(s, p, Lock, RemoveLock, Idle)
    case RemoveLock => Goto(s.(disk := s.disk - {Lock}), p, Idle)
    case _ => FireReclaim(s, p, verdictDead)
  }

  function FireReclaim(s: State, p: Process, verdictDead: bool): State
    requires p in s.running
  {
    match s.running[p]
    case Look(t, task) =>
      Goto(s, p, if t in s.disk then Judge(t, task, s.disk[t]) else AfterReclaim(t, task))
    case Judge(t, task, snapshot) =>
      Goto(s, p, if verdictDead then Recheck(t, task, snapshot) else AfterReclaim(t, task))
    case Recheck(t, task, snapshot) =>
      Goto(s, p, if t in s.disk && s.disk[t] == snapshot then Displace(t, task, snapshot)
                 else AfterReclaim(t, task))
    case Displace(t, task, snapshot) =>
      if t !in s.disk then Goto(s, p, AfterReclaim(t, task))
      else Goto(s.(disk := s.disk - {t}), p, Compare(t, task, snapshot, s.disk[t]))
    case Compare(t, task, snapshot, aside) =>
      Goto(s, p, if aside == snapshot then Discard(t, task, snapshot, aside) else CheckVacant(t, task, aside))
    case Discard(t, task, _, _) => Goto(s, p, AfterReclaim(t, task))
    case CheckVacant(t, task, aside) =>
      Goto(s, p, if t in s.disk then AfterReclaim(t, task) else PutBack(t, task, aside))
    case PutBack(t, task, aside) => Goto(s.(disk := s.disk[t := aside]), p, AfterReclaim(t, task))
    case _ => s
  }

  // ---------------------------------------------------------------------------
  // What a call does, on the files

  /** Any process may start whose identity is new and whose pid number is free; any may crash at any
      moment; an idle one may turn to the lock, and one that is not may go on, but never takes the
      owner of a file for dead that is alive. */
  lemma EventsAreOpen(s: State, p: Process, task: Task, verdictDead: bool, inode: nat)
    ensures CanFire(s, Spawn(p)) <==>
      p !in s.running.Keys && p !in s.dead && forall q :: q in s.running ==> q.pid != p.pid
    ensures CanFire(s, Crash(p)) <==> p in s.running.Keys
    ensures CanFire(s, Start(p, task)) <==> p in s.running.Keys && s.running[p] == Idle
    ensures CanFire(s, ClaimDirectly(p, inode)) <==> p in s.running.Keys && s.running[p] == Idle
    ensures CanFire(s, GiveUp(p)) <==>
      p in s.running.Keys && (s.running[p] == ClaimMutex(Claim) || s.running[p] == ClaimMutex(Reclaim))
    ensures CanFire(s, Call(p, verdictDead, inode)) <==>
      && p in s.running.Keys && s.running[p] != Idle
      && (verdictDead && s.running[p].Judge? ==> s.running[p].snapshot.owner !in s.running.Keys)
  {
  }

  /** A claim succeeds exactly when nobody has the file, and then the file names the claimant. */
  lemma ClaimsAreExactly(s: State, p: Process, path: Path, verdictDead: bool, inode: nat)
    requires p in s.running
    requires var pc := s.running[p];
      (pc.ClaimMutex? && path == Mutex) || ((pc.ClaimGuard? || pc.ClaimGuardAgain?) && path == Guard)
      || (pc.ClaimLock? && path == Lock)
    ensures var t := Fire(s, Call(p, verdictDead, inode));
      && (path in s.disk ==> t.disk == s.disk && t.nextToken == s.nextToken)
      && (path !in s.disk ==> t.disk == s.disk[path := File(inode, p, s.nextToken)] && t.nextToken == s.nextToken + 1)
      && t.dead == s.dead && t.running.Keys == s.running.Keys
  {
  }

  lemma DirectClaimsAreExactly(s: State, p: Process, inode: nat)
    requires p in s.running
    ensures var t := Fire(s, ClaimDirectly(p, inode));
      && t.disk == (if Lock in s.disk then s.disk else s.disk[Lock := File(inode, p, s.nextToken)])
      && p in t.running && t.running[p] == (if Lock in s.disk then Idle else Critical)
  {
  }

  /** A reclaim looks for the file, asks for its owner, looks again for the very same file, and takes
      it aside, whatever is there by then. */
  lemma ReclaimsAreExactly(s: State, p: Process, verdictDead: bool)
    requires p in s.running
    ensures var pc := s.running[p];
      var t := Fire(s, Call(p, verdictDead, 0));
      && (pc.Look? && pc.target in s.disk ==> t == Goto(s, p, Judge(pc.target, pc.task, s.disk[pc.target])))
      && (pc.Look? && pc.target !in s.disk ==> t == Goto(s, p, AfterReclaim(pc.target, pc.task)))
      && (pc.Judge? ==> t == Goto(s, p, if verdictDead then Recheck(pc.target, pc.task, pc.snapshot)
                                        else AfterReclaim(pc.target, pc.task)))
      && (pc.Recheck? ==>
            t == Goto(s, p, if pc.target in s.disk && s.disk[pc.target] == pc.snapshot
                            then Displace(pc.target, pc.task, pc.snapshot) else AfterReclaim(pc.target, pc.task)))
      && (pc.Displace? && pc.target in s.disk ==>
            && t.disk == s.disk - {pc.target} && p in t.running
            && t.running[p] == Compare(pc.target, pc.task, pc.snapshot, s.disk[pc.target]))
      && (pc.Displace? && pc.target !in s.disk ==> t == Goto(s, p, AfterReclaim(pc.target, pc.task)))
  {
  }

  /** A file taken aside by mistake is put back, unless its place was taken meanwhile. */
  lemma MistakesAreUndone(s: State, p: Process, verdictDead: bool)
    requires p in s.running && s.running[p].Compare? && s.running[p].aside != s.running[p].snapshot
    ensures var pc := s.running[p];
      var seen := Fire(s, Call(p, verdictDead, 0));
      p in seen.running && var checked := Fire(seen, Call(p, verdictDead, 0));
      p in checked.running &&
      if pc.target in s.disk then
        checked.disk == s.disk && checked.running[p] == AfterReclaim(pc.target, pc.task)
      else
        var back := Fire(checked, Call(p, verdictDead, 0));
        back.disk == s.disk[pc.target := pc.aside] && p in back.running
        && back.running[p] == AfterReclaim(pc.target, pc.task)
  {
  }

  /** A release removes the file only if the pid in it is the process's own. */
  lemma ReleasesAreExactly(s: State, p: Process, path: Path, verdictDead: bool)
    requires p in s.running
    requires var pc := s.running[p];
      (pc.CheckMutex? && path == Mutex) || (pc.CheckGuard? && path == Guard) || (pc.CheckLock? && path == Lock)
    ensures var checked := Fire(s, Call(p, verdictDead, 0));
      checked.disk == s.disk && p in checked.running &&
      if path in s.disk && s.disk[path].owner.pid == p.pid then
        (checked.running[p].RemoveMutex? || checked.running[p].RemoveGuard? || checked.running[p].RemoveLock?)
        && Fire(checked, Call(p, verdictDead, 0)).disk == s.disk - {path}
      else
        !checked.running[p].RemoveMutex? && !checked.running[p].RemoveGuard? && !checked.running[p].RemoveLock?
  {
  }

  /** A crash takes the process and leaves its files. */
  lemma CrashesAreExactly(s: State, p: Process)
    ensures var t := Fire(s, Crash(p));
      p !in t.running && p in t.dead && t.disk == s.disk && t.running == s.running - {p}
  {
  }

  // ---------------------------------------------------------------------------
  // Runs

  /** A process that takes a stale guard aside finds there the file it read, not a newer one. */
  ghost predicate TakesGuardItRead(s: State, e: Event) {
    e.Call? && e.p in s.running && s.running[e.p].Displace? && s.running[e.p].target == Guard && Guard in s.disk ==>
      s.disk[Guard] == s.running[e.p].snapshot
  }

  /** No process dies between taking the takeover guard and removing it. */
  predicate SparesGuard(s: State, e: Event) {
    e.Crash? && e.p in s.running ==> !Holds(s.running[e.p], Guard)
  }

  ghost predicate IsRun(s: State, events: seq<Event>)
    decreases |events|
  {
    events != [] ==> CanFire(s, events[0]) && IsRun(Fire(s, events[0]), events[1..])
  }

  /** A run, deaths inside the guard included, in which no newer guard is taken aside for a stale one. */
  ghost predicate IsSoundRun(s: State, events: seq<Event>)
    decreases |events|
  {
    events != [] ==>
      && CanFire(s, events[0])
      && TakesGuardItRead(s, events[0])
      && IsSoundRun(Fire(s, events[0]), events[1..])
  }

  ghost predicate IsGuardSafeRun(s: State, events: seq<Event>)
    decreases |events|
  {
    events != [] ==>
      && CanFire(s, events[0])
      && SparesGuard(s, events[0])
      && IsGuardSafeRun(Fire(s, events[0]), events[1..])
  }

  ghost function After(s: State, events: seq<Event>): State
    requires IsRun(s, events)
    decreases |events|
  {
    if events == [] then s else After(Fire(s, events[0]), events[1..])
  }

  lemma {:induction false} RunExtends(s: State, events: seq<Event>, e: Event)
    requires IsRun(s, events) && CanFire(After(s, events), e)
    ensures IsRun(s, events + [e])
    ensures After(s, events + [e]) == Fire(After(s, events), e)
    decreases |events|
  {
    hide Fire;
    if events != [] {
      RunExtends(Fire(s, events[0]), events[1..], e);
      assert (events + [e])[1..] == events[1..] + [e];
    } else {
      assert (events + [e])[1..] == [];
    }
  }

  // ---------------------------------------------------------------------------
  // The inductive invariant

  ghost predicate Populated(s: State) {
    && s.running.Keys !! s.dead
    && (forall p, q :: p in s.running && q in s.running && p.pid == q.pid ==> p == q)
    && (forall path <- s.disk :: s.disk[path].owner in s.running || s.disk[path].owner in s.dead)
  }

  /** Holding a file and owning it are the same thing for a live process. */
  ghost predicate Owned(s: State) {
    && (forall p, path :: p in s.running && Holds(s.running[p], path) ==>
          path in s.disk && s.disk[path].owner == p)
    && (forall path <- s.disk :: s.disk[path].owner in s.running ==>
          Holds(s.running[s.disk[path].owner], path))
  }

  /** What a process in the middle of a reclaim knows. */
  ghost predicate Knows(s: State, pc: PC) {
    match pc
    case Recheck(_, _, snapshot) => snapshot.owner in s.dead
    case Displace(t, _, snapshot) =>
      snapshot.owner in s.dead && (t != Guard ==> t in s.disk && s.disk[t] == snapshot)
    case Compare(_, _, snapshot, aside) => snapshot.owner in s.dead && aside == snapshot
    case Discard(_, _, snapshot, aside) => snapshot.owner in s.dead && aside == snapshot
    case Judge(_, _, snapshot) => snapshot.owner in s.running || snapshot.owner in s.dead
    case CheckVacant(_, _, _) => false
    case PutBack(_, _, _) => false
    case _ => true
  }

  ghost predicate Inv(s: State) {
    && Populated(s)
    && Owned(s)
    && (forall p <- s.running :: Knows(s, s.running[p]))
  }

  ghost predicate SameHolds(a: PC, b: PC) {
    forall path :: Holds(a, path) <==> Holds(b, path)
  }

  lemma HolderOwns(s: State, p: Process, path: Path)
    requires Inv(s) && p in s.running && Holds(s.running[p], path)
    ensures path in s.disk && s.disk[path].owner == p
  {
  }

  lemma DisplacedFilesAreDead(s: State)
    requires Inv(s)
    ensures forall q <- s.running :: s.running[q].Displace? && s.running[q].target != Guard ==>
              s.running[q].target in s.disk && s.disk[s.running[q].target].owner in s.dead
  {
    hide Owned, Populated;
    forall q <- s.running | s.running[q].Displace? && s.running[q].target != Guard
      ensures s.running[q].target in s.disk && s.disk[s.running[q].target].owner in s.dead
    {
      assert Knows(s, s.running[q]);
    }
  }

  lemma PopulationKept(s: State, s': State)
    requires Populated(s)
    requires s'.running.Keys !! s'.dead && s'.dead >= s.dead
    requires s.running.Keys <= s'.running.Keys + s'.dead
    requires forall p, q :: p in s'.running && q in s'.running && p.pid == q.pid ==>
               p == q || (p in s.running && q in s.running)
    requires forall path <- s'.disk :: s'.disk[path].owner in s'.running
               || (path in s.disk && s.disk[path].owner == s'.disk[path].owner)
    ensures Populated(s')
  {
  }

  // The four ways a call changes the disk

  /** Every process but `p` keeps what it knows when the owners it knows of keep their fate. */
  lemma OthersKeepKnowing(s: State, s': State, p: Process)
    requires Inv(s) && s.dead <= s'.dead
    requires forall q <- s'.running :: q == p || (q in s.running && s'.running[q] == s.running[q])
    requires forall q <- s.running :: q in s'.running || q in s'.dead
    requires forall q <- s'.running :: q != p && s.running[q].Displace? && s.running[q].target != Guard ==>
               && s.running[q].target in s.disk && s.running[q].target in s'.disk
               && s'.disk[s.running[q].target] == s.disk[s.running[q].target]
    ensures forall q <- s'.running :: q != p ==> Knows(s', s'.running[q])
  {
    forall q <- s'.running | q != p ensures Knows(s', s'.running[q]) {
      assert Knows(s, s.running[q]);
    }
  }

  lemma MovingKeepsInv(s: State, p: Process, pc: PC)
    requires Inv(s) && p in s.running
    requires SameHolds(s.running[p], pc) && Knows(s, pc)
    ensures Inv(Goto(s, p, pc))
  {
    var s' := Goto(s, p, pc);
    MovingKeepsOwned(s, p, pc);
    hide Owned, Holds;
    PopulationKept(s, s');
    DisplacedFilesAreDead(s);
    OthersKeepKnowing(s, s', p);
  }

  lemma MovingKeepsOwned(s: State, p: Process, pc: PC)
    requires Owned(s) && p in s.running && SameHolds(s.running[p], pc)
    ensures Owned(Goto(s, p, pc))
  {
    hide Holds;
    var s' := Goto(s, p, pc);
    forall q, path | q in s'.running && Holds(s'.running[q], path)
      ensures path in s'.disk && s'.disk[path].owner == q
    {
      assert Holds(s.running[q], path);
    }
  }

  lemma LinkingKeepsInv(s: State, p: Process, path: Path, inode: nat, won: PC, lost: PC)
    requires Inv(s) && p in s.running && path !in s.disk
    requires forall other :: Holds(won, other) <==> other == path || Holds(s.running[p], other)
    requires won.Look? || won.ClaimLock? || won.Critical? || won.CheckMutex?
    ensures Inv(Link(s, p, path, inode, won, lost))
  {
    hide Holds, Owned;
    var s' := Link(s, p, path, inode, won, lost);
    LinkingKeepsOwned(s, p, path, inode, won, lost);
    PopulationKept(s, s');
    DisplacedFilesAreDead(s);
    OthersKeepKnowing(s, s', p);
  }

  lemma LinkingKeepsOwned(s: State, p: Process, path: Path, inode: nat, won: PC, lost: PC)
    requires Owned(s) && p in s.running && path !in s.disk
    requires forall other :: Holds(won, other) <==> other == path || Holds(s.running[p], other)
    ensures Owned(Link(s, p, path, inode, won, lost))
  {
    hide Holds;
    var s' := Link(s, p, path, inode, won, lost);
    forall q, other | q in s'.running && Holds(s'.running[q], other)
      ensures other in s'.disk && s'.disk[other].owner == q
    {
      assert q != p || other != path ==> Holds(s.running[q], other);
    }
  }

  lemma RemovingKeepsInv(s: State, p: Process, path: Path, pc: PC)
    requires Inv(s) && p in s.running && Holds(s.running[p], path)
    requires forall other :: Holds(pc, other) <==> other != path && Holds(s.running[p], other)
    requires pc.ClaimMutex? || pc.Idle? || pc.Critical?
    ensures Inv(Goto(s.(disk := s.disk - {path}), p, pc))
  {
    hide Holds, Owned;
    var s' := Goto(s.(disk := s.disk - {path}), p, pc);
    HolderOwns(s, p, path);
    RemovingKeepsOwned(s, p, path, pc);
    PopulationKept(s, s');
    DisplacedFilesAreDead(s);
    OthersKeepKnowing(s, s', p);
  }

  lemma RemovingKeepsOwned(s: State, p: Process, path: Path, pc: PC)
    requires Owned(s) && p in s.running && Holds(s.running[p], path)
    requires forall other :: Holds(pc, other) <==> other != path && Holds(s.running[p], other)
    ensures Owned(Goto(s.(disk := s.disk - {path}), p, pc))
  {
    hide Holds;
    var s' := Goto(s.(disk := s.disk - {path}), p, pc);
    forall q, other | q in s'.running && Holds(s'.running[q], other)
      ensures other in s'.disk && s'.disk[other].owner == q
    {
      assert Holds(s.running[q], other);
      assert s.disk[other].owner == q;
    }
  }

  /** Only the holder of the next file up displaces a file, so nobody else is about to. */
  lemma DisplacingKeepsInv(s: State, p: Process)
    requires Inv(s) && p in s.running && s.running[p].Displace? && TakesGuardItRead(s, Call(p, false, 0))
    requires s.running[p].target in s.disk
    ensures Inv(FireReclaim(s, p, false))
  {
    var s' := FireReclaim(s, p, false);
    DisplacingKeepsOwned(s, p);
    forall q <- s.running | q != p && s.running[q].Displace? && s.running[q].target != Guard
      ensures s.running[q].target in s.disk && s.running[q].target != s.running[p].target
    {
      DisplacersDiffer(s, p, q);
    }
    hide Owned, Holds;
    KnowsItsPart(s, p);
    PopulationKept(s, s');
    OthersKeepKnowing(s, s', p);
  }

  lemma DisplacersDiffer(s: State, p: Process, q: Process)
    requires Inv(s) && p in s.running && q in s.running && p != q
    requires s.running[p].Displace? && s.running[q].Displace? && s.running[q].target != Guard
    ensures s.running[q].target in s.disk && s.running[q].target != s.running[p].target
  {
    KnowsItsPart(s, q);
    var above := if s.running[q].target == Lock then Mutex else Guard;
    HolderOwns(s, q, above);
    if s.running[p].target == s.running[q].target {
      HolderOwns(s, p, above);
    }
  }

  lemma DisplacingKeepsOwned(s: State, p: Process)
    requires Inv(s) && p in s.running && s.running[p].Displace? && TakesGuardItRead(s, Call(p, false, 0))
    requires s.running[p].target in s.disk
    ensures Owned(FireReclaim(s, p, false))
  {
    var pc := s.running[p];
    KnowsItsPart(s, p);
    var next := Compare(pc.target, pc.task, pc.snapshot, pc.snapshot);
    assert SameHolds(pc, next);
    DroppingKeepsOwned(s, p, pc.target, next);
  }

  lemma DroppingKeepsOwned(s: State, p: Process, path: Path, pc: PC)
    requires Owned(s) && Populated(s) && p in s.running && SameHolds(s.running[p], pc)
    requires path in s.disk && s.disk[path].owner in s.dead
    ensures Owned(Goto(s.(disk := s.disk - {path}), p, pc))
  {
    hide Holds;
    var s' := Goto(s.(disk := s.disk - {path}), p, pc);
    forall q, other | q in s'.running && Holds(s'.running[q], other)
      ensures other in s'.disk && s'.disk[other].owner == q
    {
      assert Holds(s.running[q], other);
      assert s.disk[other].owner == q;
    }
  }

  lemma CallKeepsInv(s: State, p: Process, verdictDead: bool, inode: nat)
    requires Inv(s) && CanFire(s, Call(p, verdictDead, inode)) && TakesGuardItRead(s, Call(p, verdictDead, inode))
    ensures Inv(FireCall(s, p, verdictDead, inode))
  {
    hide Inv, Link, CheckOwned, FireReclaim;
    var pc := s.running[p];
    if pc.ClaimMutex? || pc.ClaimGuard? || pc.ClaimGuardAgain? || pc.ClaimLock? {
      ClaimingKeepsInv(s, p, inode);
    } else if exists target :: Reclaims(pc, target) {
      ReclaimingKeepsInv(s, p, verdictDead);
    } else {
      assert Reclaims(pc, Lock) || Reclaims(pc, Mutex) || Reclaims(pc, Guard) || !pc.Look?;
      ReleasingKeepsInv(s, p);
    }
  }

  lemma ClaimingKeepsInv(s: State, p: Process, inode: nat)
    requires Inv(s) && p in s.running
    requires var pc := s.running[p]; pc.ClaimMutex? || pc.ClaimGuard? || pc.ClaimGuardAgain? || pc.ClaimLock?
    ensures Inv(FireCall(s, p, false, inode)) && Inv(FireCall(s, p, true, inode))
  {
    hide Inv;
    match s.running[p]
    case ClaimMutex(task) =>
      var won := if task.Claim? then ClaimLock else Look(Lock, task);
      if Mutex in s.disk { MovingKeepsInv(s, p, ClaimGuard(task)); }
      else { LinkingKeepsInv(s, p, Mutex, inode, won, ClaimGuard(task)); }
    case ClaimGuard(task) =>
      if Guard in s.disk { MovingKeepsInv(s, p, Look(Guard, task)); }
      else { LinkingKeepsInv(s, p, Guard, inode, Look(Mutex, task), Look(Guard, task)); }
    case ClaimGuardAgain(task) =>
      if Guard in s.disk { MovingKeepsInv(s, p, ClaimMutex(task)); }
      else { LinkingKeepsInv(s, p, Guard, inode, Look(Mutex, task), ClaimMutex(task)); }
    case ClaimLock =>
      if Lock in s.disk { MovingKeepsInv(s, p, CheckMutex(false)); }
      else { LinkingKeepsInv(s, p, Lock, inode, CheckMutex(true), CheckMutex(false)); }
  }

  lemma ReleasingKeepsInv(s: State, p: Process)
    requires Inv(s) && p in s.running
    requires var pc := s.running[p];
      || pc.Idle? || pc.Critical? || pc.CheckLock? || pc.RemoveLock?
      || pc.CheckMutex? || pc.RemoveMutex? || pc.CheckGuard? || pc.RemoveGuard?
    ensures Inv(FireCall(s, p, false, 0)) && Inv(FireCall(s, p, true, 0))
  {
    hide Inv;
    match s.running[p]
    case RemoveGuard(task) => RemovingKeepsInv(s, p, Guard, ClaimMutex(task));
    case RemoveMutex(acquired) => RemovingKeepsInv(s, p, Mutex, AfterMutex(acquired));
    case RemoveLock => RemovingKeepsInv(s, p, Lock, Idle);
    case CheckGuard(task) => HolderOwns(s, p, Guard); MovingKeepsInv(s, p, RemoveGuard(task));
    case CheckMutex(acquired) => HolderOwns(s, p, Mutex); MovingKeepsInv(s, p, RemoveMutex(acquired));
    case CheckLock => HolderOwns(s, p, Lock); MovingKeepsInv(s, p, RemoveLock);
    case Critical => MovingKeepsInv(s, p, CheckLock);
    case Idle =>
  }

  lemma KnowsItsPart(s: State, p: Process)
    requires Inv(s) && p in s.running
    ensures Knows(s, s.running[p])
  {
  }

  lemma ReclaimingKeepsInv(s: State, p: Process, verdictDead: bool)
    requires Inv(s) && CanFire(s, Call(p, verdictDead, 0)) && TakesGuardItRead(s, Call(p, verdictDead, 0))
    requires exists target :: Reclaims(s.running[p], target)
    ensures Inv(FireReclaim(s, p, verdictDead))
  {
    KnowsItsPart(s, p);
    hide Inv, FireReclaim, Populated, Owned;
    var pc := s.running[p];
    if pc.Look? || pc.Judge? || pc.Recheck? {
      ConfirmingKeepsInv(s, p, verdictDead);
    } else {
      FinishingKeepsInv(s, p, verdictDead);
    }
  }

  lemma ConfirmingKeepsInv(s: State, p: Process, verdictDead: bool)
    requires Inv(s) && CanFire(s, Call(p, verdictDead, 0))
    requires s.running[p].Look? || s.running[p].Judge? || s.running[p].Recheck?
    ensures Inv(FireReclaim(s, p, verdictDead))
  {
    var next := FireReclaim(s, p, verdictDead).running[p];
    ConfirmingKnows(s, p, verdictDead);
    ConfirmingHolds(s, p, verdictDead);
    hide *;
    MovingKeepsInv(s, p, next);
  }

  lemma ConfirmingKnows(s: State, p: Process, verdictDead: bool)
    requires Inv(s) && CanFire(s, Call(p, verdictDead, 0))
    requires s.running[p].Look? || s.running[p].Judge? || s.running[p].Recheck?
    ensures Knows(s, FireReclaim(s, p, verdictDead).running[p])
  {
    KnowsItsPart(s, p);
    hide Owned;
  }

  lemma ConfirmingHolds(s: State, p: Process, verdictDead: bool)
    requires p in s.running && (s.running[p].Look? || s.running[p].Judge? || s.running[p].Recheck?)
    ensures var next := FireReclaim(s, p, verdictDead).running[p];
      FireReclaim(s, p, verdictDead) == Goto(s, p, next) && SameHolds(s.running[p], next)
  {
  }

  lemma FinishingKeepsInv(s: State, p: Process, verdictDead: bool)
    requires Inv(s) && p in s.running && Knows(s, s.running[p]) && TakesGuardItRead(s, Call(p, verdictDead, 0))
    requires s.running[p].Displace? || s.running[p].Compare? || s.running[p].Discard?
      || s.running[p].CheckVacant? || s.running[p].PutBack?
    ensures Inv(FireReclaim(s, p, verdictDead))
  {
    hide Inv;
    match s.running[p]
    case Displace(t, task, _) =>
      if t in s.disk { DisplacingKeepsInv(s, p); } else { MovingKeepsInv(s, p, AfterReclaim(t, task)); }
    case Compare(t, task, snapshot, aside) => MovingKeepsInv(s, p, Discard(t, task, snapshot, aside));
    case Discard(t, task, _, _) => MovingKeepsInv(s, p, AfterReclaim(t, task));
  }

  lemma SpawningKeepsInv(s: State, p: Process)
    requires Inv(s) && CanFire(s, Spawn(p))
    ensures Inv(Goto(s, p, Idle))
  {
    var s' := Goto(s, p, Idle);
    SpawningKeepsOwned(s, p);
    hide Owned, Holds;
    PopulationKept(s, s');
    DisplacedFilesAreDead(s);
    OthersKeepKnowing(s, s', p);
  }

  lemma SpawningKeepsOwned(s: State, p: Process)
    requires Populated(s) && Owned(s) && p !in s.running && p !in s.dead
    ensures Owned(Goto(s, p, Idle))
  {
    var s' := Goto(s, p, Idle);
    forall q, path | q in s'.running && Holds(s'.running[q], path)
      ensures path in s'.disk && s'.disk[path].owner == q
    {
      assert q != p;
      assert Holds(s.running[q], path);
    }
  }

  lemma CrashingKeepsInv(s: State, p: Process)
    requires Inv(s) && p in s.running
    ensures Inv(Fire(s, Crash(p)))
  {
    var s' := Fire(s, Crash(p));
    CrashingKeepsOwned(s, p);
    hide Owned, Holds;
    PopulationKept(s, s');
    DisplacedFilesAreDead(s);
    OthersKeepKnowing(s, s', p);
  }

  lemma CrashingKeepsOwned(s: State, p: Process)
    requires Owned(s) && Populated(s) && p in s.running
    ensures Owned(Fire(s, Crash(p)))
  {
    hide Holds;
    var s' := Fire(s, Crash(p));
    forall q, path | q in s'.running && Holds(s'.running[q], path)
      ensures path in s'.disk && s'.disk[path].owner == q
    {
      assert Holds(s.running[q], path);
    }
  }

  lemma InvStep(s: State, e: Event)
    requires Inv(s) && CanFire(s, e) && TakesGuardItRead(s, e)
    ensures Inv(Fire(s, e))
  {
    hide Inv, Owned, Populated, FireCall;
    match e
    case Spawn(p) => SpawningKeepsInv(s, p);
    case Crash(p) => CrashingKeepsInv(s, p);
    case Start(p, task) => MovingKeepsInv(s, p, ClaimMutex(task));
    case ClaimDirectly(p, inode) =>
      if Lock in s.disk { MovingKeepsInv(s, p, Idle); }
      else { LinkingKeepsInv(s, p, Lock, inode, Critical, Idle); }
    case GiveUp(p) => MovingKeepsInv(s, p, Idle);
    case Call(p, verdictDead, inode) => CallKeepsInv(s, p, verdictDead, inode);
  }

  // ---------------------------------------------------------------------------
  // What holds in every sound run

  lemma {:induction false} RunKeepsInv(s: State, events: seq<Event>)
    requires Inv(s) && IsSoundRun(s, events)
    ensures IsRun(s, events) && Inv(After(s, events))
    decreases |events|
  {
    hide Inv, Fire, TakesGuardItRead;
    if events != [] {
      InvStep(s, events[0]);
      RunKeepsInv(Fire(s, events[0]), events[1..]);
    }
  }

  lemma ReachableInv(events: seq<Event>)
    requires IsSoundRun(EMPTY, events)
    ensures IsRun(EMPTY, events) && Inv(After(EMPTY, events))
  {
    RunKeepsInv(EMPTY, events);
  }

  /** At most one live process holds the lock (or the mutex, or the guard), and the file there is its own. */
  lemma MutualExclusion(events: seq<Event>, p: Process, q: Process, path: Path)
    requires IsSoundRun(EMPTY, events)
    requires IsRun(EMPTY, events)
    requires p in After(EMPTY, events).running && Holds(After(EMPTY, events).running[p], path)
    requires q in After(EMPTY, events).running && Holds(After(EMPTY, events).running[q], path)
    ensures p == q
    ensures path in After(EMPTY, events).disk && After(EMPTY, events).disk[path].owner == p
  {
    ReachableInv(events);
    HolderOwns(After(EMPTY, events), p, path);
    HolderOwns(After(EMPTY, events), q, path);
  }

  /** In the code's own terms: no two live processes are inside the critical section at once. */
  lemma OneInTheCriticalSection(events: seq<Event>, p: Process, q: Process)
    requires IsSoundRun(EMPTY, events)
    requires IsRun(EMPTY, events)
    requires p in After(EMPTY, events).running && After(EMPTY, events).running[p] == Critical
    requires q in After(EMPTY, events).running && After(EMPTY, events).running[q] == Critical
    ensures p == q && Lock in After(EMPTY, events).disk && After(EMPTY, events).disk[Lock].owner == p
  {
    MutualExclusion(events, p, q, Lock);
  }

  /** A step changes no file in place, unless it puts one back. */
  lemma FilesAreNotRewritten(s: State, e: Event, path: Path)
    requires CanFire(s, e) && (e.Call? ==> !s.running[e.p].PutBack?)
    requires path in s.disk && path in Fire(s, e).disk
    ensures Fire(s, e).disk[path] == s.disk[path]
  {
  }

  lemma OthersStayPut(s: State, e: Event, q: Process)
    requires CanFire(s, e) && q in s.running && e.p != q
    ensures q in Fire(s, e).running && Fire(s, e).running[q] == s.running[q]
  {
    hide AfterReclaim, AfterMutex;
  }

  lemma NothingIsPutBack(s: State, e: Event)
    requires Inv(s) && CanFire(s, e)
    ensures e.Call? ==> !s.running[e.p].PutBack? && !s.running[e.p].CheckVacant?
  {
    hide Owned, Populated;
    assert e.Call? ==> Knows(s, s.running[e.p]);
  }

  lemma HoldersKeepTheirFile(s: State, e: Event, holder: Process, path: Path)
    requires Inv(s) && holder in s.running && Holds(s.running[holder], path)
    requires CanFire(s, e) && TakesGuardItRead(s, e) && e.p != holder
    ensures path in s.disk && path in Fire(s, e).disk && Fire(s, e).disk[path] == s.disk[path]
  {
    hide Inv, Holds, Fire;
    InvStep(s, e);
    OthersStayPut(s, e, holder);
    HolderOwns(s, holder, path);
    HolderOwns(Fire(s, e), holder, path);
    NothingIsPutBack(s, e);
    FilesAreNotRewritten(s, e, path);
  }

  ghost predicate LosesFile(s: State, e: Event, holder: Process, path: Path)
    requires e.Call? ==> e.p in s.running
  {
    && holder in s.running && Holds(s.running[holder], path) && path in s.disk
    && !(path in Fire(s, e).disk && Fire(s, e).disk[path] == s.disk[path])
  }

  /** About to take a stale guard aside, the process would take that of a third one, alive. */
  ghost predicate TakesLiveGuard(s: State, e: Event) {
    && e.Call? && e.p in s.running && s.running[e.p].Displace? && s.running[e.p].target == Guard
    && Guard in s.disk && s.disk[Guard].owner in s.running && s.disk[Guard].owner != e.p
  }

  /** A live holder loses its file to another process exactly when its guard is taken for a stale one. */
  lemma HoldersLoseExactlyWhen(s: State, e: Event)
    requires Inv(s) && CanFire(s, e)
    ensures (exists holder, path :: holder != e.p && LosesFile(s, e, holder, path)) <==> TakesLiveGuard(s, e)
  {
    hide Inv, LosesFile, TakesLiveGuard;
    if TakesLiveGuard(s, e) {
      var holder := LiveGuardIsLost(s, e);
      assert holder != e.p && LosesFile(s, e, holder, Guard);
    } else {
      forall holder, path | holder != e.p ensures !LosesFile(s, e, holder, path) {
        if LosesFile(s, e, holder, path) {
          OnlyLiveGuardsAreLost(s, e, holder, path);
        }
      }
    }
  }

  lemma LiveGuardIsLost(s: State, e: Event) returns (holder: Process)
    requires Inv(s) && TakesLiveGuard(s, e)
    ensures holder != e.p && LosesFile(s, e, holder, Guard)
  {
    hide Populated, Knows;
    holder := s.disk[Guard].owner;
  }

  lemma OnlyLiveGuardsAreLost(s: State, e: Event, holder: Process, path: Path)
    requires Inv(s) && CanFire(s, e) && holder != e.p && LosesFile(s, e, holder, path)
    ensures TakesLiveGuard(s, e)
  {
    hide Inv, Holds;
    if TakesGuardItRead(s, e) {
      HoldersKeepTheirFile(s, e, holder, path);
      assert false;
    }
    HolderOwns(s, holder, path);
  }

  /** Whatever another process does next, it leaves a live holder's file exactly as it is. */
  lemma HoldersAreNotDisplaced(events: seq<Event>, e: Event, holder: Process, path: Path)
    requires IsSoundRun(EMPTY, events)
    requires IsRun(EMPTY, events)
    requires holder in After(EMPTY, events).running && Holds(After(EMPTY, events).running[holder], path)
    requires CanFire(After(EMPTY, events), e) && TakesGuardItRead(After(EMPTY, events), e) && e.p != holder
    ensures var s := After(EMPTY, events);
      path in s.disk && path in Fire(s, e).disk && Fire(s, e).disk[path] == s.disk[path]
  {
    ReachableInv(events);
    HoldersKeepTheirFile(After(EMPTY, events), e, holder, path);
  }

  /** A file put aside for removal is the very one that was read, and its owner is dead;
      nothing ever has to be put back. */
  lemma OnlyDeadFilesAreReclaimed(events: seq<Event>, p: Process)
    requires IsSoundRun(EMPTY, events)
    requires IsRun(EMPTY, events)
    requires p in After(EMPTY, events).running
    ensures var s := After(EMPTY, events);
      var pc := s.running[p];
      && (pc.Displace? ==> pc.snapshot.owner in s.dead)
      && (pc.Displace? && pc.target != Guard ==> pc.target in s.disk && s.disk[pc.target] == pc.snapshot)
      && (pc.Discard? ==> pc.aside == pc.snapshot && pc.snapshot.owner in s.dead && pc.snapshot.owner !in s.running)
      && !pc.CheckVacant? && !pc.PutBack?
  {
    ReachableInv(events);
    KnowsItsPart(After(EMPTY, events), p);
  }

  /** Checking only the pid number before removing is enough, although pid numbers are reused. */
  lemma ReleasesRemoveOwnFiles(events: seq<Event>, p: Process)
    requires IsSoundRun(EMPTY, events)
    requires IsRun(EMPTY, events)
    requires p in After(EMPTY, events).running
    ensures var s := After(EMPTY, events);
      && (s.running[p].RemoveLock? ==> Lock in s.disk && s.disk[Lock].owner == p)
      && (s.running[p].RemoveMutex? ==> Mutex in s.disk && s.disk[Mutex].owner == p)
      && (s.running[p].RemoveGuard? ==> Guard in s.disk && s.disk[Guard].owner == p)
  {
    ReachableInv(events);
    var s := After(EMPTY, events);
    if s.running[p].RemoveLock? { HolderOwns(s, p, Lock); }
    if s.running[p].RemoveMutex? { HolderOwns(s, p, Mutex); }
    if s.running[p].RemoveGuard? { HolderOwns(s, p, Guard); }
  }

  // ---------------------------------------------------------------------------
  // Runs without deaths inside the guard

  /** A guard belongs to a live process, and nobody is about to take one aside. */
  ghost predicate GuardLives(s: State) {
    && (Guard in s.disk ==> s.disk[Guard].owner in s.running)
    && forall q <- s.running :: !(s.running[q].Displace? && s.running[q].target == Guard)
  }

  lemma GuardLivesOn(s: State, e: Event)
    requires Inv(s) && GuardLives(s) && CanFire(s, e) && SparesGuard(s, e)
    ensures TakesGuardItRead(s, e) && GuardLives(Fire(s, e))
  {
    var s' := Fire(s, e);
    NothingIsPutBack(s, e);
    GuardOwnerLives(s, e);
    forall q <- s'.running ensures !(s'.running[q].Displace? && s'.running[q].target == Guard) {
      if q != e.p {
        assert q in s.running;
        OthersStayPut(s, e, q);
      } else {
        NotTakingGuard(s, e);
      }
    }
  }

  lemma NotTakingGuard(s: State, e: Event)
    requires Inv(s) && GuardLives(s) && CanFire(s, e) && e.p in Fire(s, e).running
    ensures var pc := Fire(s, e).running[e.p]; !(pc.Displace? && pc.target == Guard)
  {
    hide Owned, Holds;
    if e.p in s.running { KnowsItsPart(s, e.p); }
  }

  lemma GuardOwnerLives(s: State, e: Event)
    requires Inv(s) && GuardLives(s) && CanFire(s, e) && SparesGuard(s, e)
    requires e.Call? ==> !s.running[e.p].PutBack? && !s.running[e.p].CheckVacant?
    ensures Guard in Fire(s, e).disk ==> Fire(s, e).disk[Guard].owner in Fire(s, e).running
  {
    hide Populated, Knows;
    if Guard in s.disk && Guard in Fire(s, e).disk {
      FilesAreNotRewritten(s, e, Guard);
    }
  }

  /** So a newer guard is only ever taken aside by mistake after some process died inside the guard. */
  lemma {:induction false} GuardSafeRunsAreSound(s: State, events: seq<Event>)
    requires Inv(s) && GuardLives(s) && IsGuardSafeRun(s, events)
    ensures IsSoundRun(s, events) && IsRun(s, events)
    ensures Inv(After(s, events)) && GuardLives(After(s, events))
    decreases |events|
  {
    hide Inv, Fire, TakesGuardItRead, SparesGuard, GuardLives;
    if events != [] {
      GuardLivesOn(s, events[0]);
      InvStep(s, events[0]);
      GuardSafeRunsAreSound(Fire(s, events[0]), events[1..]);
    }
  }

  /** In particular the lock excludes whenever nobody dies inside the guard, and then no guard is reclaimed. */
  lemma ExclusionWithoutGuardDeaths(events: seq<Event>, p: Process, q: Process, path: Path)
    requires IsGuardSafeRun(EMPTY, events)
    ensures IsSoundRun(EMPTY, events) && IsRun(EMPTY, events)
    ensures var s := After(EMPTY, events);
      && (p in s.running && Holds(s.running[p], path) && q in s.running && Holds(s.running[q], path) ==> p == q)
      && (p in s.running && s.running[p].Displace? ==> s.running[p].target != Guard)
      && (Guard in s.disk ==> s.disk[Guard].owner in s.running)
  {
    GuardSafeRunsAreSound(EMPTY, events);
    var s := After(EMPTY, events);
    if p in s.running && Holds(s.running[p], path) && q in s.running && Holds(s.running[q], path) {
      MutualExclusion(events, p, q, path);
    }
  }
}
