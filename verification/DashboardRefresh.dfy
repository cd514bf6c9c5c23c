/** Refreshing the dashboard. Refreshes are numbered as they start and overlap freely; a newer one
    supersedes an older one, and whoever needed the older one's result follows the newer one
    instead. Each piece of code that runs between two suspension points is one event here. */
module DashboardRefresh {
  import opened Wrappers
  import A = DashboardAuthority

  type Follower = nat

  datatype Outcome = Discarded | Succeeded | Superseded(newer: nat) | Failed(error: nat)

  /** How loading the broker's state ended. */
  datatype Reply =
    | Loads(state: A.Loaded)
    | IsCancelled
    | Fails(error: nat, partial: Option<A.Loaded>, hostConfigFileExists: bool)

  datatype Flight = Flight(silent: bool, stopGeneration: nat, setup: Option<nat>)

  datatype Thrown = Cancellation | LoadError(error: nat) | SupersededRepeatedly

  /** `from` is the refresh whose outcome is at hand. */
  datatype Phase =
    | Refreshing(generation: nat)
    | Has(outcome: Outcome, from: nat)
    | Waiting(generation: nat)
    | Returned(from: nat)
    | Threw(thrown: Thrown, from: nat)

  /** A mutation waiting for a refresh that began after it: `own` is the refresh it started itself,
      `installed` and `resumed` count its continuations. */
  datatype Following = Following(own: nat, followed: set<nat>, phase: Phase, installed: nat, resumed: nat)

  datatype State = State(
    generation: nat,
    stopGeneration: nat,
    setupGeneration: nat,
    visible: int,
    isRefreshing: bool,
    completed: map<nat, Outcome>,
    waiters: map<nat, set<Follower>>,
    authority: A.Authority,
    // What the store need not remember
    inFlight: map<nat, Flight>,
    outcomes: map<nat, Outcome>,
    forgotten: int,               // outcomes of earlier generations are no longer in `completed`
    published: seq<nat>,          // the refreshes that changed the authority, in order
    followers: map<Follower, Following>)

  function Initial(pane: A.Pane): State {
    State(0, 0, 0, 0, false, map[], map[], A.Initial(pane), map[], map[], -20, [], map[])
  }

  datatype Event =
    | Begin(silent: bool, stop: Option<nat>, setup: Option<nat>, cancelled: bool, caller: Option<Follower>)
    | Finish(generation: nat, reply: Reply, cancelled: bool)
    | Stop
    | AdvanceSetup
    | Follow(follower: Follower, cancelled: bool, cancelledAtInstall: bool)
    | CancelWaiter(follower: Follower, generation: nat)
    | Operate(operation: A.Event)     // what the operator does in between

  predicate CanHappen(s: State, e: Event) {
    match e
    case Begin(_, _, _, _, caller) => caller.Some? ==> caller.value !in s.followers
    case Finish(generation, _, _) => generation in s.inFlight
    case Follow(follower, _, _) => follower in s.followers && s.followers[follower].phase.Has?
    case Operate(operation) => !operation.Accepts? && !operation.Recovers? && !operation.Revokes?
                               && A.CanHappen(s.authority, operation)
    case _ => true
  }

  // ---------------------------------------------------------------------------
  // One event at a time

  predicate MayBegin(s: State, stop: Option<nat>, setup: Option<nat>, cancelled: bool) {
    && (stop.Some? ==> stop.value == s.stopGeneration)
    && (setup.Some? ==> setup.value == s.setupGeneration)
    && !cancelled
  }

  function Began(s: State, silent: bool, setup: Option<nat>): State {
    s.(generation := s.generation + 1,
       visible := if silent then s.visible else s.visible + 1,
       isRefreshing := s.isRefreshing || !silent,
       inFlight := s.inFlight[s.generation + 1 := Flight(silent, s.stopGeneration, setup)])
  }

  function Arrives(followers: map<Follower, Following>, caller: Option<Follower>, phase: Phase, own: nat)
    : map<Follower, Following>
  {
    if caller.None? then followers else followers[caller.value := Following(own, {}, phase, 0, 0)]
  }

  function Asked(s: State, silent: bool, stop: Option<nat>, setup: Option<nat>, cancelled: bool,
                 caller: Option<Follower>): State
  {
    if MayBegin(s, stop, setup, cancelled) then
      Began(s, silent, setup).(
        followers := Arrives(s.followers, caller, Refreshing(s.generation + 1), s.generation + 1))
    else
      s.(followers := Arrives(s.followers, caller, Has(Discarded, 0), 0))
  }

  /** What a refresh comes to, whichever way its load ended. */
  function Verdict(s: State, generation: nat, flight: Flight, reply: Reply, cancelled: bool): Outcome {
    if flight.stopGeneration != s.stopGeneration then Discarded
    else if flight.setup.Some? && flight.setup.value != s.setupGeneration then Discarded
    else if generation != s.generation then Superseded(s.generation)
    else if cancelled || reply.IsCancelled? then Discarded
    else if reply.Loads? then Succeeded
    else Failed(reply.error)
  }

  function Published(a: A.Authority, reply: Reply): A.Authority
    requires !reply.IsCancelled?
  {
    match reply
    case Loads(state) => A.Accept(a, state)
    case Fails(_, partial, hostConfigFileExists) =>
      if partial.Some? && (partial.value.service.None? || partial.value.requiresRestart)
      then A.Recover(a, partial.value)
      else A.Revoke(a, hostConfigFileExists)
  }

  function WaitersOn(s: State, generation: nat): set<Follower> {
    if generation in s.waiters then s.waiters[generation] else {}
  }

  function Told(f: Following, resumed: bool, generation: nat, outcome: Outcome): Following {
    if resumed then f.(phase := Has(outcome, generation), resumed := f.resumed + 1)
    else if f.phase == Refreshing(generation) then f.(phase := Has(outcome, generation))
    else f
  }

  function Retained(completed: map<nat, Outcome>, from: int): map<nat, Outcome> {
    map generation <- completed | from <= generation :: completed[generation]
  }

  function Completed(s: State, generation: nat, outcome: Outcome): State {
    s.(completed := Retained(s.completed[generation := outcome], s.generation - 20),
       waiters := s.waiters - {generation},
       inFlight := s.inFlight - {generation},
       outcomes := s.outcomes[generation := outcome],
       forgotten := s.generation - 20,
       followers := map f <- s.followers ::
         Told(s.followers[f], f in WaitersOn(s, generation), generation, outcome))
  }

  predicate IsUncounted(s: State, flight: Flight) {
    flight.silent || flight.stopGeneration != s.stopGeneration
  }

  /** The visible count is only lowered for a refresh that began since the last stop. */
  function Uncounted(s: State, flight: Flight): State {
    if IsUncounted(s, flight) then s
    else var visible := if s.visible > 0 then s.visible - 1 else 0;
         s.(visible := visible, isRefreshing := visible > 0)
  }

  function Finished(s: State, generation: nat, reply: Reply, cancelled: bool): State
    requires generation in s.inFlight
  {
    var flight := s.inFlight[generation];
    var outcome := Verdict(s, generation, flight, reply, cancelled);
    var done := Completed(s, generation, outcome);
    var shown := if Publishes(outcome)
      then done.(authority := Published(s.authority, reply), published := s.published + [generation])
      else done;
    Uncounted(shown, flight)
  }

  /** One turn of a mutation that has an outcome at hand. */
  function NextTurn(f: Following, completed: map<nat, Outcome>, cancelled: bool, cancelledAtInstall: bool): Following
    requires f.phase.Has?
  {
    if cancelled then f.(phase := Threw(Cancellation, f.phase.from))
    else match f.phase.outcome
      case Discarded => f.(phase := Threw(Cancellation, f.phase.from))
      case Failed(error) => f.(phase := Threw(LoadError(error), f.phase.from))
      case Succeeded => f.(phase := Returned(f.phase.from))
      case Superseded(newer) =>
        var next := f.(followed := f.followed + {newer});
        if newer in f.followed then f.(phase := Threw(SupersededRepeatedly, f.phase.from))
        else if newer in completed then next.(phase := Has(completed[newer], newer))
        else if cancelledAtInstall then
          next.(phase := Has(Discarded, newer), installed := f.installed + 1, resumed := f.resumed + 1)
        else next.(phase := Waiting(newer), installed := f.installed + 1)
  }

  function WithWaiter(s: State, follower: Follower, phase: Phase): map<nat, set<Follower>> {
    if phase.Waiting? then s.waiters[phase.generation := WaitersOn(s, phase.generation) + {follower}]
    else s.waiters
  }

  function Followed(s: State, follower: Follower, cancelled: bool, cancelledAtInstall: bool): State
    requires CanHappen(s, Follow(follower, cancelled, cancelledAtInstall))
  {
    var next := NextTurn(s.followers[follower], s.completed, cancelled, cancelledAtInstall);
    s.(waiters := WithWaiter(s, follower, next.phase), followers := s.followers[follower := next])
  }

  function WithoutWaiter(s: State, follower: Follower, generation: nat): map<nat, set<Follower>> {
    if WaitersOn(s, generation) - {follower} == {} then s.waiters - {generation}
    else s.waiters[generation := WaitersOn(s, generation) - {follower}]
  }

  function Cancelled(s: State, follower: Follower, generation: nat): State {
    if follower !in WaitersOn(s, generation) then s
    else
      s.(waiters := WithoutWaiter(s, follower, generation),
         followers :=
           if follower !in s.followers then s.followers
           else s.followers[follower := Told(s.followers[follower], true, generation, Discarded)])
  }

  function Stopped(s: State): State {
    s.(stopGeneration := s.stopGeneration + 1, visible := 0, isRefreshing := false)
  }

  function Operated(s: State, operation: A.Event): State
    requires A.CanHappen(s.authority, operation)
  {
    s.(authority := A.Happens(s.authority, operation))
  }

  function Happens(s: State, e: Event): State
    requires CanHappen(s, e)
  {
    match e
    case Begin(silent, stop, setup, cancelled, caller) =>
      Asked(s, silent, stop, setup, cancelled, caller)
    case Finish(generation, reply, cancelled) => Finished(s, generation, reply, cancelled)
    case Stop => Stopped(s)
    case AdvanceSetup => s.(setupGeneration := s.setupGeneration + 1)
    case Follow(follower, cancelled, cancelledAtInstall) => Followed(s, follower, cancelled, cancelledAtInstall)
    case CancelWaiter(follower, generation) => Cancelled(s, follower, generation)
    case Operate(operation) => Operated(s, operation)
  }

  // ---------------------------------------------------------------------------
  // What each event does, on generations, replies and phases

  /** Refreshes may be asked for, stopped, cancelled and finished in any order; a mutation asks once,
      and takes a turn whenever it has an outcome at hand. */
  lemma EventsAreOpen(s: State, e: Event)
    ensures e.Begin? ==> (CanHappen(s, e) <==> e.caller == None || e.caller.value !in s.followers.Keys)
    ensures e.Finish? ==> (CanHappen(s, e) <==> e.generation in s.inFlight.Keys)
    ensures e.Follow? ==> (CanHappen(s, e) <==> e.follower in s.followers.Keys && s.followers[e.follower].phase.Has?)
    ensures e.Stop? || e.AdvanceSetup? || e.CancelWaiter? ==> CanHappen(s, e)
    ensures e.Operate? ==>
      (CanHappen(s, e) <==>
        A.CanHappen(s.authority, e.operation)
        && !(e.operation.Accepts? || e.operation.Recovers? || e.operation.Revokes?))
  {
  }

  /** Which outcome a finishing refresh has. */
  lemma OutcomeIsExactly(s: State, generation: nat, reply: Reply, cancelled: bool, error: nat)
    requires generation in s.inFlight
    ensures var outcome := Finished(s, generation, reply, cancelled).outcomes[generation];
      var flight := s.inFlight[generation];
      var overtaken := flight.stopGeneration != s.stopGeneration
        || (flight.setup != None && flight.setup != Some(s.setupGeneration));
      var newest := generation == s.generation;
      && (outcome == Succeeded <==> newest && !overtaken && !cancelled && reply.Loads?)
      && (outcome == Failed(error) <==> newest && !overtaken && !cancelled && reply.Fails? && reply.error == error)
      && (outcome.Superseded? <==> !newest && !overtaken)
      && (outcome.Superseded? ==> outcome.newer == s.generation)
      && (outcome == Discarded <==> overtaken || (newest && (cancelled || reply == IsCancelled)))
  {
    hide Completed, Uncounted, Published;
    FinishedRecords(s, generation, reply, cancelled,
                    Verdict(s, generation, s.inFlight[generation], reply, cancelled),
                    Finished(s, generation, reply, cancelled));
  }

  /** What is known of the service afterwards: the state just loaded; after a failure, no service that
      could be commanded unless none was configured; and otherwise what was known before. */
  lemma KnowledgeIsExactly(s: State, generation: nat, reply: Reply, cancelled: bool)
    requires generation in s.inFlight
    ensures var t := Finished(s, generation, reply, cancelled);
      var partial := reply.Fails? && reply.partial.Some?
        && (reply.partial.value.service == None || reply.partial.value.requiresRestart);
      && (t.outcomes[generation] == Succeeded ==>
            t.authority.loaded == Some(reply.state) && t.authority.unverified == false)
      && (t.outcomes[generation].Failed? && partial ==>
            && t.authority == A.Happens(s.authority, A.Recovers(reply.partial.value)))
      && (t.outcomes[generation].Failed? && !partial ==>
            && t.authority == A.Happens(s.authority, A.Revokes(reply.hostConfigFileExists)))
      && (!t.outcomes[generation].Succeeded? && !t.outcomes[generation].Failed? ==> t.authority == s.authority)
  {
    var outcome := Verdict(s, generation, s.inFlight[generation], reply, cancelled);
    FinishedRecords(s, generation, reply, cancelled, outcome, Finished(s, generation, reply, cancelled));
    FinishedCounts(s, generation, reply, cancelled, outcome, Finished(s, generation, reply, cancelled));
    hide Finished, Completed, Retained;
  }

  /** A refresh begins unless a stop or set-up came first or its task is cancelled. */
  lemma BeginIsExactly(s: State, e: Event, t: State, begins: bool)
    requires e.Begin? && CanHappen(s, e) && t == Happens(s, e)
    requires begins <==> !e.cancelled && (e.stop == None || e.stop == Some(s.stopGeneration))
                         && (e.setup == None || e.setup == Some(s.setupGeneration))
    ensures t.generation == if begins then s.generation + 1 else s.generation
    ensures t.inFlight == if begins then s.inFlight[s.generation + 1 := Flight(e.silent, s.stopGeneration, e.setup)]
                          else s.inFlight
    ensures t.visible == if begins && !e.silent then s.visible + 1 else s.visible
    ensures t.isRefreshing == (s.isRefreshing || (begins && !e.silent))
    ensures t.outcomes == s.outcomes && t.completed == s.completed && t.waiters == s.waiters && t.authority == s.authority
  {
    assert t == Asked(s, e.silent, e.stop, e.setup, e.cancelled, e.caller);
    hide Happens, Arrives;
  }

  /** And whoever asked for it waits for its end, or has nothing but a discarded refresh. */
  lemma CallerIsExactly(s: State, e: Event)
    requires e.Begin? && CanHappen(s, e) && e.caller.Some?
    ensures var t := Happens(s, e);
      && e.caller.value in t.followers
      && t.followers[e.caller.value] ==
           (if t.generation == s.generation then Following(0, {}, Has(Discarded, 0), 0, 0)
            else Following(t.generation, {}, Refreshing(t.generation), 0, 0))
  {
    assert Happens(s, e) == Asked(s, e.silent, e.stop, e.setup, e.cancelled, e.caller);
    hide Happens;
  }

  /** After a refresh the outcomes of the last twenty are kept, its own among them. */
  lemma FinishRemembers(s: State, generation: nat, reply: Reply, cancelled: bool, other: nat)
    requires generation in s.inFlight
    ensures var t := Finished(s, generation, reply, cancelled);
      && (other in t.completed <==> (other in s.completed || other == generation) && other >= s.generation - 20)
      && (other in t.completed ==>
            t.completed[other] == if other == generation then t.outcomes[generation] else s.completed[other])
      && generation !in t.inFlight && generation !in t.waiters
  {
    var outcome := Verdict(s, generation, s.inFlight[generation], reply, cancelled);
    FinishedRecords(s, generation, reply, cancelled, outcome, Finished(s, generation, reply, cancelled));
    hide Finished, Completed, Verdict;
  }

  /** A mutation's turn: it is thrown out when cancelled; it returns on success, throws on a failure
      or a discarded refresh, and turns to the newer refresh of one superseded, whose outcome it has
      at once if it is still kept, and waits for otherwise. */
  lemma TurnIsExactly(s: State, follower: Follower, cancelled: bool, cancelledAtInstall: bool)
    requires CanHappen(s, Follow(follower, cancelled, cancelledAtInstall))
    ensures var t := Followed(s, follower, cancelled, cancelledAtInstall);
      var had := s.followers[follower].phase;
      follower in t.followers && var now := t.followers[follower].phase;
      && (cancelled ==> now == Threw(Cancellation, had.from))
      && (!cancelled && had.outcome == Succeeded ==> now == Returned(had.from))
      && (!cancelled && had.outcome.Failed? ==> now == Threw(LoadError(had.outcome.error), had.from))
      && (!cancelled && had.outcome == Discarded ==> now == Threw(Cancellation, had.from))
      && (!cancelled && had.outcome.Superseded? ==>
            var newer := had.outcome.newer;
            if newer in s.followers[follower].followed then now == Threw(SupersededRepeatedly, had.from)
            else if newer in s.completed then now == Has(s.completed[newer], newer)
            else if cancelledAtInstall then now == Has(Discarded, newer)
            else now == Waiting(newer) && newer in t.waiters && follower in t.waiters[newer])
    ensures forall other <- s.followers | other != follower ::
      var t := Followed(s, follower, cancelled, cancelledAtInstall);
      other in t.followers && t.followers[other] == s.followers[other]
  {
  }

  /** Cancelling a waiter ends its wait, with nothing to show for it, and nobody else's. */
  lemma CancellingEndsTheWait(s: State, follower: Follower, generation: nat)
    requires follower in s.followers && generation in s.waiters && follower in s.waiters[generation]
    ensures var t := Happens(s, CancelWaiter(follower, generation));
      && follower in t.followers && t.followers[follower].phase == Has(Discarded, generation)
      && t.followers[follower].resumed == s.followers[follower].resumed + 1
      && (forall other, g :: (g in t.waiters && other in t.waiters[g]) <==>
            (g in s.waiters && other in s.waiters[g] && !(other == follower && g == generation)))
  {
    var t := Happens(s, CancelWaiter(follower, generation));
    var left := s.waiters[generation] - {follower};
    assert WaitersOn(s, generation) - {follower} == left;
    forall other, g
      ensures (g in t.waiters && other in t.waiters[g]) <==>
        (g in s.waiters && other in s.waiters[g] && !(other == follower && g == generation))
    {
      assert other in left <==> other in s.waiters[generation] && other != follower;
    }
  }

  lemma StopIsExactly(s: State)
    ensures var t := Happens(s, Stop);
      && t.stopGeneration == s.stopGeneration + 1 && t.visible == 0 && !t.isRefreshing
      && t.inFlight == s.inFlight && t.followers == s.followers && t.waiters == s.waiters && t.authority == s.authority
    ensures Happens(s, AdvanceSetup) == s.(setupGeneration := s.setupGeneration + 1)
  {
  }

  // ---------------------------------------------------------------------------
  // What every event keeps

  /** Every refresh ever started is under way or has its one outcome. */
  ghost predicate Accounted(generation: nat, stopGeneration: nat, inFlight: map<nat, Flight>, outcomes: map<nat, Outcome>) {
    && (forall g: nat :: (1 <= g <= generation) == (g in inFlight || g in outcomes))
    && (forall g <- inFlight :: g !in outcomes && inFlight[g].stopGeneration <= stopGeneration)
  }

  ghost predicate PointsForward(generation: nat, outcomes: map<nat, Outcome>) {
    forall g <- outcomes | outcomes[g].Superseded? :: g < outcomes[g].newer <= generation
  }

  function VisibleFlights(inFlight: map<nat, Flight>, stopGeneration: nat): set<nat> {
    set g <- inFlight | !inFlight[g].silent && inFlight[g].stopGeneration == stopGeneration
  }

  ghost predicate Counted(visible: int, isRefreshing: bool, inFlight: map<nat, Flight>, stopGeneration: nat) {
    && visible == |VisibleFlights(inFlight, stopGeneration)|
    && isRefreshing == (visible > 0)
  }

  predicate Publishes(outcome: Outcome) { outcome.Succeeded? || outcome.Failed? }

  ghost predicate InOrder(generation: nat, published: seq<nat>, outcomes: map<nat, Outcome>) {
    && (forall i, j | 0 <= i < j < |published| :: published[i] < published[j])
    && (forall g <- published :: g <= generation && g in outcomes && Publishes(outcomes[g]))
    && (forall g <- outcomes | Publishes(outcomes[g]) :: g in published)
  }

  /** The store remembers exactly the outcomes of recent enough refreshes. */
  ghost predicate Remembers(completed: map<nat, Outcome>, outcomes: map<nat, Outcome>, forgotten: int) {
    completed == Retained(outcomes, forgotten)
  }

  ghost predicate WaitersMatch(waiters: map<nat, set<Follower>>, followers: map<Follower, Following>) {
    && (forall g <- waiters :: waiters[g] != {})
    && (forall g <- waiters, f <- waiters[g] :: f in followers && followers[f].phase == Waiting(g))
    && (forall f <- followers | followers[f].phase.Waiting? ::
          var g := followers[f].phase.generation; g in waiters && f in waiters[g])
  }

  ghost predicate GoodFollowing(f: Following, inFlight: map<nat, Flight>, outcomes: map<nat, Outcome>, forgotten: int) {
    && f.installed == f.resumed + (if f.phase.Waiting? then 1 else 0)
    && match f.phase
       case Refreshing(g) => g == f.own && f.followed == {} && g in inFlight
       case Has(outcome, from) =>
         && f.own <= from
         && (forall g <- f.followed :: g <= from)
         && (!outcome.Discarded? ==> from in outcomes && outcomes[from] == outcome)
       case Waiting(g) =>
         && f.own <= g
         && (forall other <- f.followed :: other <= g)
         && (g in inFlight || (g in outcomes && g < forgotten))
       case Returned(from) => f.own <= from && from in outcomes && outcomes[from] == Succeeded
       case Threw(thrown, from) =>
         && thrown != SupersededRepeatedly
         && (thrown.LoadError? ==> f.own <= from && from in outcomes && outcomes[from] == Failed(thrown.error))
  }

  ghost predicate GoodFollowers(followers: map<Follower, Following>, inFlight: map<nat, Flight>,
                                outcomes: map<nat, Outcome>, forgotten: int) {
    forall f <- followers :: GoodFollowing(followers[f], inFlight, outcomes, forgotten)
  }

  ghost predicate Inv(s: State) {
    && A.Inv(s.authority)
    && s.forgotten <= s.generation - 20
    && Accounted(s.generation, s.stopGeneration, s.inFlight, s.outcomes)
    && PointsForward(s.generation, s.outcomes)
    && Counted(s.visible, s.isRefreshing, s.inFlight, s.stopGeneration)
    && InOrder(s.generation, s.published, s.outcomes)
    && Remembers(s.completed, s.outcomes, s.forgotten)
    && WaitersMatch(s.waiters, s.followers)
    && GoodFollowers(s.followers, s.inFlight, s.outcomes, s.forgotten)
  }

  lemma BeginKeepsInv(s: State, silent: bool, setup: Option<nat>)
    requires Inv(s)
    ensures Inv(Began(s, silent, setup))
  {
    var t := Began(s, silent, setup);
    BeginKeepsCount(s, silent, setup);
    BeginKeepsFollowers(s, silent, setup);
    hide A.Inv, Counted, WaitersMatch, GoodFollowers, Remembers;
  }

  lemma BeginKeepsCount(s: State, silent: bool, setup: Option<nat>)
    requires Counted(s.visible, s.isRefreshing, s.inFlight, s.stopGeneration)
    requires Accounted(s.generation, s.stopGeneration, s.inFlight, s.outcomes)
    ensures var t := Began(s, silent, setup); Counted(t.visible, t.isRefreshing, t.inFlight, t.stopGeneration)
  {
    assert s.generation + 1 !in s.inFlight;
    VisibleWith(s.inFlight, s.stopGeneration, s.generation + 1, Flight(silent, s.stopGeneration, setup));
    hide Accounted, VisibleFlights;
  }

  lemma VisibleWith(inFlight: map<nat, Flight>, stopGeneration: nat, generation: nat, flight: Flight)
    requires generation !in inFlight && flight.stopGeneration == stopGeneration
    ensures |VisibleFlights(inFlight[generation := flight], stopGeneration)| ==
            |VisibleFlights(inFlight, stopGeneration)| + if flight.silent then 0 else 1
  {
    assert VisibleFlights(inFlight[generation := flight], stopGeneration) ==
           VisibleFlights(inFlight, stopGeneration) + if flight.silent then {} else {generation};
  }

  lemma BeginKeepsFollowers(s: State, silent: bool, setup: Option<nat>)
    requires GoodFollowers(s.followers, s.inFlight, s.outcomes, s.forgotten)
    ensures var t := Began(s, silent, setup); GoodFollowers(t.followers, t.inFlight, t.outcomes, t.forgotten)
  {
    hide GoodFollowing;
    var t := Began(s, silent, setup);
    forall f <- t.followers ensures GoodFollowing(t.followers[f], t.inFlight, t.outcomes, t.forgotten) {
      MoreFlights(s.followers[f], s.inFlight, t.inFlight, s.outcomes, s.forgotten);
    }
  }

  lemma MoreFlights(f: Following, before: map<nat, Flight>, after: map<nat, Flight>,
                    outcomes: map<nat, Outcome>, forgotten: int)
    requires GoodFollowing(f, before, outcomes, forgotten) && before.Keys <= after.Keys
    ensures GoodFollowing(f, after, outcomes, forgotten)
  {
  }

  lemma ArrivalKeepsInv(s: State, caller: Option<Follower>, phase: Phase, own: nat)
    requires Inv(s) && (caller.Some? ==> caller.value !in s.followers)
    requires phase == Has(Discarded, own) || (phase == Refreshing(own) && own in s.inFlight)
    ensures Inv(s.(followers := Arrives(s.followers, caller, phase, own)))
  {
    hide Accounted, PointsForward, Counted, InOrder, Remembers;
  }

  lemma StopKeepsInv(s: State)
    requires Inv(s)
    ensures Inv(Happens(s, Stop)) && Inv(Happens(s, AdvanceSetup))
  {
    hide WaitersMatch, GoodFollowers, Remembers, InOrder, PointsForward;
    assert VisibleFlights(s.inFlight, s.stopGeneration + 1) == {};
  }

  // Finishing a refresh, one part of the invariant at a time

  lemma FinishedRecords(s: State, generation: nat, reply: Reply, cancelled: bool, outcome: Outcome, t: State)
    requires generation in s.inFlight && t == Finished(s, generation, reply, cancelled)
    requires outcome == Verdict(s, generation, s.inFlight[generation], reply, cancelled)
    ensures t.completed == Retained(s.completed[generation := outcome], s.generation - 20)
    ensures t.waiters == s.waiters - {generation}
    ensures t.inFlight == s.inFlight - {generation}
    ensures t.outcomes == s.outcomes[generation := outcome]
    ensures t.forgotten == s.generation - 20
    ensures t.followers == Completed(s, generation, outcome).followers
  {
    hide Published, Retained, Told, Verdict, WaitersOn, Publishes, IsUncounted;
  }

  lemma FinishedCounts(s: State, generation: nat, reply: Reply, cancelled: bool, outcome: Outcome, t: State)
    requires generation in s.inFlight && t == Finished(s, generation, reply, cancelled)
    requires outcome == Verdict(s, generation, s.inFlight[generation], reply, cancelled)
    ensures t.generation == s.generation
    ensures t.stopGeneration == s.stopGeneration && t.setupGeneration == s.setupGeneration
    ensures t.authority == if Publishes(outcome) then Published(s.authority, reply) else s.authority
    ensures t.published == if Publishes(outcome) then s.published + [generation] else s.published
    ensures t.visible == if IsUncounted(s, s.inFlight[generation]) then s.visible
                         else if s.visible > 1 then s.visible - 1 else 0
    ensures t.isRefreshing == if IsUncounted(s, s.inFlight[generation]) then s.isRefreshing else t.visible > 0
  {
    hide Published, Retained, Told, Verdict, WaitersOn, Publishes;
  }

  lemma FinishKeepsCount(s: State, generation: nat, reply: Reply, cancelled: bool)
    requires Counted(s.visible, s.isRefreshing, s.inFlight, s.stopGeneration) && generation in s.inFlight
    ensures var t := Finished(s, generation, reply, cancelled);
            Counted(t.visible, t.isRefreshing, t.inFlight, t.stopGeneration)
  {
    var t := Finished(s, generation, reply, cancelled);
    var outcome := Verdict(s, generation, s.inFlight[generation], reply, cancelled);
    FinishedRecords(s, generation, reply, cancelled, outcome, t);
    FinishedCounts(s, generation, reply, cancelled, outcome, t);
    hide Finished, Verdict, Retained, Completed, Published;
    VisibleWithout(s.inFlight, s.stopGeneration, generation);
  }

  lemma VisibleWithout(inFlight: map<nat, Flight>, stopGeneration: nat, generation: nat)
    requires generation in inFlight
    ensures VisibleFlights(inFlight - {generation}, stopGeneration) == VisibleFlights(inFlight, stopGeneration) - {generation}
    ensures |VisibleFlights(inFlight - {generation}, stopGeneration)| == |VisibleFlights(inFlight, stopGeneration)|
            - if !inFlight[generation].silent && inFlight[generation].stopGeneration == stopGeneration then 1 else 0
  {
    assert VisibleFlights(inFlight - {generation}, stopGeneration) == VisibleFlights(inFlight, stopGeneration) - {generation};
  }

  lemma FinishKeepsMemory(completed: map<nat, Outcome>, outcomes: map<nat, Outcome>, forgotten: int,
                          generation: nat, outcome: Outcome, later: int)
    requires Remembers(completed, outcomes, forgotten) && forgotten <= later
    ensures Remembers(Retained(completed[generation := outcome], later), outcomes[generation := outcome], later)
  {
  }

  lemma FinishKeepsWaiters(s: State, generation: nat, outcome: Outcome)
    requires WaitersMatch(s.waiters, s.followers)
    ensures WaitersMatch(Completed(s, generation, outcome).waiters, Completed(s, generation, outcome).followers)
  {
    hide Retained;
    var t := Completed(s, generation, outcome);
    forall f <- t.followers
      ensures t.followers[f].phase.Waiting? <==> s.followers[f].phase.Waiting? && s.followers[f].phase != Waiting(generation)
      ensures t.followers[f].phase.Waiting? ==> t.followers[f].phase == s.followers[f].phase
    {
      WaitersAre(s, generation, f);
    }
    hide Told, WaitersOn;
  }

  lemma ToldIsGood(f: Following, resumed: bool, generation: nat, outcome: Outcome, s: State)
    requires GoodFollowing(f, s.inFlight, s.outcomes, s.forgotten) && s.forgotten <= s.generation - 20
    requires resumed == (f.phase == Waiting(generation))
    requires generation in s.inFlight && generation !in s.outcomes
    ensures GoodFollowing(Told(f, resumed, generation, outcome),
                          s.inFlight - {generation}, s.outcomes[generation := outcome], s.generation - 20)
  {
  }

  lemma FinishKeepsFollowers(s: State, generation: nat, outcome: Outcome)
    requires s.forgotten <= s.generation - 20 && generation in s.inFlight && generation !in s.outcomes
    requires WaitersMatch(s.waiters, s.followers)
    requires GoodFollowers(s.followers, s.inFlight, s.outcomes, s.forgotten)
    ensures var t := Completed(s, generation, outcome);
            GoodFollowers(t.followers, t.inFlight, t.outcomes, t.forgotten)
  {
    hide GoodFollowing, Told, WaitersMatch, WaitersOn, Retained;
    var t := Completed(s, generation, outcome);
    forall f <- t.followers ensures GoodFollowing(t.followers[f], t.inFlight, t.outcomes, t.forgotten) {
      WaitersAre(s, generation, f);
      ToldIsGood(s.followers[f], f in WaitersOn(s, generation), generation, outcome, s);
    }
  }

  lemma WaitersAre(s: State, generation: nat, f: Follower)
    requires WaitersMatch(s.waiters, s.followers) && f in s.followers
    ensures f in WaitersOn(s, generation) <==> s.followers[f].phase == Waiting(generation)
  {
  }

  lemma FinishKeepsOrder(s: State, generation: nat, outcome: Outcome, published: seq<nat>)
    requires Accounted(s.generation, s.stopGeneration, s.inFlight, s.outcomes)
    requires PointsForward(s.generation, s.outcomes) && InOrder(s.generation, s.published, s.outcomes)
    requires generation in s.inFlight
    requires outcome.Superseded? ==> outcome.newer == s.generation != generation
    requires Publishes(outcome) ==> generation == s.generation
    requires published == if Publishes(outcome) then s.published + [generation] else s.published
    ensures var outcomes := s.outcomes[generation := outcome];
            && Accounted(s.generation, s.stopGeneration, s.inFlight - {generation}, outcomes)
            && PointsForward(s.generation, outcomes)
            && InOrder(s.generation, published, outcomes)
  {
    var outcomes := s.outcomes[generation := outcome];
    forall i | 0 <= i < |s.published| ensures s.published[i] < s.generation || !Publishes(outcome) {
      assert s.published[i] in s.published && generation !in s.outcomes;
    }
    forall g <- outcomes | Publishes(outcomes[g]) ensures g in published {
      if g != generation {
        assert g in s.outcomes && g in s.published;
      }
    }
  }

  lemma PublishedKeepsInv(a: A.Authority, reply: Reply)
    requires A.Inv(a) && !reply.IsCancelled?
    ensures A.Inv(Published(a, reply)) && Published(a, reply).epoch >= a.epoch
    ensures Published(a, reply).epoch == a.epoch ==> A.KnowledgeOf(Published(a, reply)) == A.KnowledgeOf(a)
  {
    var e := match reply
      case Loads(state) => A.Accepts(state)
      case Fails(_, partial, host) =>
        if partial.Some? && (partial.value.service.None? || partial.value.requiresRestart)
        then A.Recovers(partial.value) else A.Revokes(host);
    A.StepKeepsInv(a, e);
    A.StepKeepsEpochs(a, e);
  }

  lemma UnderWayIsOpen(s: State, generation: nat)
    requires Accounted(s.generation, s.stopGeneration, s.inFlight, s.outcomes) && generation in s.inFlight
    ensures generation !in s.outcomes
  {
  }

  lemma FinishKeepsInv(s: State, generation: nat, reply: Reply, cancelled: bool)
    requires Inv(s) && generation in s.inFlight
    ensures Inv(Finished(s, generation, reply, cancelled))
  {
    hide Accounted, PointsForward, InOrder, WaitersMatch, GoodFollowers, Remembers, Counted, Told, WaitersOn;
    hide A.Inv, Published;
    var outcome := Verdict(s, generation, s.inFlight[generation], reply, cancelled);
    if Publishes(outcome) { PublishedKeepsInv(s.authority, reply); }
    FinishedRecords(s, generation, reply, cancelled, outcome, Finished(s, generation, reply, cancelled));
    FinishedCounts(s, generation, reply, cancelled, outcome, Finished(s, generation, reply, cancelled));
    assert generation !in s.outcomes by { UnderWayIsOpen(s, generation); }
    assert outcome.Superseded? ==> outcome.newer == s.generation != generation;
    assert Publishes(outcome) ==> generation == s.generation;
    hide Finished, Verdict, Publishes;
    FinishKeepsCount(s, generation, reply, cancelled);
    FinishKeepsMemory(s.completed, s.outcomes, s.forgotten, generation, outcome, s.generation - 20);
    FinishKeepsWaiters(s, generation, outcome);
    FinishKeepsFollowers(s, generation, outcome);
    FinishKeepsOrder(s, generation, outcome, Finished(s, generation, reply, cancelled).published);
  }

  // Following

  lemma NextTurnIsGood(s: State, f: Following, cancelled: bool, cancelledAtInstall: bool)
    requires Accounted(s.generation, s.stopGeneration, s.inFlight, s.outcomes)
    requires PointsForward(s.generation, s.outcomes) && Remembers(s.completed, s.outcomes, s.forgotten)
    requires GoodFollowing(f, s.inFlight, s.outcomes, s.forgotten) && f.phase.Has?
    ensures GoodFollowing(NextTurn(f, s.completed, cancelled, cancelledAtInstall),
                          s.inFlight, s.outcomes, s.forgotten)
  {
  }

  lemma FollowKeepsWaiters(s: State, follower: Follower, next: Following)
    requires WaitersMatch(s.waiters, s.followers)
    requires follower in s.followers && !s.followers[follower].phase.Waiting?
    ensures WaitersMatch(WithWaiter(s, follower, next.phase), s.followers[follower := next])
  {
  }

  lemma FollowKeepsInv(s: State, follower: Follower, cancelled: bool, cancelledAtInstall: bool)
    requires Inv(s) && CanHappen(s, Follow(follower, cancelled, cancelledAtInstall))
    ensures Inv(Followed(s, follower, cancelled, cancelledAtInstall))
  {
    hide Accounted, PointsForward, InOrder, WaitersMatch, Remembers, Counted, GoodFollowing, NextTurn, WithWaiter;
    NextTurnIsGood(s, s.followers[follower], cancelled, cancelledAtInstall);
    FollowKeepsWaiters(s, follower, NextTurn(s.followers[follower], s.completed, cancelled, cancelledAtInstall));
  }

  lemma CancelKeepsWaiters(s: State, follower: Follower, generation: nat)
    requires WaitersMatch(s.waiters, s.followers)
    ensures WaitersMatch(Cancelled(s, follower, generation).waiters, Cancelled(s, follower, generation).followers)
  {
    var t := Cancelled(s, follower, generation);
    forall f <- t.followers | t.followers[f].phase.Waiting?
      ensures var g := t.followers[f].phase.generation; g in t.waiters && f in t.waiters[g]
    {
      assert f in s.followers && t.followers[f] == s.followers[f];
      assert f in WaitersOn(s, t.followers[f].phase.generation);
      assert t != s ==> f != follower && (t.followers[f].phase.generation == generation ==>
          f in WaitersOn(s, generation) - {follower});
    }
  }

  lemma CancelKeepsInv(s: State, follower: Follower, generation: nat)
    requires Inv(s)
    ensures Inv(Cancelled(s, follower, generation))
  {
    hide Accounted, PointsForward, InOrder, Remembers, Counted;
    CancelKeepsWaiters(s, follower, generation);
  }

  lemma OperateKeepsInv(s: State, operation: A.Event)
    requires Inv(s) && CanHappen(s, Operate(operation))
    ensures Inv(Happens(s, Operate(operation)))
  {
    hide Accounted, PointsForward, InOrder, WaitersMatch, Remembers, Counted, A.Inv, A.Happens;
    A.StepKeepsInv(s.authority, operation);
  }

  lemma StepKeepsInv(s: State, e: Event)
    requires Inv(s) && CanHappen(s, e)
    ensures Inv(Happens(s, e))
  {
    hide Inv, Finished, Followed, Cancelled, MayBegin, Arrives;
    match e
    case Begin(silent, stop, setup, cancelled, caller) =>
      if MayBegin(s, stop, setup, cancelled) {
        BeginKeepsInv(s, silent, setup);
        ArrivalKeepsInv(Began(s, silent, setup), caller, Refreshing(s.generation + 1), s.generation + 1);
      } else {
        ArrivalKeepsInv(s, caller, Has(Discarded, 0), 0);
      }
    case Finish(generation, reply, cancelled) => FinishKeepsInv(s, generation, reply, cancelled);
    case Follow(follower, cancelled, cancelledAtInstall) =>
      FollowKeepsInv(s, follower, cancelled, cancelledAtInstall);
    case CancelWaiter(follower, generation) => CancelKeepsInv(s, follower, generation);
    case Operate(operation) => OperateKeepsInv(s, operation);
    case _ => StopKeepsInv(s);
  }

  // ---------------------------------------------------------------------------
  // Runs

  predicate IsRun(s: State, events: seq<Event>)
    decreases |events|
  {
    events != [] ==> CanHappen(s, events[0]) && IsRun(Happens(s, events[0]), events[1..])
  }

  function After(s: State, events: seq<Event>): State
    requires IsRun(s, events)
    decreases |events|
  {
    if events == [] then s else After(Happens(s, events[0]), events[1..])
  }

  lemma {:induction false} RunKeepsInv(s: State, events: seq<Event>)
    requires Inv(s) && IsRun(s, events)
    ensures Inv(After(s, events))
    decreases |events|
  {
    if events != [] {
      StepKeepsInv(s, events[0]);
      RunKeepsInv(Happens(s, events[0]), events[1..]);
    }
  }

  lemma StoresStartWell(pane: A.Pane)
    ensures Inv(Initial(pane))
  {
    assert VisibleFlights(Initial(pane).inFlight, 0) == {};
  }

  /** Only a finishing refresh changes what is known of the service, and only when it is the newest
      one started and no stop came since it began. The epoch tells whether anything changed. */
  lemma OnlyTheNewestPublishes(s: State, e: Event)
    requires Inv(s) && CanHappen(s, e) && !e.Operate?
    ensures var t := Happens(s, e);
            t.authority != s.authority || t.published != s.published ==>
              && e.Finish? && e.generation == s.generation
              && s.inFlight[e.generation].stopGeneration == s.stopGeneration
              && t.published == s.published + [s.generation]
              && Publishes(t.outcomes[s.generation])
    ensures Happens(s, e).authority.epoch >= s.authority.epoch
    ensures Happens(s, e).authority.epoch == s.authority.epoch ==>
              A.KnowledgeOf(Happens(s, e).authority) == A.KnowledgeOf(s.authority)
  {
    if e.Finish? {
      var outcome := Verdict(s, e.generation, s.inFlight[e.generation], e.reply, e.cancelled);
      assert Publishes(outcome) ==>
        e.generation == s.generation && s.inFlight[e.generation].stopGeneration == s.stopGeneration && !e.reply.IsCancelled?;
      FinishedRecords(s, e.generation, e.reply, e.cancelled, outcome, Happens(s, e));
      FinishedCounts(s, e.generation, e.reply, e.cancelled, outcome, Happens(s, e));
      hide A.Inv, Finished, Completed, Verdict, Publishes, Retained, Published, A.KnowledgeOf;
      if Publishes(outcome) { PublishedKeepsInv(s.authority, e.reply); }
    } else {
      hide A.Inv, A.KnowledgeOf, Finished, NextTurn, WithWaiter, WithoutWaiter, Told, Arrives;
    }
  }

  lemma OutcomeStays(s: State, e: Event, generation: nat)
    requires Inv(s) && CanHappen(s, e) && generation in s.outcomes
    ensures generation in Happens(s, e).outcomes && Happens(s, e).outcomes[generation] == s.outcomes[generation]
  {
    if e.Finish? {
      UnderWayIsOpen(s, e.generation);
      FinishedRecords(s, e.generation, e.reply, e.cancelled,
                      Verdict(s, e.generation, s.inFlight[e.generation], e.reply, e.cancelled), Happens(s, e));
      hide Inv, Finished, Completed, Verdict, Publishes, Retained;
    } else {
      hide Inv, Finished, NextTurn, WithWaiter, WithoutWaiter, Told, Arrives, A.Happens;
    }
  }

  /** An outcome, once given, is the only one: refreshes end once, in whatever order. */
  lemma {:induction false} OutcomesAreFinal(s: State, events: seq<Event>, generation: nat)
    requires Inv(s) && IsRun(s, events) && generation in s.outcomes
    ensures var t := After(s, events);
            && generation in t.outcomes && t.outcomes[generation] == s.outcomes[generation]
            && generation !in t.inFlight
    decreases |events|
  {
    if events != [] {
      StepKeepsInv(s, events[0]);
      OutcomeStays(s, events[0], generation);
      OutcomesAreFinal(Happens(s, events[0]), events[1..], generation);
    }
  }

  /** What holds whenever the store rests between two pieces of its code. */
  lemma ReachableStates(pane: A.Pane, events: seq<Event>)
    requires IsRun(Initial(pane), events)
    ensures var s := After(Initial(pane), events);
            && (forall g: nat | 1 <= g <= s.generation :: (g in s.inFlight) != (g in s.outcomes))
            && (forall g <- s.outcomes | s.outcomes[g].Superseded? :: g < s.outcomes[g].newer <= s.generation)
            && s.visible == |VisibleFlights(s.inFlight, s.stopGeneration)|
            && s.isRefreshing == (s.visible > 0)
            && (forall i, j | 0 <= i < j < |s.published| :: s.published[i] < s.published[j])
            && (forall g: nat :: g in s.published <==> (g in s.outcomes && Publishes(s.outcomes[g])))
  {
    StoresStartWell(pane);
    RunKeepsInv(Initial(pane), events);
  }

  /** Where an outcome comes from: a refresh succeeded or failed because its own load did so, uncancelled. */
  lemma {:induction false} OutcomesComeFromLoads(s: State, events: seq<Event>, generation: nat, error: nat)
    requires IsRun(s, events) && generation !in s.outcomes && generation in After(s, events).outcomes
    ensures After(s, events).outcomes[generation] == Succeeded ==>
      exists e :: e in events && e.Finish? && e.generation == generation && e.reply.Loads? && !e.cancelled
    ensures After(s, events).outcomes[generation] == Failed(error) ==>
      exists e :: e in events && e.Finish? && e.generation == generation && e.reply.Fails? && e.reply.error == error
                  && !e.cancelled
    decreases |events|
  {
    if events != [] {
      OneOutcomeAtATime(s, events[0], generation, error);
      hide Happens, CanHappen;
      assert forall e <- events[1..] :: e in events;
      if generation in Happens(s, events[0]).outcomes {
        LastOutcome(Happens(s, events[0]), events[1..], generation, error);
      } else {
        OutcomesComeFromLoads(Happens(s, events[0]), events[1..], generation, error);
      }
    }
  }

  lemma {:induction false} LastOutcome(s: State, events: seq<Event>, generation: nat, error: nat)
    requires IsRun(s, events) && generation in s.outcomes
    ensures generation in After(s, events).outcomes
    ensures After(s, events).outcomes[generation] == Succeeded ==>
      || s.outcomes[generation] == Succeeded
      || exists e :: e in events && e.Finish? && e.generation == generation && e.reply.Loads? && !e.cancelled
    ensures After(s, events).outcomes[generation] == Failed(error) ==>
      || s.outcomes[generation] == Failed(error)
      || exists e :: e in events && e.Finish? && e.generation == generation && e.reply.Fails? && e.reply.error == error
                     && !e.cancelled
    decreases |events|
  {
    if events != [] {
      OneOutcomeAtATime(s, events[0], generation, error);
      hide Happens, CanHappen;
      assert forall e <- events[1..] :: e in events;
      LastOutcome(Happens(s, events[0]), events[1..], generation, error);
    }
  }

  lemma OneOutcomeAtATime(s: State, e: Event, generation: nat, error: nat)
    requires CanHappen(s, e)
    ensures generation in s.outcomes ==> generation in Happens(s, e).outcomes
    ensures generation in Happens(s, e).outcomes && !(e.Finish? && e.generation == generation) ==>
      generation in s.outcomes && Happens(s, e).outcomes[generation] == s.outcomes[generation]
    ensures e.Finish? && e.generation == generation ==>
      && generation in Happens(s, e).outcomes
      && (Happens(s, e).outcomes[generation] == Succeeded ==> e.reply.Loads? && !e.cancelled)
      && (Happens(s, e).outcomes[generation] == Failed(error) ==>
            e.reply.Fails? && e.reply.error == error && !e.cancelled)
  {
    if e.Finish? {
      FinishedRecords(s, e.generation, e.reply, e.cancelled,
                      Verdict(s, e.generation, s.inFlight[e.generation], e.reply, e.cancelled), Happens(s, e));
      hide Finished, Completed, Retained;
    } else {
      hide Finished, NextTurn, WithWaiter, WithoutWaiter, Told, Arrives, A.Happens;
    }
  }

  /** A mutation that returns normally was followed by a refresh that began no earlier than its own
      and whose load succeeded, uncancelled; one that throws a load's error was followed by a refresh
      whose load failed with it; and with a success at hand it does return, unless it is
      cancelled. The error for endless supersession is never thrown. Every continuation installed has
      been resumed once, but for the one a mutation is still waiting on. */
  lemma FollowersEndWell(pane: A.Pane, events: seq<Event>, follower: Follower)
    requires IsRun(Initial(pane), events)
    requires follower in After(Initial(pane), events).followers
    ensures var s := After(Initial(pane), events);
            var f := s.followers[follower];
            && (f.phase.Threw? ==> f.phase.thrown != SupersededRepeatedly)
            && (f.phase.Threw? && f.phase.thrown.LoadError? ==>
                  && f.own <= f.phase.from
                  && exists e :: e in events && e.Finish? && e.generation == f.phase.from
                                 && e.reply.Fails? && e.reply.error == f.phase.thrown.error && !e.cancelled)
            && (f.phase.Returned? ==> f.own <= f.phase.from && f.phase.from in s.published
                                      && f.phase.from in s.outcomes && s.outcomes[f.phase.from] == Succeeded
                                      && exists e :: e in events && e.Finish? && e.generation == f.phase.from
                                                     && e.reply.Loads? && !e.cancelled)
            && (f.phase.Has? && f.phase.outcome == Succeeded ==>
                  Followed(s, follower, false, false).followers[follower].phase == Returned(f.phase.from))
            && f.installed == f.resumed + (if f.phase.Waiting? then 1 else 0)
  {
    StoresStartWell(pane);
    RunKeepsInv(Initial(pane), events);
    var s := After(Initial(pane), events);
    if s.followers[follower].phase.Returned? {
      OutcomesComeFromLoads(Initial(pane), events, s.followers[follower].phase.from, 0);
    }
    if s.followers[follower].phase.Threw? && s.followers[follower].phase.thrown.LoadError? {
      OutcomesComeFromLoads(Initial(pane), events, s.followers[follower].phase.from,
                            s.followers[follower].phase.thrown.error);
    }
  }

  /** The end of a refresh reaches everyone waiting for it and nobody else. */
  lemma FinishResumesItsWaiters(s: State, generation: nat, reply: Reply, cancelled: bool, follower: Follower)
    requires Inv(s) && generation in s.inFlight && follower in s.followers
    ensures follower in Finished(s, generation, reply, cancelled).followers
    ensures var f := s.followers[follower];
            var t := Finished(s, generation, reply, cancelled);
            t.followers[follower] ==
              if f.phase == Waiting(generation) then
                f.(phase := Has(t.outcomes[generation], generation), resumed := f.resumed + 1)
              else if f.phase == Refreshing(generation) then f.(phase := Has(t.outcomes[generation], generation))
              else f
  {
    hide A.Inv, Accounted, PointsForward, Counted, InOrder, Remembers, GoodFollowers, WaitersMatch;
    var outcome := Verdict(s, generation, s.inFlight[generation], reply, cancelled);
    FinishedRecords(s, generation, reply, cancelled, outcome, Finished(s, generation, reply, cancelled));
    WaitersAre(s, generation, follower);
    hide Inv, Finished, Verdict, WaitersOn, Retained;
  }

  // ---------------------------------------------------------------------------
  // Waiting for what is already over

  /** The refresh waited for has ended and its outcome is forgotten: no one will resume this waiter. */
  predicate IsStranded(s: State, follower: Follower) {
    && follower in s.followers && s.followers[follower].phase.Waiting?
    && s.followers[follower].phase.generation in s.outcomes
  }

  /** A mutation gets stranded exactly when the refresh it turns to has ended and is forgotten by then. */
  lemma StrandsExactlyWhen(s: State, follower: Follower, cancelled: bool, cancelledAtInstall: bool)
    requires Inv(s) && CanHappen(s, Follow(follower, cancelled, cancelledAtInstall))
    ensures IsStranded(Followed(s, follower, cancelled, cancelledAtInstall), follower) <==>
              && !cancelled && !cancelledAtInstall
              && s.followers[follower].phase.outcome.Superseded?
              && s.followers[follower].phase.outcome.newer < s.forgotten
              && s.followers[follower].phase.outcome.newer !in s.inFlight
  {
    hide A.Inv, Counted, InOrder, WaitersMatch;
    assert GoodFollowing(s.followers[follower], s.inFlight, s.outcomes, s.forgotten);
  }

  /** No mutation is stranded by a refresh among the last twenty. */
  lemma RecentRefreshesAreRemembered(s: State, follower: Follower, cancelled: bool, cancelledAtInstall: bool)
    requires Inv(s) && CanHappen(s, Follow(follower, cancelled, cancelledAtInstall))
    requires s.followers[follower].phase.outcome.Superseded?
    requires s.followers[follower].phase.outcome.newer >= s.generation - 20
    ensures !IsStranded(Followed(s, follower, cancelled, cancelledAtInstall), follower)
  {
    StrandsExactlyWhen(s, follower, cancelled, cancelledAtInstall);
    hide Followed, IsStranded;
  }

  /** And then only its own cancellation ends the wait. */
  lemma {:induction false} StrandedUntilCancelled(s: State, events: seq<Event>, follower: Follower)
    requires Inv(s) && IsRun(s, events) && IsStranded(s, follower)
    requires CancelWaiter(follower, s.followers[follower].phase.generation) !in events
    ensures IsStranded(After(s, events), follower)
    ensures After(s, events).followers[follower] == s.followers[follower]
    decreases |events|
  {
    if events != [] {
      StepKeepsInv(s, events[0]);
      StrandedForAStep(s, events[0], follower);
      StrandedUntilCancelled(Happens(s, events[0]), events[1..], follower);
    }
  }

  lemma OthersLeaveItWaiting(s: State, e: Event, follower: Follower)
    requires CanHappen(s, e) && !e.Finish? && follower in s.followers && s.followers[follower].phase.Waiting?
    requires e.CancelWaiter? ==> e.follower != follower || follower !in WaitersOn(s, e.generation)
    ensures follower in Happens(s, e).followers && Happens(s, e).followers[follower] == s.followers[follower]
  {
    hide A.Happens, NextTurn, WithWaiter, WithoutWaiter, WaitersOn;
  }

  lemma StrandedForAStep(s: State, e: Event, follower: Follower)
    requires Inv(s) && CanHappen(s, e) && IsStranded(s, follower)
    requires e != CancelWaiter(follower, s.followers[follower].phase.generation)
    ensures IsStranded(Happens(s, e), follower)
    ensures Happens(s, e).followers[follower] == s.followers[follower]
  {
    var generation := s.followers[follower].phase.generation;
    OutcomeStays(s, e, generation);
    if e.Finish? {
      UnderWayIsOpen(s, e.generation);
      FinishResumesItsWaiters(s, e.generation, e.reply, e.cancelled, follower);
      hide Inv, Finished;
    } else {
      if e.CancelWaiter? {
        WaitersAre(s, e.generation, follower);
      }
      hide Inv, Happens;
      OthersLeaveItWaiting(s, e, follower);
    }
  }

  /** With no refresh under way nothing is shown as refreshing, and whoever still waits is stranded. */
  lemma QuietStoresOweNothing(s: State)
    requires Inv(s) && s.inFlight == map[]
    ensures s.visible == 0 && !s.isRefreshing
    ensures forall f <- s.followers | s.followers[f].phase.Waiting? :: IsStranded(s, f)
  {
    assert VisibleFlights(s.inFlight, s.stopGeneration) == {};
    forall f <- s.followers | s.followers[f].phase.Waiting? ensures IsStranded(s, f) {
      assert GoodFollowing(s.followers[f], s.inFlight, s.outcomes, s.forgotten);
    }
  }

  // A run that strands a mutation: its refresh 1 is superseded by 2, on which it waits; when 2 ends,
  // superseded by 3, the mutation is due to turn to 3, but 3 ends and is forgotten first.

  function Refresh(): Event { Begin(true, None, None, false, None) }

  function Ends(generation: nat): Event { Finish(generation, IsCancelled, false) }

  function Opening(): seq<Event> { [Begin(true, None, None, false, Some(0)), Refresh()] }

  function Middle(): seq<Event> { [Ends(1), Follow(0, false, false)] }

  function Closing(): seq<Event> { [Refresh(), Ends(2)] }

  function Prelude(): seq<Event> { Opening() + Middle() + Closing() }

  function StrandingRun(): seq<Event> {
    Prelude() + seq(22, _ => Refresh()) + [Ends(3), Follow(0, false, false)]
  }

  lemma {:induction false} RunsJoin(s: State, first: seq<Event>, second: seq<Event>)
    requires IsRun(s, first) && IsRun(After(s, first), second)
    ensures IsRun(s, first + second) && After(s, first + second) == After(After(s, first), second)
    decreases |first|
  {
    if first == [] {
      assert first + second == second;
    } else {
      assert (first + second)[1..] == first[1..] + second;
      RunsJoin(Happens(s, first[0]), first[1..], second);
    }
  }

  /** Starting `n` more refreshes only raises the generation and adds flights. */
  lemma {:induction false} MoreRefreshes(s: State, n: nat)
    requires Inv(s)
    ensures IsRun(s, seq(n, _ => Refresh()))
    ensures var t := After(s, seq(n, _ => Refresh()));
            && Inv(t) && t.generation == s.generation + n && s.inFlight.Keys <= t.inFlight.Keys
            && t.stopGeneration == s.stopGeneration
            && t.followers == s.followers
    decreases n
  {
    hide Inv;
    var more := seq(n, _ => Refresh());
    if n > 0 {
      assert more[1..] == seq(n - 1, _ => Refresh());
      assert more[0] == Refresh();
      StepKeepsInv(s, Refresh());
      MoreRefreshes(Happens(s, Refresh()), n - 1);
    }
  }

  lemma StrandingIsReachable(pane: A.Pane)
    ensures IsRun(Initial(pane), StrandingRun())
    ensures IsStranded(After(Initial(pane), StrandingRun()), 0)
  {
    hide Prelude, IsRun, After, Inv, Happens, CanHappen, IsStranded;
    var s := Initial(pane);
    var first := PreludeEnds(pane);
    MoreRefreshes(first, 22);
    RunsJoin(s, Prelude(), seq(22, _ => Refresh()));
    var second := After(first, seq(22, _ => Refresh()));
    StrandingEnds(second);
    RunsJoin(s, Prelude() + seq(22, _ => Refresh()), [Ends(3), Follow(0, false, false)]);
  }

  lemma PreludeEnds(pane: A.Pane) returns (s: State)
    ensures IsRun(Initial(pane), Prelude()) && s == After(Initial(pane), Prelude()) && Inv(s)
    ensures s.generation == 3 && 3 in s.inFlight
    ensures s.followers == map[0 := Following(1, {2}, Has(Superseded(3), 2), 1, 1)]
  {
    StoresStartWell(pane);
    var s2 := TwoBegin(Initial(pane));
    var s4 := FirstEnds(s2);
    s := SecondEnds(s4);
    hide *;
    RunsJoin(Initial(pane), Opening(), Middle());
    RunsJoin(Initial(pane), Opening() + Middle(), Closing());
    RunKeepsInv(Initial(pane), Opening() + Middle() + Closing());
  }

  lemma {:induction false} TwoEvents(s: State, e: Event, f: Event)
    requires CanHappen(s, e) && CanHappen(Happens(s, e), f)
    ensures IsRun(s, [e, f]) && After(s, [e, f]) == Happens(Happens(s, e), f)
  {
    hide CanHappen, Happens;
    var u := Happens(s, e);
    assert [f][1..] == [];
    assert IsRun(Happens(u, f), []) && After(Happens(u, f), []) == Happens(u, f);
    assert IsRun(u, [f]) && After(u, [f]) == Happens(u, f);
    assert [e, f][1..] == [f];
  }

  lemma TwoBegin(s: State) returns (t: State)
    requires s.generation == 0 && s.inFlight == map[] && s.followers == map[] && s.stopGeneration == 0
    requires s.waiters == map[] && s.completed == map[]
    ensures IsRun(s, Opening()) && t == After(s, Opening())
    ensures t.generation == 2 && t.stopGeneration == 0 && t.waiters == map[] && t.completed == map[]
    ensures t.inFlight == map[1 := Flight(true, 0, None), 2 := Flight(true, 0, None)]
    ensures t.followers == map[0 := Following(1, {}, Refreshing(1), 0, 0)]
  {
    TwoEvents(s, Opening()[0], Opening()[1]);
    t := Happens(Happens(s, Opening()[0]), Opening()[1]);
  }

  lemma FirstEnds(s: State) returns (t: State)
    requires s.generation == 2 && s.stopGeneration == 0 && s.waiters == map[] && s.completed == map[]
    requires s.inFlight == map[1 := Flight(true, 0, None), 2 := Flight(true, 0, None)]
    requires s.followers == map[0 := Following(1, {}, Refreshing(1), 0, 0)]
    ensures IsRun(s, Middle()) && t == After(s, Middle())
    ensures t.generation == 2 && t.stopGeneration == 0 && t.waiters == map[2 := {0}]
    ensures t.inFlight == map[2 := Flight(true, 0, None)]
    ensures t.followers == map[0 := Following(1, {2}, Waiting(2), 1, 0)]
  {
    var u := Happens(s, Ends(1));
    FirstEnded(s, u);
    hide Finished;
    assert WaitersOn(u, 2) + {0} == {0} && {} + {2} == {2 as nat};
    TwoEvents(s, Ends(1), Follow(0, false, false));
    t := Happens(u, Follow(0, false, false));
  }

  lemma FirstEnded(s: State, u: State)
    requires s.generation == 2 && s.stopGeneration == 0 && s.waiters == map[] && s.completed == map[]
    requires s.inFlight == map[1 := Flight(true, 0, None), 2 := Flight(true, 0, None)]
    requires s.followers == map[0 := Following(1, {}, Refreshing(1), 0, 0)]
    requires u == Happens(s, Ends(1))
    ensures u.generation == 2 && u.stopGeneration == 0 && u.waiters == map[] && 2 !in u.completed
    ensures u.inFlight == map[2 := Flight(true, 0, None)]
    ensures u.followers == map[0 := Following(1, {}, Has(Superseded(2), 1), 0, 0)]
  {
    FinishedRecords(s, 1, IsCancelled, false, Superseded(2), u);
    FinishedCounts(s, 1, IsCancelled, false, Superseded(2), u);
    hide Finished, Publishes;
  }

  lemma SecondEnds(s: State) returns (t: State)
    requires s.generation == 2 && s.stopGeneration == 0 && s.waiters == map[2 := {0}]
    requires s.inFlight == map[2 := Flight(true, 0, None)]
    requires s.followers == map[0 := Following(1, {2}, Waiting(2), 1, 0)]
    ensures IsRun(s, Closing()) && t == After(s, Closing())
    ensures t.generation == 3 && 3 in t.inFlight
    ensures t.followers == map[0 := Following(1, {2}, Has(Superseded(3), 2), 1, 1)]
  {
    var u := Happens(s, Refresh());
    TwoEvents(s, Refresh(), Ends(2));
    t := Happens(u, Ends(2));
  }

  lemma StrandingEnds(s: State)
    requires Inv(s) && s.generation == 25 && 3 in s.inFlight
    requires s.followers == map[0 := Following(1, {2}, Has(Superseded(3), 2), 1, 1)]
    ensures IsRun(s, [Ends(3), Follow(0, false, false)])
    ensures IsStranded(After(s, [Ends(3), Follow(0, false, false)]), 0)
  {
    hide *;
    var t := ThirdEnds(s);
    FollowingStrands(t);
    TwoEvents(s, Ends(3), Follow(0, false, false));
  }

  lemma FollowingStrands(s: State)
    requires Inv(s) && 3 !in s.inFlight && s.forgotten == 5
    requires 0 in s.followers && s.followers[0] == Following(1, {2}, Has(Superseded(3), 2), 1, 1)
    ensures CanHappen(s, Follow(0, false, false)) && IsStranded(Happens(s, Follow(0, false, false)), 0)
  {
    hide Inv, IsStranded, Followed;
    StrandsExactlyWhen(s, 0, false, false);
  }

  lemma ThirdEnds(s: State) returns (t: State)
    requires Inv(s) && s.generation == 25 && 3 in s.inFlight
    requires s.followers == map[0 := Following(1, {2}, Has(Superseded(3), 2), 1, 1)]
    ensures CanHappen(s, Ends(3)) && t == Happens(s, Ends(3)) && Inv(t)
    ensures 3 !in t.inFlight && t.forgotten == 5
    ensures 0 in t.followers && t.followers[0] == s.followers[0]
  {
    hide Inv, Published;
    t := Happens(s, Ends(3));
    StepKeepsInv(s, Ends(3));
    FinishResumesItsWaiters(s, 3, IsCancelled, false, 0);
  }
}
