/** What the operator's dashboard may do to the broker. Commands are allowed only while a
    verified service is known; each change of that knowledge starts a new authority epoch, and
    every prompt waiting for the operator's confirmation belongs to the epoch it was asked in. */
module DashboardAuthority {
  import opened Wrappers

  /** The seven fields two services are compared by. */
  datatype Service = Service(
    hostConfigPath: string, pid: int, runtimeVersion: Option<string>, socketPath: string,
    startedAt: string, stateRoot: string, transport: string)

  /** A loaded state: the service, whether it must restart, whether a host is configured, a snapshot. */
  datatype Loaded = Loaded(
    service: Option<Service>, requiresRestart: bool, hostConfigExists: bool, snapshot: Option<nat>)

  datatype Pane = Overview | Simulators | OtherPane

  datatype Prompt = ClearPin | CreatePin | Lifecycle | Override | ReleaseLease | IdleCleanup

  /** `prompts` and `previews` record the epoch in which the request behind them was made. */
  datatype Authority = Authority(
    loaded: Option<Loaded>,
    unverified: bool,
    epoch: nat,
    pane: Pane,
    prompts: map<Prompt, nat>,
    previewGeneration: nat,
    previews: map<nat, nat>)   // idle-cleanup previews still awaiting their reply

  function Initial(pane: Pane): Authority { Authority(None, false, 0, pane, map[], 0, map[]) }

  predicate RequiresRestart(a: Authority) {
    a.loaded.Some? && a.loaded.value.requiresRestart && !a.unverified
  }

  predicate CanSendCommands(a: Authority) {
    a.loaded.Some? && a.loaded.value.service.Some? && !RequiresRestart(a) && !a.unverified
  }

  // ---------------------------------------------------------------------------
  // Changes of authority, each within one step of a refresh

  function Advance(a: Authority): Authority {
    a.(epoch := a.epoch + 1, previewGeneration := a.previewGeneration + 1, prompts := map[])
  }

  predicate SameAuthority(current: Option<Loaded>, next: Loaded) {
    && (if current.Some? then current.value.service else None) == next.service
    && current.Some? && current.value.requiresRestart == next.requiresRestart
  }

  function AdvanceUnlessSame(a: Authority, next: Loaded): Authority {
    if SameAuthority(a.loaded, next) then a else Advance(a)
  }

  function Accept(a: Authority, state: Loaded): Authority {
    AdvanceUnlessSame(a, state).(loaded := Some(state), unverified := false)
  }

  /** A partial load that still tells there is no usable service: the old snapshot is kept. */
  function Recover(a: Authority, state: Loaded): Authority {
    var snapshot := if a.loaded.Some? then a.loaded.value.snapshot else None;
    AdvanceUnlessSame(a, state).(loaded := Some(state.(snapshot := snapshot)), unverified := false)
  }

  function WithoutService(state: Loaded): Loaded { state.(service := None, requiresRestart := false) }

  /** A failed load revokes what was known, unless no configured host could have a service. */
  function Revoke(a: Authority, hostConfigFileExists: bool): Authority {
    var couldAuthorize := (a.loaded.Some? && a.loaded.value.hostConfigExists) || hostConfigFileExists;
    if a.loaded.Some? && couldAuthorize then
      Advance(a).(loaded := Some(WithoutService(a.loaded.value)), unverified := true)
    else if couldAuthorize then
      Advance(a).(unverified := true)
    else if a.loaded.Some? && (a.loaded.value.service.Some? || a.loaded.value.requiresRestart) then
      Advance(a).(loaded := Some(WithoutService(a.loaded.value)))
    else a
  }

  datatype Event =
    | Accepts(state: Loaded)
    | Recovers(state: Loaded)
    | Revokes(hostConfigFileExists: bool)
    | Requests(prompt: Prompt, enabled: bool)       // a command offered to the operator
    | OverrideNeeded(askedIn: nat, presentable: bool)
    | PreviewStarts(idle: bool)
    | PreviewEnds(generation: nat, eligible: nat)
    | Navigates(pane: Pane)
    | Answers(prompt: Prompt)                       // confirmed or dismissed

  predicate CanHappen(a: Authority, e: Event) {
    match e
    case PreviewEnds(generation, _) => generation in a.previews
    case Requests(prompt, _) => prompt != Override && prompt != IdleCleanup
    case _ => true
  }

  function Happens(a: Authority, e: Event): Authority
    requires CanHappen(a, e)
  {
    match e
    case Accepts(state) => Accept(a, state)
    case Recovers(state) => Recover(a, state)
    case Revokes(hostConfigFileExists) => Revoke(a, hostConfigFileExists)
    case Requests(prompt, enabled) =>
      if CanSendCommands(a) && enabled then a.(prompts := a.prompts[prompt := a.epoch]) else a
    case OverrideNeeded(askedIn, presentable) =>
      if askedIn == a.epoch && CanSendCommands(a) && presentable
      then a.(prompts := a.prompts[Override := askedIn]) else a
    case PreviewStarts(idle) =>
      if !CanSendCommands(a) || !idle then a
      else a.(previewGeneration := a.previewGeneration + 1,
              previews := a.previews[a.previewGeneration + 1 := a.epoch])
    case PreviewEnds(generation, eligible) =>
      var rest := a.(previews := a.previews - {generation});
      if a.pane != Overview || generation != a.previewGeneration then rest
      else if eligible == 0 then rest.(prompts := a.prompts - {IdleCleanup})
      else rest.(prompts := a.prompts[IdleCleanup := a.previews[generation]])
    case Navigates(pane) =>
      var moved := a.(pane := pane);
      var left := if pane == Overview then moved
        else moved.(previewGeneration := a.previewGeneration + 1, prompts := a.prompts - {IdleCleanup});
      if pane == Simulators then left
      else left.(prompts := left.prompts - {ClearPin, CreatePin, Lifecycle, Override, ReleaseLease})
    case Answers(prompt) => a.(prompts := a.prompts - {prompt})
  }

  // ---------------------------------------------------------------------------
  // What is permitted and what is pending, on the fields

  /** Commands may be sent exactly when a service is loaded that need not restart, and its status is
      verified. */
  lemma CanSendIsExactly(a: Authority)
    ensures CanSendCommands(a) <==>
      && a.loaded != None && a.loaded.value.service != None
      && a.loaded.value.requiresRestart == false && a.unverified == false
  {
  }

  lemma StoreBegins(pane: Pane)
    ensures var a := Initial(pane);
      && a.loaded == None && !a.unverified && a.epoch == 0 && a.prompts == map[] && a.previews == map[] && a.pane == pane
    ensures Inv(Initial(pane))
  {
  }

  /** A simulator command may be requested at any time; overrides and clean-ups have their own ways. */
  lemma RequestsCanHappen(a: Authority, prompt: Prompt, enabled: bool)
    ensures CanHappen(a, Requests(prompt, enabled)) <==>
      prompt == ClearPin || prompt == CreatePin || prompt == Lifecycle || prompt == ReleaseLease
  {
  }

  /** What is known of the service after a load, whole, partial or failed. */
  lemma LoadedIsExactly(a: Authority, e: Event)
    requires CanHappen(a, e)
    ensures e.Accepts? ==> Happens(a, e).loaded == Some(e.state) && !Happens(a, e).unverified
    ensures e.Recovers? ==>
      && Happens(a, e).loaded == Some(Loaded(
           e.state.service, e.state.requiresRestart, e.state.hostConfigExists,
           if a.loaded == None then None else a.loaded.value.snapshot))
      && !Happens(a, e).unverified
    ensures e.Revokes? ==>
      var known := a.loaded.Some? && (a.loaded.value.service.Some? || a.loaded.value.requiresRestart);
      var configured := e.hostConfigFileExists || (a.loaded.Some? && a.loaded.value.hostConfigExists);
      && (Happens(a, e).unverified <==> configured || a.unverified)
      && Happens(a, e).loaded == (if a.loaded.Some? && (configured || known)
           then Some(Loaded(None, false, a.loaded.value.hostConfigExists, a.loaded.value.snapshot)) else a.loaded)
    ensures !e.Accepts? && !e.Recovers? && !e.Revokes? ==>
      && Happens(a, e).loaded == a.loaded && Happens(a, e).unverified == a.unverified && Happens(a, e).epoch == a.epoch
  {
  }

  /** When a prompt is pending after an event. */
  lemma PendingIsExactly(a: Authority, e: Event, prompt: Prompt)
    requires CanHappen(a, e)
    ensures var t := Happens(a, e);
      var permitted := a.loaded.Some? && a.loaded.value.service.Some? && !a.loaded.value.requiresRestart && !a.unverified;
      && (match e
          case Requests(asked, enabled) =>
            prompt in t.prompts <==> prompt in a.prompts || (prompt == asked && permitted && enabled)
          case OverrideNeeded(askedIn, presentable) =>
            prompt in t.prompts <==>
              prompt in a.prompts || (prompt == Override && permitted && presentable && askedIn == a.epoch)
          case PreviewEnds(generation, eligible) =>
            var current := a.pane == Overview && generation == a.previewGeneration;
            prompt in t.prompts <==>
              if prompt == IdleCleanup && current then eligible > 0 else prompt in a.prompts
          case Navigates(pane) =>
            prompt in t.prompts <==>
              prompt in a.prompts && (if prompt == IdleCleanup then pane == Overview else pane == Simulators)
          case Answers(answered) => prompt in t.prompts <==> prompt in a.prompts && prompt != answered
          case PreviewStarts(_) => t.prompts == a.prompts
          case _ => prompt in t.prompts <==> prompt in a.prompts && t.epoch == a.epoch)
  {
  }

  /** And the epoch a pending prompt is stamped with: that of the request behind it. */
  lemma StampIsExactly(a: Authority, e: Event, prompt: Prompt)
    requires CanHappen(a, e)
    ensures prompt in Happens(a, e).prompts ==>
      Happens(a, e).prompts[prompt] ==
        if e == Requests(prompt, true) && CanSendCommands(a) then a.epoch
        else if e.OverrideNeeded? && prompt == Override && CanSendCommands(a) && e.presentable && e.askedIn == a.epoch
        then a.epoch
        else if e.PreviewEnds? && prompt == IdleCleanup && a.pane == Overview && e.generation == a.previewGeneration
        then a.previews[e.generation]
        else if prompt in a.prompts then a.prompts[prompt] else 0
  {
  }

  /** Previews: one begins under the current epoch when commands may be sent and the store is idle;
      leaving the overview, a new epoch and a newer preview make those under way out of date. */
  lemma PreviewsAreExactly(a: Authority, e: Event)
    requires CanHappen(a, e)
    ensures e.PreviewStarts? ==>
      Happens(a, e).previews ==
        if CanSendCommands(a) && e.idle then a.previews[a.previewGeneration + 1 := a.epoch] else a.previews
    ensures e.PreviewEnds? ==> Happens(a, e).previews == a.previews - {e.generation}
    ensures !e.PreviewStarts? && !e.PreviewEnds? ==> Happens(a, e).previews == a.previews
    ensures Happens(a, e).previewGeneration == a.previewGeneration + (
      if Happens(a, e).epoch != a.epoch || (e.Navigates? && e.pane != Overview)
         || (e.PreviewStarts? && e.idle && CanSendCommands(a)) then 1 else 0)
    ensures Happens(a, e).pane == if e.Navigates? then e.pane else a.pane
  {
  }

  // ---------------------------------------------------------------------------
  // Epochs

  /** What an epoch stands for. */
  datatype Knowledge = Knowledge(
    loaded: bool, service: Option<Service>, requiresRestart: bool, mustRestart: bool, canSend: bool)

  function KnowledgeOf(a: Authority): Knowledge {
    Knowledge(
      a.loaded.Some?,
      if a.loaded.Some? then a.loaded.value.service else None,
      a.loaded.Some? && a.loaded.value.requiresRestart,
      RequiresRestart(a),
      CanSendCommands(a))
  }

  ghost predicate Inv(a: Authority) {
    && (a.unverified && a.loaded.Some? ==> a.loaded.value.service.None? && !a.loaded.value.requiresRestart)
    && (forall prompt <- a.prompts :: a.prompts[prompt] == a.epoch && CanSendCommands(a))
    && (forall generation <- a.previews :: generation <= a.previewGeneration)
    && (a.previewGeneration in a.previews ==> a.previews[a.previewGeneration] == a.epoch && CanSendCommands(a))
  }

  lemma StepKeepsInv(a: Authority, e: Event)
    requires Inv(a) && CanHappen(a, e)
    ensures Inv(Happens(a, e))
  {
    hide Inv, Accept, Recover, Revoke;
    match e
    case Accepts(state) => ChangesKeepInv(a, state);
    case Recovers(state) => ChangesKeepInv(a, state);
    case Revokes(hostConfigFileExists) => RevokingKeepsInv(a, hostConfigFileExists);
    case _ => OperatingKeepsInv(a, e);
  }

  lemma ChangesKeepInv(a: Authority, state: Loaded)
    requires Inv(a)
    ensures Inv(Accept(a, state)) && Inv(Recover(a, state))
  {
  }

  lemma RevokingKeepsInv(a: Authority, hostConfigFileExists: bool)
    requires Inv(a)
    ensures Inv(Revoke(a, hostConfigFileExists))
  {
  }

  lemma OperatingKeepsInv(a: Authority, e: Event)
    requires Inv(a) && CanHappen(a, e) && !e.Accepts? && !e.Recovers? && !e.Revokes?
    ensures Inv(Happens(a, e))
  {
    hide Accept, Recover, Revoke;
  }

  lemma StepKeepsEpochs(a: Authority, e: Event)
    requires Inv(a) && CanHappen(a, e)
    ensures Happens(a, e).epoch >= a.epoch
    ensures Happens(a, e).epoch == a.epoch ==> KnowledgeOf(Happens(a, e)) == KnowledgeOf(a)
  {
  }

  predicate IsRun(a: Authority, events: seq<Event>)
    decreases |events|
  {
    events != [] ==> CanHappen(a, events[0]) && IsRun(Happens(a, events[0]), events[1..])
  }

  function After(a: Authority, events: seq<Event>): Authority
    requires IsRun(a, events)
    decreases |events|
  {
    if events == [] then a else After(Happens(a, events[0]), events[1..])
  }

  /** Two moments of a run with the same epoch have the same service, restart flag and permission. */
  lemma {:induction false} EqualEpochsMeanEqualAuthority(a: Authority, events: seq<Event>)
    requires Inv(a) && IsRun(a, events)
    ensures Inv(After(a, events)) && After(a, events).epoch >= a.epoch
    ensures After(a, events).epoch == a.epoch ==> KnowledgeOf(After(a, events)) == KnowledgeOf(a)
    ensures var b := After(a, events);
      b.epoch == a.epoch ==>
        && (b.loaded == None <==> a.loaded == None)
        && (b.loaded.Some? ==>
              b.loaded.value.service == a.loaded.value.service
              && b.loaded.value.requiresRestart == a.loaded.value.requiresRestart)
        && CanSendCommands(b) == CanSendCommands(a)
    decreases |events|
  {
    if events != [] {
      StepKeepsInv(a, events[0]);
      StepKeepsEpochs(a, events[0]);
      EqualEpochsMeanEqualAuthority(Happens(a, events[0]), events[1..]);
    }
  }

  /** In every reachable state, a prompt was asked for in the current epoch and may be confirmed. */
  lemma PromptsBelongToTheCurrentEpoch(pane: Pane, events: seq<Event>, prompt: Prompt)
    requires IsRun(Initial(pane), events)
    requires prompt in After(Initial(pane), events).prompts
    ensures After(Initial(pane), events).prompts[prompt] == After(Initial(pane), events).epoch
    ensures CanSendCommands(After(Initial(pane), events))
  {
    EqualEpochsMeanEqualAuthority(Initial(pane), events);
  }

  /** On the fields: while a prompt is pending there is a service, it need not restart, and its status
      is verified. */
  lemma PromptsMeanAVerifiedService(pane: Pane, events: seq<Event>, prompt: Prompt)
    requires IsRun(Initial(pane), events)
    requires prompt in After(Initial(pane), events).prompts
    ensures var a := After(Initial(pane), events);
      && a.loaded.Some? && a.loaded.value.service.Some? && !a.loaded.value.requiresRestart && !a.unverified
      && a.prompts[prompt] == a.epoch
  {
    PromptsBelongToTheCurrentEpoch(pane, events, prompt);
    CanSendIsExactly(After(Initial(pane), events));
  }

  /** So between the request behind a prompt and its confirmation nothing about the service changed. */
  lemma PromptsOutliveNoChange(pane: Pane, before: seq<Event>, after: seq<Event>, prompt: Prompt)
    requires IsRun(Initial(pane), before)
    requires IsRun(After(Initial(pane), before), after)
    requires prompt in After(After(Initial(pane), before), after).prompts
    requires After(After(Initial(pane), before), after).prompts[prompt] == After(Initial(pane), before).epoch
    ensures KnowledgeOf(After(After(Initial(pane), before), after)) == KnowledgeOf(After(Initial(pane), before))
    ensures KnowledgeOf(After(Initial(pane), before)).canSend
  {
    EqualEpochsMeanEqualAuthority(Initial(pane), before);
    var middle := After(Initial(pane), before);
    EqualEpochsMeanEqualAuthority(middle, after);
    var last := After(middle, after);
    assert last.prompts[prompt] == last.epoch && CanSendCommands(last);
  }

  /** When a refresh advances the epoch: exactly when the service or the restart flag changes, or a
      failure leaves the service's status unknown. */
  lemma EpochAdvancesExactlyWhen(a: Authority, e: Event)
    requires Inv(a) && CanHappen(a, e)
    ensures Happens(a, e).epoch == a.epoch || Happens(a, e).epoch == a.epoch + 1
    ensures Happens(a, e).epoch == a.epoch <==>
      match e
      case Accepts(state) => a.loaded.Some? && a.loaded.value.service == state.service
                             && a.loaded.value.requiresRestart == state.requiresRestart
      case Recovers(state) => a.loaded.Some? && a.loaded.value.service == state.service
                              && a.loaded.value.requiresRestart == state.requiresRestart
      case Revokes(hostFile) =>
        && !hostFile && !(a.loaded.Some? && a.loaded.value.hostConfigExists)
        && !(a.loaded.Some? && (a.loaded.value.service.Some? || a.loaded.value.requiresRestart))
      case _ => true
  {
  }
}
