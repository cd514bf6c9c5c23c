/** The dashboard store as the program keeps it: an object whose methods run one at a time on the
    main actor, each up to its next suspension point. Every method takes the store's model through
    one event, or through one of the authority changes a refresh makes, so that a store's whole
    history is a run of the model and keeps its invariant. */
module DashboardStore {
  import opened Wrappers
  import A = DashboardAuthority
  import opened DashboardRefresh

  class DashboardStore {
    var refreshGeneration: nat
    var storeStopGeneration: nat
    var setupGeneration: nat
    var visibleRefreshCount: int
    var isRefreshing: bool
    var completedRefreshOutcomes: map<nat, Outcome>
    var refreshOutcomeWaiters: map<nat, set<Follower>>

    var loadedState: Option<A.Loaded>
    var serviceStatusUnverified: bool
    var serviceAuthorityEpoch: nat
    var selectedPane: A.Pane
    var pendingPrompts: map<A.Prompt, nat>
    var idleCleanupPreviewGeneration: nat
    var idleCleanupPreviews: map<nat, nat>

    /** The state of the model this store is in, with the history the store itself need not keep. */
    ghost var model: State

    function Authority(): A.Authority
      reads this`loadedState, this`serviceStatusUnverified, this`serviceAuthorityEpoch, this`selectedPane,
        this`pendingPrompts, this`idleCleanupPreviewGeneration, this`idleCleanupPreviews
    {
      A.Authority(loadedState, serviceStatusUnverified, serviceAuthorityEpoch, selectedPane, pendingPrompts,
                  idleCleanupPreviewGeneration, idleCleanupPreviews)
    }

    ghost predicate Valid()
      reads this
    {
      Shows(model) && Authority() == model.authority
    }

    /** The fields that refreshing uses are those of `s`. */
    ghost predicate Shows(s: State)
      reads this`refreshGeneration, this`storeStopGeneration, this`setupGeneration, this`visibleRefreshCount,
        this`isRefreshing, this`completedRefreshOutcomes, this`refreshOutcomeWaiters
    {
      && refreshGeneration == s.generation
      && storeStopGeneration == s.stopGeneration
      && setupGeneration == s.setupGeneration
      && visibleRefreshCount == s.visible
      && isRefreshing == s.isRefreshing
      && completedRefreshOutcomes == s.completed
      && refreshOutcomeWaiters == s.waiters
    }

    constructor (pane: A.Pane)
      ensures Valid() && model == Initial(pane)
    {
      refreshGeneration, storeStopGeneration, setupGeneration := 0, 0, 0;
      visibleRefreshCount, isRefreshing := 0, false;
      completedRefreshOutcomes, refreshOutcomeWaiters := map[], map[];
      loadedState, serviceStatusUnverified, serviceAuthorityEpoch := None, false, 0;
      selectedPane, pendingPrompts := pane, map[];
      idleCleanupPreviewGeneration, idleCleanupPreviews := 0, map[];
      model := Initial(pane);
    }

    // -------------------------------------------------------------------------
    // Refreshing

    /** Up to the point where the load begins; `None` when the refresh is discarded at once. */
    method BeginRefresh(silent: bool, expectedStop: Option<nat>, expectedSetup: Option<nat>,
                        cancelled: bool, ghost caller: Option<Follower>)
      returns (started: Option<nat>)
      requires Valid() && (caller.Some? ==> caller.value !in model.followers)
      modifies this
      ensures Valid()
      ensures model == Asked(old(model), silent, expectedStop, expectedSetup, cancelled, caller)
      ensures started == if MayBegin(old(model), expectedStop, expectedSetup, cancelled)
                         then Some(old(model).generation + 1) else None
    {
      model := Asked(model, silent, expectedStop, expectedSetup, cancelled, caller);
      var lifecycleGeneration := if expectedStop.Some? then expectedStop.value else storeStopGeneration;
      started := None;
      if lifecycleGeneration == storeStopGeneration
         && !(expectedSetup.Some? && expectedSetup.value != setupGeneration)
         && !cancelled
      {
        refreshGeneration := refreshGeneration + 1;
        started := Some(refreshGeneration);
        if !silent {
          visibleRefreshCount := visibleRefreshCount + 1;
          isRefreshing := true;
        }
      }
    }

    /** What runs once the load has ended, with what the refresh remembered from its beginning. */
    method FinishRefresh(generation: nat, silent: bool, lifecycleGeneration: nat, expectedSetup: Option<nat>,
                         reply: Reply, cancelled: bool)
      returns (outcome: Outcome, resumed: set<Follower>)
      requires Valid() && generation in model.inFlight
      requires model.inFlight[generation] == Flight(silent, lifecycleGeneration, expectedSetup)
      modifies this
      ensures Valid()
      ensures model == Finished(old(model), generation, reply, cancelled)
      ensures outcome == Verdict(old(model), generation, old(model).inFlight[generation], reply, cancelled)
      ensures resumed == WaitersOn(old(model), generation)
    {
      hide Finished, Verdict, Published, Authority, Shows;
      ghost var finished := Finished(model, generation, reply, cancelled);
      outcome := ConcludeLoad(generation, lifecycleGeneration, expectedSetup, reply, cancelled);
      FinishedCounts(model, generation, reply, cancelled, outcome, finished);
      resumed := Settle(generation, silent, lifecycleGeneration, outcome, reply, cancelled, finished);
      model := finished;
    }

    /** The bookkeeping at the end of a refresh. */
    method Settle(generation: nat, silent: bool, lifecycleGeneration: nat, outcome: Outcome,
                  ghost reply: Reply, ghost cancelled: bool, ghost finished: State)
      returns (resumed: set<Follower>)
      requires Shows(model) && generation in model.inFlight
      requires model.inFlight[generation].silent == silent
      requires model.inFlight[generation].stopGeneration == lifecycleGeneration
      requires finished == Finished(model, generation, reply, cancelled)
      requires outcome == Verdict(model, generation, model.inFlight[generation], reply, cancelled)
      modifies this`completedRefreshOutcomes, this`refreshOutcomeWaiters, this`visibleRefreshCount, this`isRefreshing
      ensures Shows(finished) && resumed == WaitersOn(model, generation)
    {
      FinishedRecords(model, generation, reply, cancelled, outcome, finished);
      FinishedCounts(model, generation, reply, cancelled, outcome, finished);
      hide Finished, Verdict, Retained, Published;
      resumed := CompleteRefresh(generation, outcome);
      LowerVisibleCount(silent, lifecycleGeneration);
    }

    method LowerVisibleCount(silent: bool, lifecycleGeneration: nat)
      modifies this`visibleRefreshCount, this`isRefreshing
      ensures visibleRefreshCount ==
                if silent || lifecycleGeneration != storeStopGeneration then old(visibleRefreshCount)
                else if old(visibleRefreshCount) > 1 then old(visibleRefreshCount) - 1 else 0
      ensures isRefreshing ==
                if silent || lifecycleGeneration != storeStopGeneration then old(isRefreshing)
                else visibleRefreshCount > 0
    {
      if !silent && lifecycleGeneration == storeStopGeneration {
        visibleRefreshCount := if visibleRefreshCount - 1 > 0 then visibleRefreshCount - 1 else 0;
        isRefreshing := visibleRefreshCount > 0;
      }
    }

    /** What the load came to; only a refresh that succeeds or fails touches the authority. */
    method ConcludeLoad(generation: nat, lifecycleGeneration: nat, expectedSetup: Option<nat>,
                        reply: Reply, cancelled: bool)
      returns (outcome: Outcome)
      requires Shows(model) && generation in model.inFlight
      requires model.inFlight[generation].stopGeneration == lifecycleGeneration
      requires model.inFlight[generation].setup == expectedSetup
      modifies this`loadedState, this`serviceStatusUnverified,
        this`serviceAuthorityEpoch, this`idleCleanupPreviewGeneration, this`pendingPrompts
      ensures outcome == Verdict(model, generation, model.inFlight[generation], reply, cancelled)
      ensures Authority() == if Publishes(outcome) then Published(old(Authority()), reply) else old(Authority())
    {
      if lifecycleGeneration != storeStopGeneration {
        outcome := Discarded;
      } else if expectedSetup.Some? && expectedSetup.value != setupGeneration {
        outcome := Discarded;
      } else if generation != refreshGeneration {
        outcome := Superseded(refreshGeneration);
      } else if cancelled || reply.IsCancelled? {
        outcome := Discarded;
      } else if reply.Loads? {
        AcceptLoadedState(reply.state);
        outcome := Succeeded;
      } else {
        HandleLoadFailure(reply.error, reply.partial, reply.hostConfigFileExists);
        outcome := Failed(reply.error);
      }
    }

    /** Records the outcome, takes out whoever waits for it and drops outcomes too old to keep. */
    method CompleteRefresh(generation: nat, outcome: Outcome) returns (resumed: set<Follower>)
      modifies this`completedRefreshOutcomes, this`refreshOutcomeWaiters
      ensures completedRefreshOutcomes ==
              Retained(old(completedRefreshOutcomes)[generation := outcome], refreshGeneration - 20)
      ensures refreshOutcomeWaiters == old(refreshOutcomeWaiters) - {generation}
      ensures resumed ==
              if generation in old(refreshOutcomeWaiters) then old(refreshOutcomeWaiters)[generation] else {}
    {
      resumed := if generation in refreshOutcomeWaiters then refreshOutcomeWaiters[generation] else {};
      refreshOutcomeWaiters := refreshOutcomeWaiters - {generation};
      var known := completedRefreshOutcomes[generation := outcome];
      completedRefreshOutcomes := map g <- known | g >= refreshGeneration - 20 :: known[g];
    }

    /** One turn of a mutation's loop: what it does with the outcome at hand. It either ends, has the
        next outcome at once, or waits. */
    method TakeTurn(follower: Follower, followedGenerations: set<nat>, outcome: Outcome,
                    cancelled: bool, cancelledAtInstall: bool)
      returns (ended: bool, next: Option<Outcome>)
      requires Valid() && follower in model.followers && model.followers[follower].phase.Has?
      requires followedGenerations == model.followers[follower].followed
      requires outcome == model.followers[follower].phase.outcome
      modifies this
      ensures Valid()
      ensures model == Followed(old(model), follower, cancelled, cancelledAtInstall)
      ensures ended == (model.followers[follower].phase.Returned? || model.followers[follower].phase.Threw?)
      ensures next == if model.followers[follower].phase.Has?
                      then Some(model.followers[follower].phase.outcome) else None
    {
      model := Followed(model, follower, cancelled, cancelledAtInstall);
      ended, next := true, None;
      if !cancelled && outcome.Superseded? && outcome.newer !in followedGenerations {
        ended := false;
        next := RefreshOutcome(follower, outcome.newer, cancelledAtInstall);
      }
    }

    /** The outcome, if it is still known or the caller is cancelled; otherwise a waiter is left. */
    method RefreshOutcome(waiter: Follower, generation: nat, cancelled: bool) returns (outcome: Option<Outcome>)
      modifies this`refreshOutcomeWaiters
      ensures outcome ==
                if generation in completedRefreshOutcomes then Some(completedRefreshOutcomes[generation])
                else if cancelled then Some(Discarded) else None
      ensures refreshOutcomeWaiters ==
                if outcome.Some? then old(refreshOutcomeWaiters)
                else old(refreshOutcomeWaiters)[generation :=
                  (if generation in old(refreshOutcomeWaiters) then old(refreshOutcomeWaiters)[generation]
                   else {}) + {waiter}]
    {
      if generation in completedRefreshOutcomes {
        return Some(completedRefreshOutcomes[generation]);
      }
      if cancelled {
        return Some(Discarded);
      }
      var waiters := if generation in refreshOutcomeWaiters then refreshOutcomeWaiters[generation] else {};
      refreshOutcomeWaiters := refreshOutcomeWaiters[generation := waiters + {waiter}];
      outcome := None;
    }

    method CancelRefreshOutcomeWaiter(waiter: Follower, generation: nat)
      requires Valid()
      modifies this`refreshOutcomeWaiters, this`model
      ensures Valid() && model == Cancelled(old(model), waiter, generation)
    {
      model := Cancelled(model, waiter, generation);
      if generation in refreshOutcomeWaiters && waiter in refreshOutcomeWaiters[generation] {
        var others := refreshOutcomeWaiters[generation] - {waiter};
        refreshOutcomeWaiters := refreshOutcomeWaiters[generation := others];
        if others == {} {
          refreshOutcomeWaiters := refreshOutcomeWaiters - {generation};
        }
      }
    }

    method StopRefreshing()
      requires Valid()
      modifies this`storeStopGeneration, this`isRefreshing, this`visibleRefreshCount, this`model
      ensures Valid() && model == Stopped(old(model))
    {
      model := Stopped(model);
      storeStopGeneration := storeStopGeneration + 1;
      isRefreshing := false;
      visibleRefreshCount := 0;
    }

    // -------------------------------------------------------------------------
    // Authority

    function SameServiceAuthority(state: A.Loaded): (same: bool)
      reads this
      ensures same == A.SameAuthority(loadedState, state)
    {
      match loadedState
      case None => false
      case Some(current) => current.service == state.service && current.requiresRestart == state.requiresRestart
    }

    method AdvanceServiceAuthorityEpoch()
      modifies this`serviceAuthorityEpoch, this`idleCleanupPreviewGeneration, this`pendingPrompts
      ensures Authority() == A.Advance(old(Authority()))
    {
      serviceAuthorityEpoch := serviceAuthorityEpoch + 1;
      idleCleanupPreviewGeneration := idleCleanupPreviewGeneration + 1;
      pendingPrompts := pendingPrompts - {A.IdleCleanup};
      ClearPendingSimulatorPrompts();
      assert pendingPrompts == map[] by {
        forall prompt: A.Prompt ensures prompt !in pendingPrompts {
          match prompt case ClearPin | CreatePin | Lifecycle | Override | ReleaseLease | IdleCleanup =>
        }
      }
    }

    method ClearPendingSimulatorPrompts()
      modifies this`pendingPrompts
      ensures pendingPrompts ==
              old(pendingPrompts) - {A.ClearPin, A.CreatePin, A.Lifecycle, A.Override, A.ReleaseLease}
    {
      pendingPrompts := pendingPrompts - {A.ClearPin, A.CreatePin, A.Lifecycle, A.Override, A.ReleaseLease};
    }

    method AcceptLoadedState(state: A.Loaded)
      modifies this`loadedState, this`serviceStatusUnverified,
        this`serviceAuthorityEpoch, this`idleCleanupPreviewGeneration, this`pendingPrompts
      ensures Authority() == A.Accept(old(Authority()), state)
    {
      if !SameServiceAuthority(state) {
        AdvanceServiceAuthorityEpoch();
      }
      loadedState := Some(state);
      serviceStatusUnverified := false;
    }

    method HandleLoadFailure(error: nat, partial: Option<A.Loaded>, hostConfigFileExists: bool)
      modifies this`loadedState, this`serviceStatusUnverified,
        this`serviceAuthorityEpoch, this`idleCleanupPreviewGeneration, this`pendingPrompts
      ensures Authority() == Published(old(Authority()), Fails(error, partial, hostConfigFileExists))
    {
      if partial.Some? && (partial.value.service.None? || partial.value.requiresRestart) {
        AcceptRecoverablePartialState(partial.value);
        return;
      }
      var couldAuthorize := (loadedState.Some? && loadedState.value.hostConfigExists) || hostConfigFileExists;
      if loadedState.Some? && couldAuthorize {
        loadedState := Some(A.WithoutService(loadedState.value));
        AdvanceServiceAuthorityEpoch();
        serviceStatusUnverified := true;
      } else if loadedState.None? && couldAuthorize {
        AdvanceServiceAuthorityEpoch();
        serviceStatusUnverified := true;
      } else if loadedState.Some? && (loadedState.value.service.Some? || loadedState.value.requiresRestart) {
        loadedState := Some(A.WithoutService(loadedState.value));
        AdvanceServiceAuthorityEpoch();
      }
    }

    method AcceptRecoverablePartialState(recovered: A.Loaded)
      modifies this`loadedState, this`serviceStatusUnverified,
        this`serviceAuthorityEpoch, this`idleCleanupPreviewGeneration, this`pendingPrompts
      ensures Authority() == A.Recover(old(Authority()), recovered)
    {
      var snapshot := if loadedState.Some? then loadedState.value.snapshot else None;
      if !SameServiceAuthority(recovered) {
        AdvanceServiceAuthorityEpoch();
      }
      loadedState := Some(recovered.(snapshot := snapshot));
      serviceStatusUnverified := false;
    }

    // -------------------------------------------------------------------------
    // What the operator does

    function CanSendCommands(): (can: bool)
      reads this
      ensures can == A.CanSendCommands(Authority())
    {
      loadedState.Some? && loadedState.value.service.Some?
      && !(loadedState.value.requiresRestart && !serviceStatusUnverified)
      && !serviceStatusUnverified
    }

    method RequestCommand(prompt: A.Prompt, enabled: bool)
      requires Valid() && prompt != A.Override && prompt != A.IdleCleanup
      modifies this`pendingPrompts, this`model
      ensures Valid() && model == Operated(old(model), A.Requests(prompt, enabled))
    {
      model := Operated(model, A.Requests(prompt, enabled));
      if CanSendCommands() && enabled {
        pendingPrompts := pendingPrompts[prompt := serviceAuthorityEpoch];
      }
    }

    /** The broker refused a lifecycle command asked for in epoch `authorityEpoch` but offers an override. */
    method PresentOverride(authorityEpoch: nat, presentable: bool)
      requires Valid()
      modifies this`pendingPrompts, this`model
      ensures Valid() && model == Operated(old(model), A.OverrideNeeded(authorityEpoch, presentable))
    {
      model := Operated(model, A.OverrideNeeded(authorityEpoch, presentable));
      if authorityEpoch == serviceAuthorityEpoch && CanSendCommands() && presentable {
        pendingPrompts := pendingPrompts[A.Override := authorityEpoch];
      }
    }

    method RequestIdleCleanup(idle: bool)
      requires Valid()
      modifies this`idleCleanupPreviewGeneration, this`idleCleanupPreviews, this`model
      ensures Valid() && model == Operated(old(model), A.PreviewStarts(idle))
    {
      model := Operated(model, A.PreviewStarts(idle));
      if CanSendCommands() && idle {
        idleCleanupPreviewGeneration := idleCleanupPreviewGeneration + 1;
        idleCleanupPreviews := idleCleanupPreviews[idleCleanupPreviewGeneration := serviceAuthorityEpoch];
      }
    }

    method ReceiveIdleCleanupPreview(previewGeneration: nat, eligibleCount: nat)
      requires Valid() && previewGeneration in idleCleanupPreviews
      modifies this`pendingPrompts, this`idleCleanupPreviews, this`model
      ensures Valid() && model == Operated(old(model), A.PreviewEnds(previewGeneration, eligibleCount))
    {
      model := Operated(model, A.PreviewEnds(previewGeneration, eligibleCount));
      var askedIn := idleCleanupPreviews[previewGeneration];
      idleCleanupPreviews := idleCleanupPreviews - {previewGeneration};
      if selectedPane == A.Overview && previewGeneration == idleCleanupPreviewGeneration {
        pendingPrompts := if eligibleCount == 0 then pendingPrompts - {A.IdleCleanup}
          else pendingPrompts[A.IdleCleanup := askedIn];
      }
    }

    method SelectPane(pane: A.Pane)
      requires Valid()
      modifies this`selectedPane, this`idleCleanupPreviewGeneration, this`pendingPrompts, this`model
      ensures Valid() && model == Operated(old(model), A.Navigates(pane))
    {
      ChangePane(pane);
      model := Operated(model, A.Navigates(pane));
    }

    method ChangePane(pane: A.Pane)
      modifies this`selectedPane, this`idleCleanupPreviewGeneration, this`pendingPrompts
      ensures Authority() == A.Happens(old(Authority()), A.Navigates(pane))
    {
      selectedPane := pane;
      if pane != A.Overview {
        idleCleanupPreviewGeneration := idleCleanupPreviewGeneration + 1;
        pendingPrompts := pendingPrompts - {A.IdleCleanup};
      }
      if pane != A.Simulators {
        ClearPendingSimulatorPrompts();
      }
    }

    /** Confirming or dismissing a prompt: either way it is gone. */
    method AnswerPrompt(prompt: A.Prompt, confirmed: bool) returns (sends: bool)
      requires Valid()
      modifies this`pendingPrompts, this`model
      ensures Valid() && model == Operated(old(model), A.Answers(prompt))
      ensures sends == (confirmed && CanSendCommands() && prompt in old(pendingPrompts))
    {
      model := Operated(model, A.Answers(prompt));
      sends := confirmed && CanSendCommands() && prompt in pendingPrompts;
      pendingPrompts := pendingPrompts - {prompt};
    }
  }
}
