/**
 * The Target aggregate: a deployment target whose configuration state,
 * cleanup request and uncommitted domain events are updated in place by its
 * commands, and whose availability and cleanup decisions are read-only
 * queries over that state.
 */
module Targets {
  import opened Wrappers
  import opened DomainValues
  import opened TargetEvents

  class Target {
    const id: TargetId
    const createdBy: UserId
    var name: string
    var url: Url
    var provider: ProviderConfig
    var state: TargetState
    /** Who asked for the target's resources to be cleaned up; once set, never reset. */
    var cleanupRequestedBy: Option<UserId>
    /** Events raised since the target was loaded, oldest first. */
    var events: seq<TargetEvent>

    ghost function Snapshot(): TargetSnapshot
      reads this
    {
      TargetSnapshot(id, name, url, provider, state, cleanupRequestedBy, createdBy)
    }

    /**
     * The aggregate's invariant: the event log starts with the creation of
     * this target, holds at most one pending state change and one cleanup
     * request per request made, and replays to exactly the current state; a
     * ready target has been ready at least once, and a target whose cleanup
     * was requested is never configuring again.
     */
    ghost predicate Valid()
      reads this
    {
      && |events| > 0 && events[0].TargetCreated?
      && (forall e | e in events :: e.id == id)
      && Count(events, CreatedKind) == 1
      && Count(events, StateChangedKind) <= 1
      && Count(events, CleanupRequestedKind) == (if cleanupRequestedBy.Some? then 1 else 0)
      && Replay(events) == Some(Snapshot())
      && (state.status.Ready? ==> state.everReady)
      && (cleanupRequestedBy.Some? ==> !state.status.Configuring?)
    }

    /** A target in its first configuration attempt, with its creation as the only event. */
    constructor (id: TargetId, name: string, url: Url, provider: ProviderConfig, createdBy: UserId)
      ensures Valid()
      ensures Snapshot() == TargetSnapshot(id, name, url, provider, InitialState, None, createdBy)
      ensures events == [TargetCreated(id, name, url, provider, InitialState, createdBy)]
    {
      this.id := id;
      this.createdBy := createdBy;
      this.name := name;
      this.url := url;
      this.provider := provider;
      this.state := InitialState;
      this.cleanupRequestedBy := None;
      this.events := [TargetCreated(id, name, url, provider, InitialState, createdBy)];
      new;
      CreatedLog(events[0]);
    }

    /**
     * Creates a target once both its URL and its provider configuration are
     * known to be unique.
     */
    static method NewTarget(
      id: TargetId, name: string, urlRequirement: Requirement<Url>,
      providerRequirement: Requirement<ProviderConfig>, createdBy: UserId)
      returns (r: Result<Target, TargetError>)
      ensures !urlRequirement.unique ==> r == Err(UrlAlreadyTaken)
      ensures urlRequirement.unique && !providerRequirement.unique ==> r == Err(ConfigAlreadyTaken)
      ensures r.Ok? <==> urlRequirement.unique && providerRequirement.unique
      ensures r.Ok? ==> fresh(r.value) && r.value.Valid()
      ensures r.Ok? ==> (r.value.Snapshot() ==
        TargetSnapshot(id, name, urlRequirement.candidate, providerRequirement.candidate, InitialState, None, createdBy))
      ensures r.Ok? ==> (r.value.events ==
        [TargetCreated(id, name, urlRequirement.candidate, providerRequirement.candidate, InitialState, createdBy)])
    {
      var u := urlRequirement.Met(UrlAlreadyTaken);
      if u.Err? {
        return Err(u.error);
      }
      var p := providerRequirement.Met(ConfigAlreadyTaken);
      if p.Err? {
        return Err(p.error);
      }
      var t := new Target(id, name, u.value, p.value, createdBy);
      r := Ok(t);
    }

    /** The version of the attempt in progress: a report tagged with it is never discarded as stale. */
    function CurrentVersion(): (v: int)
      reads this
      ensures forall err: Option<string> ::
        state.AfterReport(v, err).status == (if err.None? then Ready else Failed)
    {
      state.version
    }

    /** Appends one event that is not a state change. */
    method Raise(e: TargetEvent)
      modifies this`events
      ensures events == old(events) + [e]
      ensures Replay(events) == Evolve(Replay(old(events)), e)
      ensures forall k :: Count(events, k) == Count(old(events), k) + (if e.Kind() == k then 1 else 0)
    {
      ReplayAppend(events, e);
      forall k {
        CountAppend(events, e, k);
      }
      events := events + [e];
    }

    /** Moves to state `next` and raises the single pending `TargetStateChanged` for it. */
    method ChangeState(next: TargetState)
      requires Valid()
      requires next.status.Ready? ==> next.everReady
      requires cleanupRequestedBy.Some? ==> !next.status.Configuring?
      modifies this
      ensures Valid()
      ensures Snapshot() == old(Snapshot()).(state := next)
      ensures events == RaiseStateChanged(old(events), id, next)
    {
      RaiseStateChangedReplay(events, id, next);
      RaiseStateChangedCounts(events, id, next);
      RaiseStateChangedKeeps(events, id, next);
      state := next;
      events := RaiseStateChanged(events, id, next);
    }

    /** Renames the target; renaming it to its current name raises nothing. */
    method Rename(newName: string) returns (r: Outcome<TargetError>)
      requires Valid()
      modifies this
      ensures Valid()
      ensures r == if old(cleanupRequestedBy).Some? then Fail(CleanupRequested) else Pass
      ensures Snapshot() == if r.Pass? then old(Snapshot()).(name := newName) else old(Snapshot())
      ensures events == if r.Pass? && newName != old(name) then old(events) + [TargetRenamed(id, newName)] else old(events)
    {
      if cleanupRequestedBy.Some? {
        return Fail(CleanupRequested);
      }
      r := Pass;
      if name == newName {
        return;
      }
      name := newName;
      Raise(TargetRenamed(id, newName));
    }

    /**
     * Points the target at a new URL, which must be unique. A real change
     * raises `TargetUrlChanged` and starts a new configuration attempt.
     */
    method HasUrl(requirement: Requirement<Url>) returns (r: Outcome<TargetError>)
      requires Valid()
      modifies this
      ensures Valid()
      ensures r == if old(cleanupRequestedBy).Some? then Fail(CleanupRequested)
                   else if !requirement.unique then Fail(UrlAlreadyTaken)
                   else Pass
      ensures r.Fail? || requirement.candidate == old(url) ==>
        Snapshot() == old(Snapshot()) && events == old(events)
      ensures r.Pass? && requirement.candidate != old(url) ==>
        && Snapshot() == old(Snapshot()).(url := requirement.candidate, state := old(state).Reconfigured())
        && events == RaiseStateChanged(old(events) + [TargetUrlChanged(id, requirement.candidate)], id, state)
    {
      if cleanupRequestedBy.Some? {
        return Fail(CleanupRequested);
      }
      var met := requirement.Met(UrlAlreadyTaken);
      if met.Err? {
        return Fail(met.error);
      }
      r := Pass;
      if url == met.value {
        return;
      }
      url := met.value;
      Raise(TargetUrlChanged(id, url));
      ChangeState(state.Reconfigured());
    }

    /**
     * Replaces the provider configuration, which must be unique and keep the
     * current fingerprint. A real change raises `TargetProviderChanged` and
     * starts a new configuration attempt.
     */
    method HasProvider(requirement: Requirement<ProviderConfig>) returns (r: Outcome<TargetError>)
      requires Valid()
      modifies this
      ensures Valid()
      ensures r == if old(cleanupRequestedBy).Some? then Fail(CleanupRequested)
                   else if !requirement.unique then Fail(ConfigAlreadyTaken)
                   else if requirement.candidate.fingerprint != old(provider).fingerprint then Fail(ProviderUpdateNotPermitted)
                   else Pass
      ensures r.Fail? || requirement.candidate == old(provider) ==>
        Snapshot() == old(Snapshot()) && events == old(events)
      ensures r.Pass? && requirement.candidate != old(provider) ==>
        && Snapshot() == old(Snapshot()).(provider := requirement.candidate, state := old(state).Reconfigured())
        && events == RaiseStateChanged(old(events) + [TargetProviderChanged(id, requirement.candidate)], id, state)
    {
      if cleanupRequestedBy.Some? {
        return Fail(CleanupRequested);
      }
      var met := requirement.Met(ConfigAlreadyTaken);
      if met.Err? {
        return Fail(met.error);
      }
      if provider.fingerprint != met.value.fingerprint {
        return Fail(ProviderUpdateNotPermitted);
      }
      r := Pass;
      if provider == met.value {
        return;
      }
      provider := met.value;
      Raise(TargetProviderChanged(id, provider));
      ChangeState(state.Reconfigured());
    }

    /**
     * Records the outcome of the configuration attempt tagged `version`
     * (`err` is None on success). Stale reports are ignored, and a report that
     * changes nothing raises nothing.
     */
    method Configured(version: int, err: Option<string>)
      requires Valid()
      modifies this
      ensures Valid()
      ensures Snapshot() == old(Snapshot()).(state := old(state).AfterReport(version, err))
      ensures events == if state == old(state) then old(events) else RaiseStateChanged(old(events), id, state)
      ensures version < old(state.version) ==> Snapshot() == old(Snapshot()) && events == old(events)
      ensures version >= old(state.version) && cleanupRequestedBy.None? ==>
        CheckAvailability() == if err.None? then Pass else Fail(ConfigurationFailed)
    {
      var next := state.AfterReport(version, err);
      if next == state {
        return;
      }
      ChangeState(next);
    }

    /** Asks for a new configuration attempt of a target that is not configuring. */
    method Reconfigure() returns (r: Outcome<TargetError>)
      requires Valid()
      modifies this
      ensures Valid()
      ensures r == if old(cleanupRequestedBy).Some? then Fail(CleanupRequested)
                   else if old(state.status).Configuring? then Fail(ConfigurationInProgress)
                   else Pass
      ensures r.Fail? ==> Snapshot() == old(Snapshot()) && events == old(events)
      ensures r.Pass? ==> Snapshot() == old(Snapshot()).(state := old(state).Reconfigured())
      ensures r.Pass? ==> events == RaiseStateChanged(old(events), id, state)
    {
      if cleanupRequestedBy.Some? {
        return Fail(CleanupRequested);
      }
      if state.status.Configuring? {
        return Fail(ConfigurationInProgress);
      }
      ChangeState(state.Reconfigured());
      r := Pass;
    }

    /** Whether deployments may use the target right now. */
    function CheckAvailability(): (r: Outcome<TargetError>)
      reads this
      ensures r.Pass? <==> cleanupRequestedBy.None? && state.status.Ready?
      ensures cleanupRequestedBy.Some? ==> r == Fail(CleanupRequested)
      ensures cleanupRequestedBy.None? && state.status.Configuring? ==> r == Fail(ConfigurationInProgress)
      ensures cleanupRequestedBy.None? && state.status.Failed? ==> r == Fail(ConfigurationFailed)
    {
      if cleanupRequestedBy.Some? then Fail(CleanupRequested)
      else match state.status
        case Configuring => Fail(ConfigurationInProgress)
        case Failed => Fail(ConfigurationFailed)
        case Ready => Pass
    }

    /**
     * Asks for the target's resources to be cleaned up, which is possible only
     * once no app uses it and no configuration is in progress. Asking again
     * succeeds and raises nothing.
     */
    method RequestCleanup(inUse: bool, requestedBy: UserId) returns (r: Outcome<TargetError>)
      requires Valid()
      modifies this
      ensures Valid()
      ensures r == if old(cleanupRequestedBy).Some? then Pass
                   else if old(state.status).Configuring? then Fail(ConfigurationInProgress)
                   else if inUse then Fail(InUse)
                   else Pass
      ensures Snapshot() == if old(cleanupRequestedBy).None? && r.Pass?
                            then old(Snapshot()).(cleanupRequestedBy := Some(requestedBy))
                            else old(Snapshot())
      ensures events == if old(cleanupRequestedBy).None? && r.Pass?
                        then old(events) + [TargetCleanupRequested(id, requestedBy)]
                        else old(events)
      ensures r.Pass? ==> CheckAvailability() == Fail(CleanupRequested)
      ensures Count(events, CleanupRequestedKind) <= 1
    {
      if cleanupRequestedBy.Some? {
        return Pass;
      }
      if state.status.Configuring? {
        return Fail(ConfigurationInProgress);
      }
      if inUse {
        return Fail(InUse);
      }
      cleanupRequestedBy := Some(requestedBy);
      Raise(TargetCleanupRequested(id, requestedBy));
      r := Pass;
    }

    /** How the target's resources must be cleaned up before it is deleted. */
    function CleanupStrategy(runningOrPendingDeployments: bool): (r: Result<TargetCleanupStrategy, TargetError>)
      reads this
      ensures state.status.Configuring? ==> r == Err(ConfigurationInProgress)
      ensures !state.status.Configuring? && runningOrPendingDeployments ==> r == Err(RunningOrPendingDeployments)
      ensures r == Ok(CleanupStrategyDefault) <==> state.status.Ready? && !runningOrPendingDeployments
      ensures r == Ok(CleanupStrategySkip) <==>
        state.status.Failed? && !runningOrPendingDeployments && (!state.everReady || cleanupRequestedBy.Some?)
      ensures r == Err(ConfigurationFailed) <==>
        state.status.Failed? && !runningOrPendingDeployments && state.everReady && cleanupRequestedBy.None?
    {
      if state.status.Configuring? then Err(ConfigurationInProgress)
      else if runningOrPendingDeployments then Err(RunningOrPendingDeployments)
      else if state.status.Ready? then Ok(CleanupStrategyDefault)
      else if !state.everReady || cleanupRequestedBy.Some? then Ok(CleanupStrategySkip)
      else Err(ConfigurationFailed)
    }

    /**
     * How an app's resources on this target must be cleaned up: nothing to do
     * if the app never deployed successfully here or the whole target is being
     * cleaned up, otherwise as for the target itself.
     */
    function AppCleanupStrategy(runningOrPendingDeployments: bool, successfulDeployments: bool)
      : (r: Result<TargetCleanupStrategy, TargetError>)
      reads this
      ensures runningOrPendingDeployments ==> r == Err(RunningOrPendingDeployments)
      ensures !runningOrPendingDeployments && (!successfulDeployments || cleanupRequestedBy.Some?) ==>
        r == Ok(CleanupStrategySkip)
      ensures !runningOrPendingDeployments && successfulDeployments && cleanupRequestedBy.None? ==>
        r == CleanupStrategy(false)
    {
      if runningOrPendingDeployments then Err(RunningOrPendingDeployments)
      else if !successfulDeployments || cleanupRequestedBy.Some? then Ok(CleanupStrategySkip)
      else match state.status
        case Configuring => Err(ConfigurationInProgress)
        case Ready => Ok(CleanupStrategyDefault)
        case Failed => if state.everReady then Err(ConfigurationFailed) else Ok(CleanupStrategySkip)
    }

    /** Deletes a target whose cleanup was requested and whose resources are gone. */
    method Delete(resourcesCleaned: bool) returns (r: Outcome<TargetError>)
      requires Valid()
      modifies this
      ensures Valid()
      ensures r.Pass? <==> cleanupRequestedBy.Some? && resourcesCleaned
      ensures r.Fail? ==> r.error == CleanupNeeded
      ensures Snapshot() == old(Snapshot())
      ensures events == if r.Pass? then old(events) + [TargetDeleted(id)] else old(events)
    {
      if cleanupRequestedBy.None? || !resourcesCleaned {
        return Fail(CleanupNeeded);
      }
      Raise(TargetDeleted(id));
      r := Pass;
    }
  }

  /**
   * Once its cleanup is requested, a valid target with no deployment in
   * flight always has a cleanup strategy: it can no longer be configuring.
   */
  lemma CleanupRequestedHasStrategy(t: Target)
    requires t.Valid() && t.cleanupRequestedBy.Some?
    ensures t.CleanupStrategy(false).Ok?
    ensures t.AppCleanupStrategy(false, true) == Ok(CleanupStrategySkip)
  {
  }
}
