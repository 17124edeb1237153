/**
 * The Target behaviours pinned down by the repository's tests, replayed
 * against the contracts of the Target aggregate: each method is one
 * scenario, and its assertions are what the scenario expects.
 */
module TargetScenarios {
  import opened Wrappers
  import opened DomainValues
  import opened TargetEvents
  import opened Targets

  const TheName := "my-target"
  const TheUrl := "http://my-url.com"
  const NewUrl := "http://new-url.com"
  const TheConfig := ProviderConfig("", "")
  const Uid := "uid"
  const Tid := "target-1"

  /** A target created with a unique URL and a unique configuration. */
  method NewValidTarget() returns (t: Target)
    ensures fresh(t) && t.Valid()
    ensures t.Snapshot() == TargetSnapshot(Tid, TheName, TheUrl, TheConfig, InitialState, None, Uid)
    ensures t.events == [TargetCreated(Tid, TheName, TheUrl, TheConfig, InitialState, Uid)]
  {
    var r := Target.NewTarget(Tid, TheName, Requirement(TheUrl, true), Requirement(TheConfig, true), Uid);
    t := r.value;
  }

  /** A target whose first configuration attempt succeeded. */
  method NewReadyTarget() returns (t: Target)
    ensures fresh(t) && t.Valid()
    ensures t.id == Tid && t.state.status.Ready? && t.cleanupRequestedBy.None? && |t.events| == 2
  {
    t := NewValidTarget();
    WithoutStateChangesNone(t.events);
    t.Configured(t.CurrentVersion(), None);
  }

  method CreationRequiresUniqueness() {
    var r1 := Target.NewTarget(Tid, TheName, Requirement(TheUrl, false), Requirement(TheConfig, true), Uid);
    assert r1 == Err(UrlAlreadyTaken);
    var r2 := Target.NewTarget(Tid, TheName, Requirement(TheUrl, true), Requirement(TheConfig, false), Uid);
    assert r2 == Err(ConfigAlreadyTaken);
    var t := NewValidTarget();
    assert |t.events| == 1 && t.events[0].TargetCreated?;
    assert t.events[0].name == TheName && t.events[0].url == TheUrl && t.events[0].provider == TheConfig;
    assert t.events[0].state.status.Configuring? && t.events[0].createdBy == Uid;
  }

  method RenameRaisesOnlyWhenDifferent() {
    var t := NewValidTarget();
    var r := t.Rename("new-name");
    assert r == Pass && t.events[1] == TargetRenamed(Tid, "new-name");
    r := t.Rename("new-name");
    assert r == Pass && |t.events| == 2;
  }

  method NothingChangesOnceCleanupRequested() {
    var t := NewReadyTarget();
    var r := t.RequestCleanup(false, Uid);
    assert r == Pass;
    r := t.Rename("new-name");
    assert r == Fail(CleanupRequested);
    r := t.HasUrl(Requirement(NewUrl, true));
    assert r == Fail(CleanupRequested);
    r := t.HasProvider(Requirement(TheConfig, true));
    assert r == Fail(CleanupRequested);
    r := t.Reconfigure();
    assert r == Fail(CleanupRequested);
  }

  method UrlChangeRaisesOnlyWhenDifferent() {
    var t := NewValidTarget();
    var r := t.HasUrl(Requirement(NewUrl, false));
    assert r == Fail(UrlAlreadyTaken);
    WithoutStateChangesNone(t.events + [TargetUrlChanged(Tid, NewUrl)]);
    r := t.HasUrl(Requirement(NewUrl, true));
    assert r == Pass;
    assert t.events[1] == TargetUrlChanged(Tid, NewUrl);
    assert t.events[2].TargetStateChanged? && t.events[2].state.status.Configuring?;
    r := t.HasUrl(Requirement(NewUrl, true));
    assert r == Pass && |t.events| == 3;
  }

  method ProviderFingerprintCannotChange() {
    var t := NewValidTarget();
    var r := t.HasProvider(Requirement(ProviderConfig("new-config", "new-fingerprint"), true));
    assert r == Fail(ProviderUpdateNotPermitted);
  }

  method ProviderChangeRaisesOnlyWhenDifferent() {
    var t := NewValidTarget();
    var newConfig := ProviderConfig("new-config", "");
    var r := t.HasProvider(Requirement(newConfig, false));
    assert r == Fail(ConfigAlreadyTaken);
    WithoutStateChangesNone(t.events + [TargetProviderChanged(Tid, newConfig)]);
    r := t.HasProvider(Requirement(newConfig, true));
    assert r == Pass;
    assert t.events[1] == TargetProviderChanged(Tid, newConfig);
    assert t.events[2].TargetStateChanged? && t.events[2].state.status.Configuring?;
    r := t.HasProvider(Requirement(newConfig, true));
    assert r == Pass && |t.events| == 3;
  }

  /** A URL change then a provider change leave one state change, last, after both change events. */
  lemma TwoChangesCollapse(created: TargetEvent, urlChanged: TargetEvent, providerChanged: TargetEvent, s1: TargetState, s2: TargetState)
    requires !created.TargetStateChanged? && !urlChanged.TargetStateChanged? && !providerChanged.TargetStateChanged?
    ensures RaiseStateChanged(RaiseStateChanged([created] + [urlChanged], Tid, s1) + [providerChanged], Tid, s2)
         == [created, urlChanged, providerChanged, TargetStateChanged(Tid, s2)]
  {
    var first := [created, urlChanged];
    assert [created] + [urlChanged] == first;
    WithoutStateChangesNone(first);
    var log := first + [TargetStateChanged(Tid, s1)];
    assert log[..|log| - 1] == first;
    assert WithoutStateChanges(log) == first;
    var next := log + [providerChanged];
    assert next[..|next| - 1] == log;
    assert WithoutStateChanges(next) == first + [providerChanged];
  }

  method UrlAndProviderChangeRaiseOneStateChange() {
    var t := NewValidTarget();
    var created := t.events[0];
    var r := t.HasUrl(Requirement(NewUrl, true));
    var s1 := t.state;
    var newConfig := ProviderConfig("new-config", "");
    r := t.HasProvider(Requirement(newConfig, true));
    TwoChangesCollapse(created, TargetUrlChanged(Tid, NewUrl), TargetProviderChanged(Tid, newConfig), s1, t.state);
    assert |t.events| == 4;
    assert t.events[3].TargetStateChanged? && t.events[3].state.status.Configuring?;
  }

  method ConfiguredIgnoresStaleAndRepeatedReports() {
    var t := NewValidTarget();
    t.Configured(t.CurrentVersion() - 1, None);
    assert |t.events| == 1 && t.events[0].TargetCreated?;
    WithoutStateChangesNone(t.events);
    t.Configured(t.CurrentVersion(), None);
    t.Configured(t.CurrentVersion(), None);
    assert |t.events| == 2 && t.events[1].TargetStateChanged? && t.events[1].state.status.Ready?;
  }

  method AvailabilityFollowsState() {
    var t := NewValidTarget();
    assert t.CheckAvailability() == Fail(ConfigurationInProgress);
    t.Configured(t.CurrentVersion(), Some("configuration failed"));
    assert t.CheckAvailability() == Fail(ConfigurationFailed);
    var r := t.Reconfigure();
    t.Configured(t.CurrentVersion(), None);
    assert t.CheckAvailability() == Pass;
    r := t.RequestCleanup(false, Uid);
    assert t.CheckAvailability() == Fail(CleanupRequested);
  }

  method ReconfigureRefusedWhileConfiguring() {
    var t := NewValidTarget();
    var r := t.Reconfigure();
    assert r == Fail(ConfigurationInProgress);
  }

  method CleanupRequestRules() {
    var t := NewReadyTarget();
    var r := t.RequestCleanup(true, Uid);
    assert r == Fail(InUse);
    var c := NewValidTarget();
    r := c.RequestCleanup(false, Uid);
    assert r == Fail(ConfigurationInProgress);
    r := t.RequestCleanup(false, Uid);
    assert r == Pass && |t.events| == 3 && t.events[2] == TargetCleanupRequested(Tid, Uid);
    r := t.RequestCleanup(false, Uid);
    assert r == Pass && |t.events| == 3;
  }

  /** Ready, then reconfigured, then failed: it was reachable once. */
  method NewFailedAfterReadyTarget() returns (t: Target)
    ensures fresh(t) && t.Valid()
    ensures t.state.status.Failed? && t.state.everReady && t.cleanupRequestedBy.None?
  {
    t := NewReadyTarget();
    var r := t.Reconfigure();
    t.Configured(t.CurrentVersion(), Some("configuration failed"));
  }

  method CleanupStrategyDecisions() {
    var t := NewValidTarget();
    assert t.CleanupStrategy(false) == Err(ConfigurationInProgress);
    var ready := NewReadyTarget();
    assert ready.CleanupStrategy(true) == Err(RunningOrPendingDeployments);
    assert ready.CleanupStrategy(false) == Ok(CleanupStrategyDefault);
    t.Configured(t.CurrentVersion(), Some("configuration failed"));
    assert t.CleanupStrategy(false) == Ok(CleanupStrategySkip);
    var failed := NewFailedAfterReadyTarget();
    assert failed.CleanupStrategy(false) == Err(ConfigurationFailed);
    var r := failed.RequestCleanup(false, Uid);
    assert failed.CleanupStrategy(false) == Ok(CleanupStrategySkip);
  }

  method AppCleanupStrategyDecisions() {
    var t := NewValidTarget();
    assert t.AppCleanupStrategy(false, true) == Err(ConfigurationInProgress);
    assert t.AppCleanupStrategy(false, false) == Ok(CleanupStrategySkip);
    var ready := NewReadyTarget();
    assert ready.AppCleanupStrategy(true, false) == Err(RunningOrPendingDeployments);
    assert ready.AppCleanupStrategy(false, true) == Ok(CleanupStrategyDefault);
    var failed := NewFailedAfterReadyTarget();
    assert failed.AppCleanupStrategy(false, true) == Err(ConfigurationFailed);
    var r := ready.RequestCleanup(false, Uid);
    assert ready.AppCleanupStrategy(false, false) == Ok(CleanupStrategySkip);
  }

  method DeletionRules() {
    var t := NewValidTarget();
    var r := t.Delete(true);
    assert r == Fail(CleanupNeeded);
    var ready := NewReadyTarget();
    r := ready.RequestCleanup(false, Uid);
    r := ready.Delete(false);
    assert r == Fail(CleanupNeeded);
    r := ready.Delete(true);
    assert r == Pass && ready.events[3] == TargetDeleted(Tid);
  }
}
