# Deployment targets and promotion, modelled in Dafny

This project models two pieces of the domain core of seelf, a self-hosted
deployment platform:

- **The Target aggregate.** A deployment target has a name, a URL and a
  provider configuration. Its configuration state is Configuring, Ready or
  Failed, tagged with the version of the current configuration attempt. It
  has a one-way "cleanup requested" flag and an ordered log of uncommitted
  domain events. The commands `NewTarget`, `Rename`, `HasUrl`, `HasProvider`,
  `Configured`, `Reconfigure`, `RequestCleanup` and `Delete` update a
  `Target` object in place and append to its event log. `CheckAvailability`,
  `CleanupStrategy` and `AppCleanupStrategy` are read-only decisions over
  that state.
- **The Promote use case.** The handler looks up an app and one of its
  deployments, then stores a new deployment of the same source under the
  app's next deployment number and returns that number.

Uniqueness facts come from storage queries outside the domain. They arrive
as `Requirement` values that pair a candidate with a precomputed boolean.

The main invariant is `Targets.Target.Valid`. It states seven things:

- Replaying the event log (`TargetEvents.Replay`) rebuilds exactly the
  target's current state.
- The log starts with the single `TargetCreated`.
- Every event in the log carries the target's id.
- The log holds at most one `TargetStateChanged`.
- It holds one `TargetCleanupRequested` exactly when cleanup was requested.
- A Ready target has been Ready at least once.
- A target whose cleanup was requested never goes back to Configuring.

Every command keeps this invariant.

A new `TargetStateChanged` replaces any uncommitted earlier one and goes to
the end of the log (`TargetEvents.RaiseStateChanged`). The lemmas
`ReplayWithoutStateChanges` and `RaiseStateChangedReplay` show that this loses
no information.

Modules:

- `wrappers.dfy`: `Option`, `Result`, `Outcome`.
- `domain_values.dfy`: ids, URL, provider configuration, requirements, errors, target state.
- `target_events.dfy`: events, replay, and the state-change collapse.
- `target.dfy`: the `Target` class.
- `promote.dfy`: stores and handler.
- `target_scenarios.dfy` and `promote_scenarios.dfy`: one method per behaviour that
  `internal/deployment/domain/target_test.go` and
  `internal/deployment/app/promote/promote_test.go` pin down. Each method
  asserts the expected outcome from the contracts alone.

The tests fix most of the behaviour. These are the places where the model
had to choose, and why:

- **Failed targets in `CleanupStrategy`.** target_test.go:294-303 expects
  ConfigurationFailed for a target that was Ready, was reconfigured and then
  failed, and target_test.go:284-292 expects Skip for a target that failed
  without ever being Ready. So the model keeps an "ever Ready" flag that is
  never reset.
- **Fingerprint changes in `HasProvider`.** target_test.go:103-110 refuses a
  configuration whose fingerprint differs, and target_test.go:112-133 accepts
  new data under the same fingerprint. The model refuses every fingerprint
  change, whatever the data.
- **Order of the cleanup check.** The cleanup check comes first in `Rename`,
  `HasUrl`, `HasProvider`, `Reconfigure` and `CheckAvailability`.
  target_test.go:140 needs it to come before the "value unchanged" no-op.
- **Repeated `RequestCleanup`.** A second call succeeds before any other check
  is made.
- **`CleanupStrategy` ordering.** It checks Configuring before running
  deployments.
- **`AppCleanupStrategy` ordering.** It checks running deployments first.
  Next, "no successful deployment or cleanup requested" gives `Skip`.
  Otherwise it gives the same answer as `CleanupStrategy(false)`.
- **Version advance.** Versions are integers. A reconfiguration advances the
  version by one and clears the last error.
- **Stale reports.** A report older than the current version is ignored.
  Any other report raises an event only if it changes the state.
- **Next deployment number.** It is the largest number the app uses plus one,
  or 1 when the app has none.
- **Promoted deployment.** The tests promote a Staging deployment
  (promote_test.go:52) and check only the returned number, not the new
  deployment's environment. The model copies the source payload into the
  Production environment.

## Model

| member | source | states |
|---|---|---|
| `DomainValues.Requirement.Met` | internal/deployment/domain/target_test.go:21-24 | a requirement yields its candidate exactly when it is unique, and the given "already taken" error otherwise |
| `DomainValues.TargetState.Reconfigured` | internal/deployment/domain/target_test.go:188-190 | a new configuration attempt is Configuring, has no error, a strictly newer version, and keeps whether the target was ever Ready |
| `DomainValues.TargetState.AfterReport` | internal/deployment/domain/target_test.go:156-170 | a report older than the current version leaves the state as it is; otherwise success means Ready and failure means Failed with the error recorded; success marks the target as once Ready |
| `DomainValues.AfterReportIdempotent` | internal/deployment/domain/target_test.go:164-167 | reporting the same outcome twice changes nothing the second time |
| `TargetEvents.CountWithoutStateChanges` | internal/deployment/domain/target_test.go:143-154 | dropping the pending state changes leaves no state change and every other kind of event as often as before |
| `TargetEvents.WithoutStateChangesKeepsOnlyLogEvents` | internal/deployment/domain/target_test.go:143-154 | dropping the state changes keeps only events of the log, and keeps its first event |
| `TargetEvents.WithoutStateChangesNone` | internal/deployment/domain/target_test.go:83-86 | a log without state changes is kept as it is, so the change event stays just before the new state change |
| `TargetEvents.ReplayWithoutStateChanges` | internal/deployment/domain/target_test.go:143-154 | removing superseded state changes loses nothing but the state: both logs replay to the same target once the state is overwritten |
| `TargetEvents.RaiseStateChanged` | internal/deployment/domain/target_test.go:143-154 | raising a state change puts it last in the log, after only events already in the log and none of them a state change |
| `TargetEvents.CreatedLog` | internal/deployment/domain/target_test.go:37-42 | a log holding only the creation event replays to the created target and counts one creation and nothing else |
| `TargetEvents.RaiseStateChangedReplay` | internal/deployment/domain/target_test.go:143-154 | raising a state change replays to the old target with only its state replaced |
| `TargetEvents.RaiseStateChangedCounts` | internal/deployment/domain/target_test.go:143-154 | after raising a state change the log holds exactly one state change and every other kind of event as often as before |
| `TargetEvents.RaiseStateChangedKeeps` | internal/deployment/domain/target_test.go:143-154 | raising a state change adds no event but that state change and keeps the creation event first |
| `Targets.Target.constructor` | internal/deployment/domain/target_test.go:37-50 | a new target is Configuring, carries its name, URL, provider and creator, and has one `TargetCreated` event |
| `Targets.Target.NewTarget` | internal/deployment/domain/target_test.go:27-50 | fails with UrlAlreadyTaken on a taken URL, then with ConfigAlreadyTaken on a taken configuration; otherwise builds a valid target whose only event is `TargetCreated` |
| `Targets.Target.CurrentVersion` | internal/deployment/domain/target_test.go:156-170 | a report tagged with the current version is never discarded: success gives Ready and an error gives Failed |
| `Targets.Target.Raise` | internal/deployment/domain/target_test.go:52-63 | appends exactly the given event, applies it to the replayed target and adds one to the count of its kind only |
| `Targets.Target.ChangeState` | internal/deployment/domain/target_test.go:143-154 | a state change replaces any pending `TargetStateChanged` with one carrying the new state, at the end of the log |
| `Targets.Target.Rename` | internal/deployment/domain/target_test.go:52-71 | refused once cleanup is requested; renaming to the current name raises nothing; otherwise raises `TargetRenamed` |
| `Targets.Target.HasUrl` | internal/deployment/domain/target_test.go:73-101 | refused once cleanup is requested or for a taken URL; the current URL is a no-op; a new URL raises `TargetUrlChanged` then one `TargetStateChanged` to Configuring |
| `Targets.Target.HasProvider` | internal/deployment/domain/target_test.go:103-141 | refused once cleanup is requested, for a taken configuration, or when the fingerprint differs; the same configuration is a no-op; a new one raises `TargetProviderChanged` then one `TargetStateChanged` to Configuring |
| `Targets.Target.Configured` | internal/deployment/domain/target_test.go:156-202 | stale reports change nothing; a report that changes the state raises a single pending `TargetStateChanged`; afterwards availability is success or ConfigurationFailed |
| `Targets.Target.Reconfigure` | internal/deployment/domain/target_test.go:204-216 | refused once cleanup is requested or while configuring; otherwise starts a new attempt with one pending `TargetStateChanged` |
| `Targets.Target.CheckAvailability` | internal/deployment/domain/target_test.go:172-202 | available exactly when Ready and not being cleaned up; otherwise CleanupRequested, ConfigurationInProgress or ConfigurationFailed |
| `Targets.Target.RequestCleanup` | internal/deployment/domain/target_test.go:218-252 | refused while configuring or in use; the first success raises one `TargetCleanupRequested` with the target ID, later calls raise nothing; afterwards the target is unavailable |
| `Targets.Target.CleanupStrategy` | internal/deployment/domain/target_test.go:254-313 | Configuring is an error, then running deployments; Ready gives Default; Failed gives Skip if it was never Ready or cleanup was requested, ConfigurationFailed otherwise |
| `Targets.Target.AppCleanupStrategy` | internal/deployment/domain/target_test.go:315-371 | running deployments are an error first; no successful deployment or a cleanup request gives Skip; otherwise the same as the target's own strategy |
| `Targets.Target.Delete` | internal/deployment/domain/target_test.go:373-400 | succeeds, raising `TargetDeleted`, exactly when cleanup was requested and resources are cleaned; otherwise CleanupNeeded and nothing changes |
| `Targets.CleanupRequestedHasStrategy` | internal/deployment/domain/target_test.go:271-282 | once cleanup is requested and no deployment is running, the target strategy is decided and the app strategy is Skip |
| `TargetScenarios.TwoChangesCollapse` | internal/deployment/domain/target_test.go:143-154 | a URL change then a provider change leave four events: creation, both change events, and one state change last |
| `TargetScenarios.NewValidTarget` | internal/deployment/domain/target_test.go:53 | the fixture target built from unique requirements is valid and holds only its creation event |
| `TargetScenarios.NewReadyTarget` | internal/deployment/domain/target_test.go:219-220 | after a successful first report the fixture target is Ready with two events |
| `TargetScenarios.NewFailedAfterReadyTarget` | internal/deployment/domain/target_test.go:295-298 | Ready, reconfigured, then failed: Failed and once Ready |
| `Promote.NextNumberIsUnique` | internal/deployment/app/promote/promote_test.go:51-62 | the next deployment number of an app is uniquely determined |
| `Promote.NextNumberKeepsNumberingGapless` | internal/deployment/app/promote/promote_test.go:51-62 | if an app's deployments are numbered 1..k, the next is k + 1 and afterwards they are numbered 1..k + 1 |
| `Promote.PromotedDeployment` | internal/deployment/app/promote/promote_test.go:51-62 | the promoted deployment belongs to the app under the given number, copies the source payload, goes to Production and records the requester |
| `Promote.AppsStore.constructor` | internal/deployment/app/promote/promote_test.go:23 | the store holds the given apps |
| `Promote.AppsStore.GetByID` | internal/deployment/app/promote/promote_test.go:30-38 | finds a stored app, otherwise NotFound |
| `Promote.DeploymentsStore.constructor` | internal/deployment/app/promote/promote_test.go:26 | the store holds the given deployments |
| `Promote.DeploymentsStore.GetByID` | internal/deployment/app/promote/promote_test.go:40-49 | finds a stored deployment by app and number, otherwise NotFound |
| `Promote.DeploymentsStore.GetNextDeploymentNumber` | internal/deployment/app/promote/promote_test.go:51-62 | returns one more than the largest number the app uses, or 1 |
| `Promote.DeploymentsStore.Write` | internal/deployment/app/promote/promote_test.go:25-28 | stores the deployment under its ID and keeps every deployment under its own ID |
| `Promote.Handle` | internal/deployment/app/promote/promote_test.go:30-62 | NotFound and 0, with nothing stored, for an unknown app or source deployment; otherwise stores the promoted copy under the next number (at least 2) and returns it, keeping the numbering gapless |

## Left out

- URL parsing and validation: URLs are opaque strings compared by equality.
- Provider configuration internals: `Kind()` and `String()` are not modelled; a configuration is its data and fingerprint, compared structurally.
- Identifier generation, timestamps and error message text: ids and the requester are parameters, and errors are an enumeration.
- Wall-clock time: configuration versions are integers; the model does not say how the system picks a version beyond "newer than the previous one".
- The App aggregate is not part of this model. That covers app creation, environment-configuration requirements, the per-environment target bindings, and any rule of its own that refuses a promotion. `Promote.Handle` assumes a valid, stored app.
- The Deployment aggregate is reduced to its id, source payload, environment and requester. Its status and its configuration snapshot are not modelled.
- Draining and dispatching uncommitted events after a save: the repository layer is not part of this model, so the log only grows or collapses its pending state change.
- Targets loaded from storage: `Targets.Target.Valid` requires the uncommitted log to start with `TargetCreated` and to hold the cleanup request, so every command is modelled only for a target created in the same session. A reloaded target with an empty log of unsaved events is outside the model.
- The in-memory stores are modelled only as maps. The command bus and the authentication context (the requester is a parameter) are not modelled.
- Optimistic concurrency between handlers: the model is sequential.
- `Targets.Target.Delete`: nothing stops a second `Delete` from raising a second `TargetDeleted`. No guard against it is visible.
