/**
 * The Promote use case: given an app and one of its deployments, create a
 * new deployment of the same source, numbered after every deployment the app
 * already has, and store it.
 */
module Promote {
  import opened Wrappers

  type AppId = string
  type UserId = string
  /** The payload a deployment was made from (an archive, a git reference, raw file content); opaque here. */
  type SourceData = string

  datatype Environment = Production | Staging

  datatype App = App(id: AppId, name: string)

  /** A deployment is identified by its app and its number within that app. */
  datatype DeploymentId = DeploymentId(app: AppId, number: int)

  datatype Deployment = Deployment(id: DeploymentId, source: SourceData, environment: Environment, requestedBy: UserId)

  datatype AppError = NotFound

  /** The command handled: promote deployment `deploymentNumber` of app `appId`. */
  datatype Command = Command(appId: string, deploymentNumber: int)

  /**
   * `n` is the number the next deployment of `app` gets: one more than the
   * largest number the app has so far, or 1 if it has none.
   */
  ghost predicate IsNextNumber(keys: set<DeploymentId>, app: AppId, n: int) {
    && n >= 1
    && (forall id | id in keys && id.app == app :: id.number < n)
    && (n == 1 || DeploymentId(app, n - 1) in keys)
  }

  /** The deployments of `app` are numbered exactly 1, 2, ..., k. */
  ghost predicate NumberedUpTo(keys: set<DeploymentId>, app: AppId, k: nat) {
    && (forall id | id in keys && id.app == app :: 1 <= id.number <= k)
    && (forall n | 1 <= n <= k :: DeploymentId(app, n) in keys)
  }

  /** At most one number is the next one. */
  lemma NextNumberIsUnique(keys: set<DeploymentId>, app: AppId, n1: int, n2: int)
    requires IsNextNumber(keys, app, n1) && IsNextNumber(keys, app, n2)
    ensures n1 == n2
  {
  }

  /**
   * Numbering has no gaps: if an app's deployments are numbered 1..k, the
   * next one is k + 1, and after it is stored they are numbered 1..k + 1.
   */
  lemma NextNumberKeepsNumberingGapless(keys: set<DeploymentId>, app: AppId, k: nat, n: int)
    requires NumberedUpTo(keys, app, k) && IsNextNumber(keys, app, n)
    ensures n == k + 1
    ensures NumberedUpTo(keys + {DeploymentId(app, n)}, app, n)
  {
    if k > 0 {
      assert DeploymentId(app, k) in keys;
    }
    if n > 1 {
      assert DeploymentId(app, n - 1) in keys;
    }
  }

  /** The deployment that promotes `source` of `app` under number `number`. */
  function PromotedDeployment(app: App, source: Deployment, number: int, requestedBy: UserId): (d: Deployment)
    ensures d.id.app == app.id && d.id.number == number
    ensures d.source == source.source
    ensures d.environment.Production? && d.requestedBy == requestedBy
  {
    Deployment(DeploymentId(app.id, number), source.source, Production, requestedBy)
  }

  /** The apps known to the system, by ID. */
  class AppsStore {
    var apps: map<AppId, App>

    /** Every app is stored under its own ID. */
    ghost predicate Valid()
      reads this
    {
      forall id | id in apps :: apps[id].id == id
    }

    constructor (apps: map<AppId, App>)
      ensures this.apps == apps
    {
      this.apps := apps;
    }

    method GetByID(id: AppId) returns (r: Result<App, AppError>)
      ensures r.Ok? <==> id in apps
      ensures r.Ok? ==> r.value == apps[id]
      ensures r.Err? ==> r.error == NotFound
    {
      if id in apps {
        r := Ok(apps[id]);
      } else {
        r := Err(NotFound);
      }
    }
  }

  /** The deployments of every app, by (app, number); read and written by the handler. */
  class DeploymentsStore {
    var deployments: map<DeploymentId, Deployment>

    /** Every deployment is stored under its own ID, and numbers start at 1. */
    ghost predicate Valid()
      reads this
    {
      forall id | id in deployments :: deployments[id].id == id && id.number >= 1
    }

    constructor (deployments: map<DeploymentId, Deployment>)
      ensures this.deployments == deployments
    {
      this.deployments := deployments;
    }

    method GetByID(id: DeploymentId) returns (r: Result<Deployment, AppError>)
      ensures r.Ok? <==> id in deployments
      ensures r.Ok? ==> r.value == deployments[id]
      ensures r.Err? ==> r.error == NotFound
    {
      if id in deployments {
        r := Ok(deployments[id]);
      } else {
        r := Err(NotFound);
      }
    }

    /** The number the next deployment of `app` gets: the largest one in use plus one. */
    method GetNextDeploymentNumber(app: AppId) returns (n: int)
      ensures IsNextNumber(deployments.Keys, app, n)
    {
      var rest := deployments.Keys;
      var max := 0;
      while rest != {}
        invariant rest <= deployments.Keys
        invariant max >= 0
        invariant forall id | id in deployments && id !in rest && id.app == app :: id.number <= max
        invariant max == 0 || DeploymentId(app, max) in deployments
        decreases rest
      {
        var id :| id in rest;
        if id.app == app && id.number > max {
          max := id.number;
        }
        rest := rest - {id};
      }
      n := max + 1;
    }

    method Write(d: Deployment)
      requires Valid() && d.id.number >= 1
      modifies this
      ensures Valid()
      ensures deployments == old(deployments)[d.id := d]
    {
      deployments := deployments[d.id := d];
    }
  }

  /**
   * Handles a Promote command: looks up the app, then its source deployment,
   * and stores a copy of that deployment's source in production under the
   * app's next deployment number, which it returns. On failure it returns 0
   * and stores nothing.
   */
  method Handle(apps: AppsStore, deployments: DeploymentsStore, requestedBy: UserId, cmd: Command)
    returns (number: int, err: Option<AppError>)
    requires apps.Valid() && deployments.Valid()
    modifies deployments
    ensures deployments.Valid()
    ensures cmd.appId !in apps.apps ==> err == Some(NotFound)
    ensures cmd.appId in apps.apps && DeploymentId(cmd.appId, cmd.deploymentNumber) !in old(deployments.deployments) ==>
      err == Some(NotFound)
    ensures err.None? <==>
      cmd.appId in apps.apps && DeploymentId(cmd.appId, cmd.deploymentNumber) in old(deployments.deployments)
    ensures err.Some? ==> number == 0 && deployments.deployments == old(deployments.deployments)
    ensures err.None? ==>
      && number >= 2
      && IsNextNumber(old(deployments.deployments).Keys, cmd.appId, number)
      && deployments.deployments == old(deployments.deployments)[DeploymentId(cmd.appId, number) :=
           PromotedDeployment(apps.apps[cmd.appId],
                              old(deployments.deployments)[DeploymentId(cmd.appId, cmd.deploymentNumber)],
                              number, requestedBy)]
    ensures err.None? ==> forall k: nat | NumberedUpTo(old(deployments.deployments).Keys, cmd.appId, k) ::
      number == k + 1 && NumberedUpTo(deployments.deployments.Keys, cmd.appId, number)
  {
    var app := apps.GetByID(cmd.appId);
    if app.Err? {
      return 0, Some(app.error);
    }
    var source := deployments.GetByID(DeploymentId(app.value.id, cmd.deploymentNumber));
    if source.Err? {
      return 0, Some(source.error);
    }
    number := deployments.GetNextDeploymentNumber(app.value.id);
    assert source.value.id.number < number;
    ghost var before := deployments.deployments.Keys;
    deployments.Write(PromotedDeployment(app.value, source.value, number, requestedBy));
    assert deployments.deployments.Keys == before + {DeploymentId(cmd.appId, number)};
    forall k: nat | NumberedUpTo(before, cmd.appId, k)
      ensures number == k + 1 && NumberedUpTo(deployments.deployments.Keys, cmd.appId, number)
    {
      NextNumberKeepsNumberingGapless(before, cmd.appId, k, number);
    }
    err := None;
  }
}
