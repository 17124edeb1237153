/** The Promote behaviours pinned down by the repository's tests, replayed against the handler's contract. */
module PromoteScenarios {
  import opened Wrappers
  import opened Promote

  const TheApp := App("app-1", "my-app")

  method UnknownAppIsNotFound() {
    var apps := new AppsStore(map[TheApp.id := TheApp]);
    var deployments := new DeploymentsStore(map[]);
    var number, err := Handle(apps, deployments, "some-uid", Command("some-app-id", 0));
    assert err == Some(NotFound) && number == 0;
  }

  method UnknownDeploymentIsNotFound() {
    var apps := new AppsStore(map[TheApp.id := TheApp]);
    var deployments := new DeploymentsStore(map[]);
    var number, err := Handle(apps, deployments, "some-uid", Command(TheApp.id, 1));
    assert err == Some(NotFound) && number == 0;
  }

  method PromotionTakesTheNextNumber() {
    var apps := new AppsStore(map[TheApp.id := TheApp]);
    var first := Deployment(DeploymentId(TheApp.id, 1), "", Staging, "some-uid");
    var deployments := new DeploymentsStore(map[first.id := first]);
    assert NumberedUpTo(deployments.deployments.Keys, TheApp.id, 1);
    var number, err := Handle(apps, deployments, "some-uid", Command(TheApp.id, 1));
    assert err == None && number == 2;
    assert deployments.deployments[DeploymentId(TheApp.id, 2)].source == first.source;
  }
}
