/**
 The orchestration core (docker/client.go): `ServiceProvisioning` and
 `ServiceDecommissioning` as fixed protocols over an abstract `Actions`
 responder. Each returns the calls it made on the responder, the log events
 it emitted and the error it returned.
 */
module Client {
  import opened Types
  import opened FailFast

  const ImageExistsTemplate := "Image already exists skipping\n"
  const ImagePulledTemplate := "Successfully pulled image %s\n"
  const NetworkCreatedTemplate := "Successfully created network %s \n"
  const ContainerCreatedTemplate := "Successfully created container %s\n"
  const ContainerStartedTemplate := "Successfully started container %s\n"
  const ContainerNotFoundTemplate := "Container not found skipping\n"
  const ContainerStoppedTemplate := "Successfully stopped container %s\n"
  const ContainerRemovedTemplate := "Successfully removed container %s\n"
  const NetworkRemovedTemplate := "Successfully removed network %s\n"

  /** One call on the `Actions` interface, with its arguments. */
  datatype Call =
    | CheckIfImageExists(imageName: string)
    | PullImage(imageName: string)
    | CreateNetwork(networkName: string)
    | CreateContainerWithNetwork(imageName: string, containerName: string, networkId: string, envs: seq<string>)
    | StartContainer(containerId: string)
    | StopContainer(containerName: string)
    | RemoveContainer(containerId: string)
    | RemoveNetwork(containerName: string)

  /** The `Actions` interface as a responder: what each operation returns for its arguments. */
  datatype Actions = Actions(
    checkIfImageExists: string -> Reply<bool>,
    pullImage: string -> Error,
    createNetwork: string -> Reply<string>,
    createContainerWithNetwork: (string, string, string, seq<string>) -> Reply<string>,
    startContainer: string -> Error,
    stopContainer: string -> Reply<string>,
    removeContainer: string -> Error,
    removeNetwork: string -> Error)

  /** The error the responder reports for a call. */
  function Respond(a: Actions, call: Call): Error
  {
    match call
    case CheckIfImageExists(image) => a.checkIfImageExists(image).err
    case PullImage(image) => a.pullImage(image)
    case CreateNetwork(network) => a.createNetwork(network).err
    case CreateContainerWithNetwork(image, name, networkId, envs) =>
      a.createContainerWithNetwork(image, name, networkId, envs).err
    case StartContainer(id) => a.startContainer(id)
    case StopContainer(name) => a.stopContainer(name).err
    case RemoveContainer(id) => a.removeContainer(id)
    case RemoveNetwork(name) => a.removeNetwork(name)
  }

  /** `Respond` as the step outcome of a fail-fast run (the position of a call does not matter). */
  function Responder(a: Actions): (nat, Call) -> Error
  {
    (k: nat, call: Call) => Respond(a, call)
  }

  /** What one orchestration call did. */
  datatype Outcome = Outcome(calls: seq<Call>, logs: seq<LogEntry>, err: Error)

  /** Makes sure `image` is present locally: pulls it unless the check says it exists. */
  function PullImageIfNotExists(a: Actions, image: string): (o: Outcome)
    ensures |o.calls| > 0 && o.calls[0] == CheckIfImageExists(image)
    ensures a.checkIfImageExists(image).err != Nil ==>
              o.calls == [CheckIfImageExists(image)] && o.err == a.checkIfImageExists(image).err
    ensures a.checkIfImageExists(image) == Reply(true, Nil) ==> o.calls == [CheckIfImageExists(image)] && o.err == Nil
    ensures a.checkIfImageExists(image) == Reply(false, Nil) ==>
              o.calls == [CheckIfImageExists(image), PullImage(image)] && o.err == a.pullImage(image)
    ensures PullImage(image) in o.calls <==> a.checkIfImageExists(image) == Reply(false, Nil)
    ensures WarnLog(ImageExistsTemplate) in o.logs <==> a.checkIfImageExists(image) == Reply(true, Nil)
  {
    var found := a.checkIfImageExists(image);
    if found.err != Nil then
      Outcome([CheckIfImageExists(image)], [], found.err)
    else if found.value then
      Outcome([CheckIfImageExists(image)], [WarnLog(ImageExistsTemplate)], Nil)
    else
      var pulled := a.pullImage(image);
      if pulled != Nil then
        Outcome([CheckIfImageExists(image), PullImage(image)], [], pulled)
      else
        Outcome([CheckIfImageExists(image), PullImage(image)], [InfoLog(ImagePulledTemplate, image)], Nil)
  }

  /** The network id provisioning would attach the container to. */
  function ProvisionedNetworkId(a: Actions, c: Container): string
  {
    a.createNetwork(NetworkName(c.name)).value
  }

  /** The container id provisioning would start. */
  function ProvisionedContainerId(a: Actions, c: Container): string
  {
    a.createContainerWithNetwork(c.image, c.name, ProvisionedNetworkId(a, c), c.envs).value
  }

  /** The provisioning protocol when every step succeeds: ensure the image,
      create `<name>-network`, create the container attached to the network
      id just returned, and start the container id just returned. */
  function ProvisionScript(a: Actions, c: Container): seq<Call>
  {
    [CheckIfImageExists(c.image)]
    + (if a.checkIfImageExists(c.image).value then [] else [PullImage(c.image)])
    + [ CreateNetwork(NetworkName(c.name)),
        CreateContainerWithNetwork(c.image, c.name, ProvisionedNetworkId(a, c), c.envs),
        StartContainer(ProvisionedContainerId(a, c)) ]
  }

  /** Creates and runs the service of `c` in its own container on its own network. */
  function ServiceProvisioning(a: Actions, c: Container): (o: Outcome)
    ensures |o.calls| > 0 && o.calls[0] == CheckIfImageExists(c.image)
    ensures a.checkIfImageExists(c.image).err != Nil ==>
              o.calls == [CheckIfImageExists(c.image)] && o.err == a.checkIfImageExists(c.image).err
    ensures PullImage(c.image) in o.calls <==> a.checkIfImageExists(c.image) == Reply(false, Nil)
    ensures WarnLog(ImageExistsTemplate) in o.logs <==> a.checkIfImageExists(c.image) == Reply(true, Nil)
    ensures forall call | call in o.calls && call.CreateNetwork? :: call.networkName == c.name + "-network"
    ensures forall call | call in o.calls && call.CreateContainerWithNetwork? ::
              call == CreateContainerWithNetwork(c.image, c.name, ProvisionedNetworkId(a, c), c.envs)
    ensures forall call | call in o.calls && call.StartContainer? :: call.containerId == ProvisionedContainerId(a, c)
    ensures o.err == Nil <==> |o.logs| > 0 && o.logs[|o.logs| - 1] == InfoLog(ContainerStartedTemplate, c.name)
  {
    var ensured := PullImageIfNotExists(a, c.image);
    if ensured.err != Nil then
      ensured
    else
      var networkName := NetworkName(c.name);
      var network := a.createNetwork(networkName);
      var afterNetwork := ensured.calls + [CreateNetwork(networkName)];
      if network.err != Nil then
        Outcome(afterNetwork, ensured.logs, network.err)
      else
        var networkLogs := ensured.logs + [InfoLog(NetworkCreatedTemplate, networkName)];
        var created := a.createContainerWithNetwork(c.image, c.name, network.value, c.envs);
        var afterCreate := afterNetwork + [CreateContainerWithNetwork(c.image, c.name, network.value, c.envs)];
        if created.err != Nil then
          Outcome(afterCreate, networkLogs, created.err)
        else
          var createLogs := networkLogs + [InfoLog(ContainerCreatedTemplate, c.name)];
          var started := a.startContainer(created.value);
          var afterStart := afterCreate + [StartContainer(created.value)];
          if started != Nil then
            Outcome(afterStart, createLogs, started)
          else
            Outcome(afterStart, createLogs + [InfoLog(ContainerStartedTemplate, c.name)], Nil)
  }

  /** The decommissioning protocol when every step succeeds: stop the container
      by name and, unless no container id came back, remove the container by
      that id and then the network that belongs to the name. */
  function DecommissionScript(a: Actions, c: Container): seq<Call>
  {
    var stopped := a.stopContainer(c.name);
    [StopContainer(c.name)]
    + (if stopped.value == "" then [] else [RemoveContainer(stopped.value), RemoveNetwork(c.name)])
  }

  /** Stops and removes the container of `c` and then its network. */
  function ServiceDecommissioning(a: Actions, c: Container): (o: Outcome)
    ensures |o.calls| > 0 && o.calls[0] == StopContainer(c.name)
    ensures a.stopContainer(c.name).err != Nil ==>
              o.calls == [StopContainer(c.name)] && o.err == a.stopContainer(c.name).err
    ensures a.stopContainer(c.name) == Reply("", Nil) ==>
              o.calls == [StopContainer(c.name)] && o.err == Nil && o.logs == [WarnLog(ContainerNotFoundTemplate)]
    ensures WarnLog(ContainerNotFoundTemplate) in o.logs <==> a.stopContainer(c.name) == Reply("", Nil)
    ensures RemoveContainer(a.stopContainer(c.name).value) in o.calls <==>
              a.stopContainer(c.name).err == Nil && a.stopContainer(c.name).value != ""
    ensures RemoveNetwork(c.name) in o.calls <==>
              && a.stopContainer(c.name).err == Nil && a.stopContainer(c.name).value != ""
              && a.removeContainer(a.stopContainer(c.name).value) == Nil
    ensures forall call | call in o.calls && call.RemoveContainer? :: call.containerId == a.stopContainer(c.name).value
    ensures forall call | call in o.calls && call.RemoveNetwork? :: call.containerName == c.name
  {
    var stopped := a.stopContainer(c.name);
    if stopped.err != Nil then
      Outcome([StopContainer(c.name)], [], stopped.err)
    else if stopped.value == "" then
      Outcome([StopContainer(c.name)], [WarnLog(ContainerNotFoundTemplate)], Nil)
    else
      var stopLogs := [InfoLog(ContainerStoppedTemplate, c.name)];
      var removed := a.removeContainer(stopped.value);
      var afterRemove := [StopContainer(c.name), RemoveContainer(stopped.value)];
      if removed != Nil then
        Outcome(afterRemove, stopLogs, removed)
      else
        var removeLogs := stopLogs + [InfoLog(ContainerRemovedTemplate, c.name)];
        var networkRemoved := a.removeNetwork(c.name);
        var afterNetwork := afterRemove + [RemoveNetwork(c.name)];
        if networkRemoved != Nil then
          Outcome(afterNetwork, removeLogs, networkRemoved)
        else
          Outcome(afterNetwork, removeLogs + [InfoLog(NetworkRemovedTemplate, c.name)], Nil)
  }

  /** Provisioning performs its protocol fail-fast: the calls made are a prefix
      of the protocol, cut right after the first failing call, whose error is
      returned unchanged. */
  lemma ProvisioningIsFailFast(a: Actions, c: Container)
    ensures var o := ServiceProvisioning(a, c);
            IsFailFastRun(ProvisionScript(a, c), Responder(a), Run(o.calls, o.err))
  {
    if PullImageIfNotExists(a, c.image).err != Nil {
      ImageFailureIsFailFast(a, c);
    } else if a.createNetwork(NetworkName(c.name)).err != Nil {
      NetworkFailureIsFailFast(a, c);
    } else {
      ContainerStepsAreFailFast(a, c);
    }
  }

  /** The number of calls it takes to make sure the image is present. */
  function ImageSteps(a: Actions, c: Container): nat
  {
    if a.checkIfImageExists(c.image).value then 1 else 2
  }

  /** Making sure of the image is the first part of the protocol, and
      succeeded when each of its calls did. */
  lemma ImageStepsSucceeded(a: Actions, c: Container)
    requires PullImageIfNotExists(a, c.image).err == Nil
    ensures var script := ProvisionScript(a, c);
            && ImageSteps(a, c) + 3 == |script|
            && forall k: nat | k < ImageSteps(a, c) :: Responder(a)(k, script[k]) == Nil
  {
    var script := ProvisionScript(a, c);
    assert script[0] == CheckIfImageExists(c.image);
    if !a.checkIfImageExists(c.image).value {
      assert script[1] == PullImage(c.image);
    }
  }

  /** Provisioning that fails while making sure of the image stops at the failing call. */
  lemma ImageFailureIsFailFast(a: Actions, c: Container)
    requires PullImageIfNotExists(a, c.image).err != Nil
    ensures var o := ServiceProvisioning(a, c);
            IsFailFastRun(ProvisionScript(a, c), Responder(a), Run(o.calls, o.err))
  {
    var o := ServiceProvisioning(a, c);
    var script := ProvisionScript(a, c);
    var found := a.checkIfImageExists(c.image);
    assert script[0] == CheckIfImageExists(c.image);
    if found.err != Nil {
      assert o.calls == script[..1];
      FailingStepEndsRun(script, Responder(a), 0);
    } else {
      assert script[1] == PullImage(c.image);
      assert o.calls == script[..2];
      FailingStepEndsRun(script, Responder(a), 1);
    }
  }

  /** Provisioning whose network creation fails stops right after it. */
  lemma NetworkFailureIsFailFast(a: Actions, c: Container)
    requires PullImageIfNotExists(a, c.image).err == Nil
    requires a.createNetwork(NetworkName(c.name)).err != Nil
    ensures var o := ServiceProvisioning(a, c);
            IsFailFastRun(ProvisionScript(a, c), Responder(a), Run(o.calls, o.err))
  {
    var o := ServiceProvisioning(a, c);
    var script := ProvisionScript(a, c);
    var n := ImageSteps(a, c);
    ImageStepsSucceeded(a, c);
    assert script[n] == CreateNetwork(NetworkName(c.name));
    assert o.calls == script[..n + 1];
    FailingStepEndsRun(script, Responder(a), n);
  }

  /** Provisioning past the network step stops at the first failing container call. */
  lemma ContainerStepsAreFailFast(a: Actions, c: Container)
    requires PullImageIfNotExists(a, c.image).err == Nil
    requires a.createNetwork(NetworkName(c.name)).err == Nil
    ensures var o := ServiceProvisioning(a, c);
            IsFailFastRun(ProvisionScript(a, c), Responder(a), Run(o.calls, o.err))
  {
    var o := ServiceProvisioning(a, c);
    var script := ProvisionScript(a, c);
    var n := ImageSteps(a, c);
    ImageStepsSucceeded(a, c);
    assert script[n] == CreateNetwork(NetworkName(c.name));
    assert script[n + 1] == CreateContainerWithNetwork(c.image, c.name, ProvisionedNetworkId(a, c), c.envs);
    if a.createContainerWithNetwork(c.image, c.name, ProvisionedNetworkId(a, c), c.envs).err != Nil {
      assert o.calls == script[..n + 2];
      FailingStepEndsRun(script, Responder(a), n + 1);
    } else {
      StartStepIsFailFast(a, c);
    }
  }

  /** Provisioning that reaches the start call ends with it, successful or not. */
  lemma StartStepIsFailFast(a: Actions, c: Container)
    requires PullImageIfNotExists(a, c.image).err == Nil
    requires a.createNetwork(NetworkName(c.name)).err == Nil
    requires a.createContainerWithNetwork(c.image, c.name, ProvisionedNetworkId(a, c), c.envs).err == Nil
    ensures var o := ServiceProvisioning(a, c);
            IsFailFastRun(ProvisionScript(a, c), Responder(a), Run(o.calls, o.err))
  {
    var o := ServiceProvisioning(a, c);
    var script := ProvisionScript(a, c);
    var n := ImageSteps(a, c);
    ImageStepsSucceeded(a, c);
    assert script[n] == CreateNetwork(NetworkName(c.name));
    assert script[n + 1] == CreateContainerWithNetwork(c.image, c.name, ProvisionedNetworkId(a, c), c.envs);
    assert script[n + 2] == StartContainer(ProvisionedContainerId(a, c));
    assert o.calls == script;
    if a.startContainer(ProvisionedContainerId(a, c)) != Nil {
      assert script[..n + 3] == script;
      FailingStepEndsRun(script, Responder(a), n + 2);
    } else {
      SucceedingStepsCompleteRun(script, Responder(a));
    }
  }

  /** Decommissioning performs its protocol fail-fast. */
  lemma DecommissioningIsFailFast(a: Actions, c: Container)
    ensures var o := ServiceDecommissioning(a, c);
            IsFailFastRun(DecommissionScript(a, c), Responder(a), Run(o.calls, o.err))
  {
    var o := ServiceDecommissioning(a, c);
    var script := DecommissionScript(a, c);
    var stopped := a.stopContainer(c.name);
    if stopped.err != Nil || stopped.value == "" {
      assert o.calls == script[..1];
    } else if a.removeContainer(stopped.value) != Nil {
      assert o.calls == script[..2];
    } else {
      assert o.calls == script;
    }
  }

  /** Both directions: a call trace and error describe a fail-fast run of the
      provisioning protocol exactly when they are what provisioning does. */
  lemma ProvisioningIsTheFailFastRunOfItsProtocol(a: Actions, c: Container, r: Run<Call>)
    ensures var o := ServiceProvisioning(a, c);
            IsFailFastRun(ProvisionScript(a, c), Responder(a), r) <==> r == Run(o.calls, o.err)
  {
    ProvisioningIsFailFast(a, c);
    var o := ServiceProvisioning(a, c);
    if IsFailFastRun(ProvisionScript(a, c), Responder(a), r) {
      FailFastRunIsUnique(ProvisionScript(a, c), Responder(a), r, Run(o.calls, o.err));
    }
  }

  /** Both directions, for decommissioning. */
  lemma DecommissioningIsTheFailFastRunOfItsProtocol(a: Actions, c: Container, r: Run<Call>)
    ensures var o := ServiceDecommissioning(a, c);
            IsFailFastRun(DecommissionScript(a, c), Responder(a), r) <==> r == Run(o.calls, o.err)
  {
    DecommissioningIsFailFast(a, c);
    var o := ServiceDecommissioning(a, c);
    if IsFailFastRun(DecommissionScript(a, c), Responder(a), r) {
      FailFastRunIsUnique(DecommissionScript(a, c), Responder(a), r, Run(o.calls, o.err));
    }
  }

  /** Provisioning returns nil exactly when every action it invoked succeeded;
      otherwise it returns the error of the last action it invoked. */
  lemma ProvisioningSucceedsIffEveryCallSucceeds(a: Actions, c: Container)
    ensures var o := ServiceProvisioning(a, c);
            && (o.err == Nil <==> forall call | call in o.calls :: Respond(a, call) == Nil)
            && (o.err != Nil ==> o.err == Respond(a, o.calls[|o.calls| - 1]))
  {
    var o := ServiceProvisioning(a, c);
    ProvisioningIsFailFast(a, c);
    TraceSucceedsIffEveryCallSucceeds(a, ProvisionScript(a, c), Run(o.calls, o.err));
  }

  /** Decommissioning returns nil exactly when every action it invoked succeeded. */
  lemma DecommissioningSucceedsIffEveryCallSucceeds(a: Actions, c: Container)
    ensures var o := ServiceDecommissioning(a, c);
            && (o.err == Nil <==> forall call | call in o.calls :: Respond(a, call) == Nil)
            && (o.err != Nil ==> o.err == Respond(a, o.calls[|o.calls| - 1]))
  {
    var o := ServiceDecommissioning(a, c);
    DecommissioningIsFailFast(a, c);
    TraceSucceedsIffEveryCallSucceeds(a, DecommissionScript(a, c), Run(o.calls, o.err));
  }

  /** In a fail-fast run of `Actions` calls, nil means every call succeeded. */
  lemma TraceSucceedsIffEveryCallSucceeds(a: Actions, script: seq<Call>, r: Run<Call>)
    requires IsFailFastRun(script, Responder(a), r)
    ensures r.err == Nil <==> forall call | call in r.done :: Respond(a, call) == Nil
    ensures r.err != Nil ==> |r.done| > 0 && r.err == Respond(a, r.done[|r.done| - 1])
  {
    if r.err != Nil {
      var last := r.done[|r.done| - 1];
      assert Responder(a)(|r.done| - 1, last) == Respond(a, last);
    } else {
      forall call | call in r.done
        ensures Respond(a, call) == Nil
      {
        var k :| 0 <= k < |r.done| && r.done[k] == call;
        assert Responder(a)(k, call) == Respond(a, call);
      }
    }
  }

  /** Provisioning against a runtime that reports the image as present
      never pulls it, whatever else happens. */
  lemma PresentImageIsNeverPulled(a: Actions, c: Container)
    requires a.checkIfImageExists(c.image) == Reply(true, Nil)
    ensures forall call | call in ServiceProvisioning(a, c).calls :: !call.PullImage?
  {
  }
}
