/**
 The Docker action adapter (docker/action.go): each operation of the
 `Actions` interface as the SDK calls it makes and the decision it takes on
 what the SDK returns. The SDK is an abstract responder: only the lists, ids
 and errors it returns matter, not what the daemon does.
 */
module Adapter {
  import opened Types

  const ReferenceFilterKey := "reference"
  const NameFilterKey := "name"

  /** A one-entry list filter (`filters.Args` with a single key/value pair). */
  datatype Filter = Filter(key: string, value: string)

  /** The part of `container.Config` the adapter fills in. */
  datatype ContainerConfig = ContainerConfig(image: string, env: seq<string>)

  /** One call on the Docker SDK client, with the arguments that matter. */
  datatype SdkCall =
    | ImageList(filter: Filter)
    | ImagePull(ref: string)
    | NetworkCreate(name: string)
    | ContainerCreate(config: ContainerConfig, name: string)
    | NetworkConnect(networkId: string, containerId: string)
    | ContainerStart(containerId: string)
    | ContainerList(filter: Filter)
    | ContainerStop(containerId: string)
    | ContainerRemove(containerId: string)
    | NetworkList(filter: Filter)
    | NetworkRemove(networkId: string)

  /** The SDK as a responder. A listing returns the ids of the objects it found. */
  datatype Sdk = Sdk(
    imageList: Filter -> Reply<seq<string>>,
    imagePull: string -> Error,
    networkCreate: string -> Reply<string>,
    containerCreate: (ContainerConfig, string) -> Reply<string>,
    networkConnect: (string, string) -> Error,
    containerStart: string -> Error,
    containerList: Filter -> Reply<seq<string>>,
    containerStop: string -> Error,
    containerRemove: string -> Error,
    networkList: Filter -> Reply<seq<string>>,
    networkRemove: string -> Error)

  /** What one adapter operation did: the SDK calls it made and either the
      reply it returned or a run-time panic (an index out of range). */
  datatype SdkRun<+T> =
    | Returned(calls: seq<SdkCall>, reply: Reply<T>)
    | Panicked(calls: seq<SdkCall>)

  /** The message of the error `fmt.Errorf("container %s not found", name)`. */
  function ContainerNotFound(containerName: string): Error
  {
    Error("container " + containerName + " not found")
  }

  /** An image exists when listing by reference finds exactly one image. */
  function CheckIfImageExists(sdk: Sdk, imageName: string): (r: SdkRun<bool>)
    ensures r.Returned? && r.calls == [ImageList(Filter(ReferenceFilterKey, imageName))]
    ensures var images := sdk.imageList(Filter(ReferenceFilterKey, imageName));
            && r.reply.err == images.err
            && (r.reply.value <==> images.err == Nil && |images.value| == 1)
  {
    var filter := Filter(ReferenceFilterKey, imageName);
    var images := sdk.imageList(filter);
    if images.err != Nil then
      Returned([ImageList(filter)], Reply(false, images.err))
    else
      Returned([ImageList(filter)], Reply(|images.value| == 1, Nil))
  }

  /** Pulls an image; the progress stream is not modelled. */
  function PullImage(sdk: Sdk, imageName: string): (r: SdkRun<()>)
    ensures r.Returned? && r.calls == [ImagePull(imageName)]
    ensures r.reply.err == sdk.imagePull(imageName)
  {
    var pulled := sdk.imagePull(imageName);
    if pulled != Nil then
      Returned([ImagePull(imageName)], Reply((), pulled))
    else
      Returned([ImagePull(imageName)], Reply((), Nil))
  }

  /** Creates a network and returns its id, or the empty id with the error. */
  function CreateNetwork(sdk: Sdk, networkName: string): (r: SdkRun<string>)
    ensures r.Returned? && r.calls == [NetworkCreate(networkName)]
    ensures var created := sdk.networkCreate(networkName);
            r.reply == if created.err == Nil then Reply(created.value, Nil) else Reply("", created.err)
  {
    var network := sdk.networkCreate(networkName);
    if network.err != Nil then
      Returned([NetworkCreate(networkName)], Reply("", network.err))
    else
      Returned([NetworkCreate(networkName)], Reply(network.value, Nil))
  }

  /** Creates a container from the image and env under `containerName`, then
      connects it to `networkId`. A failed connect leaves the created
      container in place. */
  function CreateContainerWithNetwork(sdk: Sdk, imageName: string, containerName: string,
                                      networkId: string, env: seq<string>): (r: SdkRun<string>)
    ensures r.Returned? && |r.calls| > 0
    ensures r.calls[0] == ContainerCreate(ContainerConfig(imageName, env), containerName)
    ensures var created := sdk.containerCreate(ContainerConfig(imageName, env), containerName);
            && (created.err != Nil ==> r.calls == [r.calls[0]] && r.reply == Reply("", created.err))
            && (created.err == Nil ==>
                  && r.calls == [r.calls[0], NetworkConnect(networkId, created.value)]
                  && var connected := sdk.networkConnect(networkId, created.value);
                     r.reply == if connected == Nil then Reply(created.value, Nil) else Reply("", connected))
    ensures forall call | call in r.calls :: !call.ContainerRemove?
  {
    var config := ContainerConfig(imageName, env);
    var created := sdk.containerCreate(config, containerName);
    if created.err != Nil then
      Returned([ContainerCreate(config, containerName)], Reply("", created.err))
    else
      var connected := sdk.networkConnect(networkId, created.value);
      var calls := [ContainerCreate(config, containerName), NetworkConnect(networkId, created.value)];
      if connected != Nil then
        Returned(calls, Reply("", connected))
      else
        Returned(calls, Reply(created.value, Nil))
  }

  /** Starts a container by id. */
  function StartContainer(sdk: Sdk, containerId: string): (r: SdkRun<()>)
    ensures r.Returned? && r.calls == [ContainerStart(containerId)]
    ensures r.reply.err == sdk.containerStart(containerId)
  {
    Returned([ContainerStart(containerId)], Reply((), sdk.containerStart(containerId)))
  }

  /** Finds the containers called `containerName`, stops the first one and
      returns its id together with the result of the stop. */
  function StopContainer(sdk: Sdk, containerName: string): (r: SdkRun<string>)
    ensures r.Returned? && |r.calls| > 0 && r.calls[0] == ContainerList(Filter(NameFilterKey, containerName))
    ensures var listed := sdk.containerList(Filter(NameFilterKey, containerName));
            && (listed.err != Nil ==> r.calls == [r.calls[0]] && r.reply == Reply("", listed.err))
            && (listed.err == Nil && |listed.value| == 0 ==>
                  r.calls == [r.calls[0]] && r.reply == Reply("", ContainerNotFound(containerName)))
            && (listed.err == Nil && |listed.value| > 0 ==>
                  && r.calls == [r.calls[0], ContainerStop(listed.value[0])]
                  && r.reply == Reply(listed.value[0], sdk.containerStop(listed.value[0])))
  {
    var filter := Filter(NameFilterKey, containerName);
    var containers := sdk.containerList(filter);
    if containers.err != Nil then
      Returned([ContainerList(filter)], Reply("", containers.err))
    else if |containers.value| == 0 then
      Returned([ContainerList(filter)], Reply("", ContainerNotFound(containerName)))
    else
      var containerId := containers.value[0];
      Returned([ContainerList(filter), ContainerStop(containerId)], Reply(containerId, sdk.containerStop(containerId)))
  }

  /** Removes a container by id. */
  function RemoveContainer(sdk: Sdk, containerId: string): (r: SdkRun<()>)
    ensures r.Returned? && r.calls == [ContainerRemove(containerId)]
    ensures r.reply.err == sdk.containerRemove(containerId)
  {
    Returned([ContainerRemove(containerId)], Reply((), sdk.containerRemove(containerId)))
  }

  /** Finds the networks called `<containerName>-network` and removes the first
      one. Nothing checks that one was found: an empty listing makes the
      indexing panic. */
  function RemoveNetwork(sdk: Sdk, containerName: string): (r: SdkRun<()>)
    ensures |r.calls| > 0 && r.calls[0] == NetworkList(Filter(NameFilterKey, NetworkName(containerName)))
    ensures var listed := sdk.networkList(Filter(NameFilterKey, NetworkName(containerName)));
            && (r.Panicked? <==> listed.err == Nil && |listed.value| == 0)
            && (r.Panicked? ==> r.calls == [r.calls[0]])
            && (listed.err != Nil ==> r == Returned([r.calls[0]], Reply((), listed.err)))
            && (listed.err == Nil && |listed.value| > 0 ==>
                  r == Returned([r.calls[0], NetworkRemove(listed.value[0])], Reply((), sdk.networkRemove(listed.value[0]))))
  {
    var filter := Filter(NameFilterKey, NetworkName(containerName));
    var networks := sdk.networkList(filter);
    if networks.err != Nil then
      Returned([NetworkList(filter)], Reply((), networks.err))
    else if |networks.value| == 0 then
      Panicked([NetworkList(filter)])
    else
      Returned([NetworkList(filter), NetworkRemove(networks.value[0])], Reply((), sdk.networkRemove(networks.value[0])))
  }

  /** `StopContainer` reports "no container" (an empty id and no error) only
      when the SDK listed a container whose id is itself empty: an empty
      listing is an error, never an empty id. */
  lemma StopReportsEmptyIdOnlyForAnEmptyListedId(sdk: Sdk, containerName: string)
    ensures var r := StopContainer(sdk, containerName);
            var listed := sdk.containerList(Filter(NameFilterKey, containerName));
            r.reply == Reply("", Nil) <==>
              && listed.err == Nil && |listed.value| > 0 && listed.value[0] == ""
              && sdk.containerStop("") == Nil
  {
  }

  /** Connecting after a successful create can fail: the operation then fails
      with the connect error, and the SDK trace shows a created container that
      nothing removes. */
  lemma FailedConnectLeavesCreatedContainer(sdk: Sdk, imageName: string, containerName: string,
                                            networkId: string, env: seq<string>)
    requires sdk.containerCreate(ContainerConfig(imageName, env), containerName).err == Nil
    requires sdk.networkConnect(networkId, sdk.containerCreate(ContainerConfig(imageName, env), containerName).value) != Nil
    ensures var r := CreateContainerWithNetwork(sdk, imageName, containerName, networkId, env);
            && r.reply.err != Nil && r.reply.value == ""
            && ContainerCreate(ContainerConfig(imageName, env), containerName) in r.calls
            && forall call | call in r.calls :: !call.ContainerRemove?
  {
  }
}
