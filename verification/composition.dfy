/**
 The orchestration core run against the real adapter: what the client's
 branches become once the `Actions` replies are the ones docker/action.go
 computes from the SDK.
 */
module Composition {
  import opened Types
  import Client
  import Adapter
  import FailFast

  /** Through the real adapter the "not found, skipping" branch of
      decommissioning is taken only when the first container the SDK lists
      has an empty id and stopping that empty id succeeds. A name that matches no container makes decommissioning fail
      with "container <name> not found" after the one stop call. */
  lemma AdapterStopSkipsOnlyForAnEmptyListedId(a: Client.Actions, sdk: Adapter.Sdk, c: Container)
    requires a.stopContainer(c.name) == Adapter.StopContainer(sdk, c.name).reply
    ensures var o := Client.ServiceDecommissioning(a, c);
            var listed := sdk.containerList(Adapter.Filter(Adapter.NameFilterKey, c.name));
            && (WarnLog(Client.ContainerNotFoundTemplate) in o.logs <==>
                  && listed.err == Nil && |listed.value| > 0 && listed.value[0] == ""
                  && sdk.containerStop("") == Nil)
            && (listed.err == Nil && |listed.value| == 0 ==>
                  o.calls == [Client.StopContainer(c.name)] && o.err == Adapter.ContainerNotFound(c.name))
  {
    Adapter.StopReportsEmptyIdOnlyForAnEmptyListedId(sdk, c.name);
  }

  /** Through the real adapter, provisioning pulls exactly when listing the
      image by reference succeeds and finds anything but exactly one image. */
  lemma AdapterCheckPullsUnlessExactlyOneImage(a: Client.Actions, sdk: Adapter.Sdk, c: Container)
    requires a.checkIfImageExists(c.image) == Adapter.CheckIfImageExists(sdk, c.image).reply
    ensures var o := Client.ServiceProvisioning(a, c);
            var images := sdk.imageList(Adapter.Filter(Adapter.ReferenceFilterKey, c.image));
            && (Client.PullImage(c.image) in o.calls <==> images.err == Nil && |images.value| != 1)
            && (images.err != Nil ==> o.calls == [Client.CheckIfImageExists(c.image)] && o.err == images.err)
  {
  }

  /** Through the real adapter, a connect failure after a successful create
      ends provisioning with the connect error: the container is never started
      and nothing removes it. */
  lemma AdapterConnectFailureEndsProvisioning(a: Client.Actions, sdk: Adapter.Sdk, c: Container)
    requires var networkId := Client.ProvisionedNetworkId(a, c);
             a.createContainerWithNetwork(c.image, c.name, networkId, c.envs)
               == Adapter.CreateContainerWithNetwork(sdk, c.image, c.name, networkId, c.envs).reply
    requires var created := sdk.containerCreate(Adapter.ContainerConfig(c.image, c.envs), c.name);
             created.err == Nil && sdk.networkConnect(Client.ProvisionedNetworkId(a, c), created.value) != Nil
    ensures var o := Client.ServiceProvisioning(a, c);
            var created := sdk.containerCreate(Adapter.ContainerConfig(c.image, c.envs), c.name);
            && (forall call | call in o.calls :: !call.StartContainer? && !call.RemoveContainer?)
            && (Client.CreateContainerWithNetwork(c.image, c.name, Client.ProvisionedNetworkId(a, c), c.envs) in o.calls ==>
                  o.err == sdk.networkConnect(Client.ProvisionedNetworkId(a, c), created.value))
  {
    var o := Client.ServiceProvisioning(a, c);
    Client.ProvisioningIsFailFast(a, c);
    Client.TraceSucceedsIffEveryCallSucceeds(a, Client.ProvisionScript(a, c), FailFast.Run(o.calls, o.err));
  }
}
