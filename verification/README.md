# docker-cli orchestration core in Dafny

docker-cli is a command-line tool. It reads a compose-style file of services, lets an operator pick services in a multi-select prompt, and then starts or stops the picked services one container at a time. This project models its core as pure functions over abstract collaborators and proves properties of that model. The modelled parts are:

- the orchestration core `ServiceProvisioning` / `ServiceDecommissioning` (module `Client`);
- the Docker action adapter that sits between the core and the Docker SDK (module `Adapter`);
- the mapping from a prompt selection to container descriptors (module `Selection`);
- the `Run` bodies of the `start` and `stop` commands (module `Commands`).

Every collaborator is a total function. The `Actions` interface and the Docker SDK client are records of such functions (`Client.Actions`, `Adapter.Sdk`). The compose loader, the prompt and the docker client used by the commands are single function fields of the `Commands.Environment` record. Each `Client` operation returns the calls it made on `Actions`, the log events it emitted and the error it returned. Each `Adapter` operation returns the SDK calls it made and either its reply or a panic. Go's nil-able `error` is `Types.Error` (`Nil` or `Error(message)`). A `(value, error)` result is `Types.Reply`.

The stop-at-the-first-failure rule is defined once, in module `FailFast`:
- `IsFailFastRun` describes a fail-fast run of a script of steps declaratively;
- `Execute` performs such a run;
- `FailFastRunIsUnique` proves that the description fixes the run.

Provisioning, decommissioning and both command batch loops are shown to be fail-fast runs of their protocols. `ProvisionScript` and `DecommissionScript` give each protocol as the sequence of calls made when every step succeeds.

Go leaves map iteration order unspecified. `Selection.MapOrder` therefore supplies one order for each `range` a run makes:
- the service map when the prompt options are built;
- the service map when "all" is expanded;
- a service's environment map each time a descriptor is built, keyed by the descriptor's position in the result.

`IsEnumeration` (the multiset of the keys equals the multiset of the domain) is the only constraint on these orders. So every property holds for every order. Environments are compared as multisets (`FlatteningsAgree`).

Two behaviours of the code are easy to misread:
- **"all" does not discard earlier selections.** Names selected before the first "all" are kept, and then every service is appended (command/root.go:49-55). Selecting `["nginx", "all"]` therefore yields `nginx` twice (`Selection.AllKeepsEarlierSelections`). A selection that starts with "all" gives exactly one descriptor per service (`Selection.AllFirstGivesEachServiceOnce`); a known service selected before the first "all" appears twice.
- **Decommissioning an absent service fails through the real adapter.** `StopContainer` turns an empty container listing into the error `container <name> not found` (docker/action.go:107-109). The client's skip branch (docker/client.go:63-66) is taken only when the first container the SDK lists has an empty id and stopping that empty id succeeds (docker/action.go:111-113; `Composition.AdapterStopSkipsOnlyForAnEmptyListedId`).

## Model

| member | source | states |
|---|---|---|
| FailFast.Execute | command/start.go:32-37 | performing steps in order and stopping at the first failing one gives a fail-fast run: a prefix of the script, every step before the last succeeded, a failure's error returned unchanged, success only when the whole script ran |
| FailFast.FailFastRunIsUnique | docker/client.go:28-53 | a script and its step outcomes admit exactly one fail-fast run |
| FailFast.FailFastRunIsExecute | command/stop.go:32-37 | a run satisfies the fail-fast description if and only if it is the executed run |
| Client.PullImageIfNotExists | docker/client.go:85-103 | the image check comes first; a check error is returned with no further call; a present image returns nil after the check alone; an absent image is pulled and the pull's result (its error, or nil) is returned; pull is called exactly when the check answers (false, nil); the "already exists" warning is logged exactly when the check answers (true, nil) |
| Client.ServiceProvisioning | docker/client.go:27-54 | starts with CheckIfImageExists(image), and a check error ends it with that error alone; pulls exactly when the image is absent; the network created is `<name>-network`; the container is created from the descriptor's image, name and env on the network id CreateNetwork returned; the id started is the one create returned; success exactly when the last log is "started" |
| Client.ProvisioningIsFailFast | docker/client.go:27-54 | the calls and error of provisioning are the fail-fast run of the four-step protocol (ensure image, create network, create and attach container, start) |
| Client.ProvisioningIsTheFailFastRunOfItsProtocol | docker/client.go:27-54 | both directions: a trace and error describe a fail-fast run of the provisioning protocol exactly when they are what provisioning returns |
| Client.ProvisioningSucceedsIffEveryCallSucceeds | docker/client.go:28-53 | provisioning returns nil exactly when every action it invoked succeeded, and otherwise the error of the last action it invoked |
| Client.PresentImageIsNeverPulled | docker/client.go:91-94 | when the runtime reports the image present, no PullImage call is ever made |
| Client.ServiceDecommissioning | docker/client.go:57-83 | starts with StopContainer(name); a stop error ends it with that error alone; an empty id ends it with nil after only the stop call and one "not found" warning, which is logged in no other case; RemoveContainer is called, with the returned id, exactly when stop returned a non-empty id without error; RemoveNetwork(name) only after RemoveContainer succeeded |
| Client.DecommissioningIsFailFast | docker/client.go:57-83 | the calls and error of decommissioning are the fail-fast run of the protocol stop, remove container, remove network, cut after stop when the id is empty |
| Client.DecommissioningIsTheFailFastRunOfItsProtocol | docker/client.go:57-83 | both directions: a trace and error describe a fail-fast run of the decommissioning protocol exactly when they are what decommissioning returns |
| Client.DecommissioningSucceedsIffEveryCallSucceeds | docker/client.go:58-82 | decommissioning returns nil exactly when every action it invoked succeeded, and otherwise the error of the last action it invoked |
| Adapter.CheckIfImageExists | docker/action.go:41-52 | lists images filtered by reference = image name; the image exists exactly when the listing succeeds with exactly one image; a listing error is returned with false |
| Adapter.PullImage | docker/action.go:55-64 | one ImagePull of the image; its error is returned, nil otherwise |
| Adapter.CreateNetwork | docker/action.go:66-73 | one NetworkCreate of the name; the created id with nil on success, the empty id with the error on failure |
| Adapter.CreateContainerWithNetwork | docker/action.go:75-89 | ContainerCreate receives the image and env unchanged and the container name; a create error returns ("", err) and NetworkConnect is never called; a connect error returns ("", err); success returns the created id; no container is ever removed |
| Adapter.StartContainer | docker/action.go:91-94 | one ContainerStart of the id, its result returned unchanged |
| Adapter.StopContainer | docker/action.go:96-114 | lists containers filtered by name; a listing error gives ("", err); an empty listing gives ("", "container <name> not found") with no stop call; otherwise the first listed id is stopped and returned with the stop result |
| Adapter.RemoveContainer | docker/action.go:116-119 | one ContainerRemove of the id, its result returned unchanged |
| Adapter.RemoveNetwork | docker/action.go:121-133 | lists networks filtered by `<name>-network`; a listing error is returned; an empty listing panics, and only then; otherwise the first listed network id is removed and the removal result returned |
| Adapter.StopReportsEmptyIdOnlyForAnEmptyListedId | docker/action.go:105-113 | StopContainer returns ("", nil) exactly when the listing succeeds, its first id is empty and stopping that id succeeds |
| Adapter.FailedConnectLeavesCreatedContainer | docker/action.go:80-88 | when create succeeds and connect fails, the operation fails with the empty id, the SDK trace holds the create, and nothing removes the container |
| Composition.AdapterStopSkipsOnlyForAnEmptyListedId | docker/client.go:58-66 | through the real StopContainer, the "not found, skipping" branch is taken exactly when the listing succeeds, its first id is empty and stopping the empty id succeeds; a name matching no container makes decommissioning fail with "container <name> not found" after the single stop call |
| Composition.AdapterCheckPullsUnlessExactlyOneImage | docker/client.go:86-99 | through the real CheckIfImageExists, provisioning pulls exactly when the reference listing succeeds and finds anything but exactly one image; a listing error ends provisioning with that error |
| Composition.AdapterConnectFailureEndsProvisioning | docker/client.go:40-46 | through the real CreateContainerWithNetwork, a connect failure after a successful create makes provisioning return the connect error; the container is never started and never removed |
| Selection.ComposeFilePath | command/root.go:24-31 | the compose file path is the first argument when there is one, otherwise "../default-compose.yaml" |
| Selection.PromptOptionsListEveryServiceOnce | command/root.go:34-37 | the prompt options are "all" followed by every service name exactly once, 1 + number of services in all |
| Selection.NewDockerContainer | command/root.go:65-72 | the descriptor carries the service name and the service's image, and one env string per environment entry |
| Selection.NewDockerContainerFlattensEnv | command/root.go:65-72 | the descriptor's env holds `K=V` for every entry of the environment, holds nothing else, has as many strings as the environment has entries, and is a flattening of it in some iteration order |
| Selection.FlatteningsAgree | command/root.go:66-69 | any two flattenings of one environment, in whatever iteration orders, hold the same strings the same number of times |
| Selection.SelectLoopBuildsSelectedNames | command/root.go:48-60 | the selection loop appends, after what it already built, one descriptor per name the rest of the selection stands for (known names before the first "all", then every service if "all" occurs) |
| Selection.SelectedServicesToContainers | command/root.go:47-63 | the descriptors are, in order, one per known name selected before the first "all" followed by one per service when "all" was selected, each describing its service's name, image and env |
| Selection.AllFirstGivesEachServiceOnce | command/root.go:49-55 | a selection that begins with "all" yields exactly one descriptor per service, with no duplicates |
| Selection.WithoutAllFollowsSelection | command/root.go:57-59 | without "all", the descriptors follow the selection order, one per selected name that is a service, with unknown names dropped |
| Selection.NamesAfterAllAreIgnored | command/root.go:50-55 | whatever follows the first "all" in a selection does not change the result |
| Selection.AllKeepsEarlierSelections | command/root.go:49-58 | "all" does not absorb earlier selections: `["nginx", "all"]` over a one-service map yields nginx twice |
| Selection.SelectServiceContainers | command/root.go:33-45 | the prompt gets the given message and the options "all" plus every service once; a prompt error yields no descriptors and that error; otherwise the descriptors of the answer |
| Commands.RunCommand | command/start.go:20-37 | a parse error is logged with "Error parsing compose file: %s\n" and nothing is prompted or processed; the prompt gets the command's message and the options; a selection error is logged with "Error selecting services: %s\n" and nothing is processed; otherwise the selected containers are handed to the client as a fail-fast run, and a failure is logged with the command's template; at most one error is logged |
| Commands.StartRun | command/start.go:19-38 | the start command prompts with "Select services to start" and logs only the parse, selection or "Error starting services: %s\n" template |
| Commands.StopRun | command/stop.go:19-38 | the stop command prompts with "Select services to stop" and logs only the parse, selection or "Error stopping services: %s\n" template |
| Commands.QuietRunProcessedEverySelection | command/stop.go:32-37 | a run that logs nothing handed every selected container to the client exactly once, in order, and each call succeeded; a run that logs a container failure stopped right after the container whose call failed, all earlier calls having succeeded |

## Left out

- yaml/yaml.go: reading the file and unmarshalling YAML are I/O and a foreign library. The loader is the abstract `Environment.parse`, which returns services or an error.
- prompt/prompt.go: the interactive terminal multi-select. It is the abstract `Environment.prompt`, which answers a (message, options) call.
- logger/logger.go: colours and writer output. A log call is a `LogEntry` holding its template and argument.
- cmd/docker-cli/main.go and `NewRootCommand`: cobra and SDK wiring with no decisions in them.
- The copy of the pull progress stream to standard output, and `context.Context` threading: side effects and plumbing that never influence a result.
- What the Docker daemon does (filter matching, id formats): the SDK is a responder. Only the lists, ids and errors it returns are modelled.
- Client.ServiceProvisioning: calls and log events are two separate sequences, so the interleaving of a log event between two calls is not stated. The logger never influences a branch.
- Client.ServiceDecommissioning: the `Actions` responder's RemoveNetwork returns an error. The adapter's index panic on an empty network listing is modelled in `Adapter.RemoveNetwork` (as `Panicked`), but the composition lemmas do not carry it into the client, because a panic ends the process rather than returning an error.
- Commands.RunCommand: a client call returns only an error. Its internal calls are the ones `Client.ServiceProvisioning` and `Client.ServiceDecommissioning` describe, and `Environment.client` stands for either.
- Process exit codes: the `Run` bodies never call `os.Exit` and return normally, except when the stop command reaches the `RemoveNetwork` panic on an empty network listing (docker/action.go:132), described under Client.ServiceDecommissioning; that panic ends the process and `Commands.RunCommand` does not model it.
