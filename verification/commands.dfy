/**
 The `Run` bodies of the start and stop commands (command/start.go,
 command/stop.go): parse the compose file, let the operator select services,
 then provision (start) or decommission (stop) the selected containers one
 by one, stopping at the first failure. The compose file loader, the prompt
 and the docker client are abstract responders.
 */
module Commands {
  import opened Types
  import opened FailFast
  import opened Selection

  const ParseFailureTemplate := "Error parsing compose file: %s\n"
  const SelectFailureTemplate := "Error selecting services: %s\n"

  datatype Command = Start | Stop

  /** The prompt message of a command. */
  function Message(cmd: Command): string
  {
    match cmd
    case Start => "Select services to start"
    case Stop => "Select services to stop"
  }

  /** The error template a command logs when a container fails. */
  function BatchFailureTemplate(cmd: Command): string
  {
    match cmd
    case Start => "Error starting services: %s\n"
    case Stop => "Error stopping services: %s\n"
  }

  /** The collaborators of one run. `client(k, c)` is what the `k`-th call of
      `ServiceProvisioning` (start) or `ServiceDecommissioning` (stop), made
      on container `c`, returns. */
  datatype Environment = Environment(
    parse: string -> Reply<map<string, Service>>,
    prompt: (string, seq<string>) -> Reply<seq<string>>,
    order: MapOrder,
    client: (nat, Container) -> Error)

  /** `order` is a legal iteration order of whatever services the compose file yields. */
  ghost predicate IsRunnable(args: seq<string>, e: Environment)
  {
    var parsed := e.parse(ComposeFilePath(args));
    parsed.err == Nil ==> IsMapOrderOf(parsed.value, e.order)
  }

  /** What one run did: the file it parsed, the prompt call it made (if any),
      the containers it handed to the client, in order, and what it logged. */
  datatype RunTrace = RunTrace(path: string, prompted: Option<PromptCall>, processed: seq<Container>, logs: seq<LogEntry>)

  /** The `Run` body shared by the start and stop commands. */
  function RunCommand(cmd: Command, args: seq<string>, e: Environment): (t: RunTrace)
    requires IsRunnable(args, e)
    ensures t.path == ComposeFilePath(args)
    ensures |t.logs| <= 1
    ensures forall entry | entry in t.logs :: entry.ErrorLog? && entry.err != Nil
    ensures var parsed := e.parse(t.path);
            && (parsed.err != Nil ==>
                  t.prompted == None && t.processed == [] && t.logs == [ErrorLog(ParseFailureTemplate, parsed.err)])
            && (parsed.err == Nil ==>
                  && t.prompted.Some?
                  && t.prompted.value.message == Message(cmd)
                  && t.prompted.value.options == PromptOptions(e.order.optionKeys))
    ensures t.prompted.Some? ==>
              var answer := e.prompt(t.prompted.value.message, t.prompted.value.options);
              && (answer.err != Nil ==> t.processed == [] && t.logs == [ErrorLog(SelectFailureTemplate, answer.err)])
              && (answer.err == Nil ==>
                    var selected := SelectedServicesToContainers(answer.value, e.parse(t.path).value, e.order);
                    var batchErr := if t.logs == [] then Nil else t.logs[0].err;
                    && IsFailFastRun(selected, e.client, Run(t.processed, batchErr))
                    && (t.logs != [] ==> t.logs[0].template == BatchFailureTemplate(cmd)))
  {
    var path := ComposeFilePath(args);
    var parsed := e.parse(path);
    if parsed.err != Nil then
      RunTrace(path, None, [], [ErrorLog(ParseFailureTemplate, parsed.err)])
    else
      var selection := SelectServiceContainers(Message(cmd), e.prompt, parsed.value, e.order);
      if selection.err != Nil then
        RunTrace(path, Some(selection.prompt), [], [ErrorLog(SelectFailureTemplate, selection.err)])
      else
        var batch := Execute(selection.containers, e.client);
        var logs := if batch.err == Nil then [] else [ErrorLog(BatchFailureTemplate(cmd), batch.err)];
        RunTrace(path, Some(selection.prompt), batch.done, logs)
  }

  /** The start command's run. */
  function StartRun(args: seq<string>, e: Environment): (t: RunTrace)
    requires IsRunnable(args, e)
    ensures t.prompted.Some? ==> t.prompted.value.message == "Select services to start"
    ensures forall entry | entry in t.logs ::
              entry.template in {ParseFailureTemplate, SelectFailureTemplate, "Error starting services: %s\n"}
  {
    RunCommand(Start, args, e)
  }

  /** The stop command's run. */
  function StopRun(args: seq<string>, e: Environment): (t: RunTrace)
    requires IsRunnable(args, e)
    ensures t.prompted.Some? ==> t.prompted.value.message == "Select services to stop"
    ensures forall entry | entry in t.logs ::
              entry.template in {ParseFailureTemplate, SelectFailureTemplate, "Error stopping services: %s\n"}
  {
    RunCommand(Stop, args, e)
  }

  /** A run that logs nothing handed every selected container to the client
      exactly once, in selection order, and every call succeeded; a run that
      logs a container failure stopped right after the failing container. */
  lemma QuietRunProcessedEverySelection(cmd: Command, args: seq<string>, e: Environment)
    requires IsRunnable(args, e)
    ensures var t := RunCommand(cmd, args, e);
            t.logs == [] ==>
              && t.prompted.Some?
              && var answer := e.prompt(t.prompted.value.message, t.prompted.value.options);
                 var selected := SelectedServicesToContainers(answer.value, e.parse(t.path).value, e.order);
                 && t.processed == selected
                 && forall k: nat | k < |selected| :: e.client(k, selected[k]) == Nil
    ensures var t := RunCommand(cmd, args, e);
            t.logs != [] && t.logs[0].template == BatchFailureTemplate(cmd) ==>
              && |t.processed| > 0
              && t.logs[0].err == e.client(|t.processed| - 1, t.processed[|t.processed| - 1])
              && forall k: nat | k + 1 < |t.processed| :: e.client(k, t.processed[k]) == Nil
  {
    var t := RunCommand(cmd, args, e);
    if t.logs != [] && t.logs[0].template == BatchFailureTemplate(cmd) {
      assert BatchFailureTemplate(cmd) != ParseFailureTemplate;
      assert BatchFailureTemplate(cmd) != SelectFailureTemplate;
    }
  }
}
