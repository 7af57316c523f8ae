/**
 The command layer's pure part (command/root.go): choosing the compose file
 path, building the prompt options, and mapping the selected service names
 to container descriptors. Go leaves the iteration order of a map
 unspecified, so every `range` over a map reads its order from a `MapOrder`,
 and the properties hold for every order a run may use.
 */
module Selection {
  import opened Types

  const AllPromptOption := "all"
  const DefaultComposeFilePath := "../default-compose.yaml"

  /** The compose file a command reads: its first argument, if any. */
  function ComposeFilePath(args: seq<string>): (path: string)
    ensures |args| > 0 ==> path == args[0]
    ensures |args| == 0 ==> path == DefaultComposeFilePath
  {
    if |args| > 0 then args[0] else DefaultComposeFilePath
  }

  /** The orders in which one run visits Go maps: the service map when the
      prompt options are built, the service map when "all" is expanded, and
      the environment map of a service each time a descriptor is built (keyed
      by the descriptor's position in the result and the service name). */
  datatype MapOrder = MapOrder(
    optionKeys: seq<string>,
    allKeys: seq<string>,
    envKeys: (nat, string) -> seq<string>)

  /** `ord` describes legal iteration orders of `services` and of its services' environments. */
  ghost predicate IsMapOrderOf(services: map<string, Service>, ord: MapOrder)
  {
    && IsEnumeration(ord.optionKeys, services.Keys)
    && IsEnumeration(ord.allKeys, services.Keys)
    && forall k: nat, name | name in services :: IsEnumeration(ord.envKeys(k, name), services[name].env.Keys)
  }

  /** The options offered to the prompt: "all" first, then every service name. */
  function PromptOptions(optionKeys: seq<string>): seq<string>
  {
    [AllPromptOption] + optionKeys
  }

  /** The options list "all" first and then each service exactly once. */
  lemma PromptOptionsListEveryServiceOnce(services: map<string, Service>, optionKeys: seq<string>)
    requires IsEnumeration(optionKeys, services.Keys)
    ensures var options := PromptOptions(optionKeys);
            && |options| == 1 + |services|
            && options[0] == AllPromptOption
            && multiset(options[1..]) == multiset(services.Keys)
  {
    EnumerationIsDuplicateFreeCover(optionKeys, services.Keys);
    assert PromptOptions(optionKeys)[1..] == optionKeys;
  }

  /** One environment variable as the container runtime expects it. */
  function EnvEntry(key: string, value: string): string
  {
    key + "=" + value
  }

  /** The `KEY=VALUE` strings of `env`, visiting its keys in the order `keys`. */
  function FlattenEnv(env: map<string, string>, keys: seq<string>): (envs: seq<string>)
    requires forall key | key in keys :: key in env
    ensures |envs| == |keys|
    ensures forall i | 0 <= i < |keys| :: envs[i] == EnvEntry(keys[i], env[keys[i]])
  {
    if |keys| == 0 then [] else [EnvEntry(keys[0], env[keys[0]])] + FlattenEnv(env, keys[1..])
  }

  /** `envs` holds one `KEY=VALUE` string per entry of `env`, in some iteration order of `env`. */
  ghost predicate IsFlattening(envs: seq<string>, env: map<string, string>)
  {
    exists keys ::
      && IsEnumeration(keys, env.Keys)
      && (forall key | key in keys :: key in env)
      && envs == FlattenEnv(env, keys)
  }

  /** The descriptor for service `name` (`newDockerContainer`), flattening its
      environment in the order `envKeys`. */
  function NewDockerContainer(name: string, service: Service, envKeys: seq<string>): (c: Container)
    requires IsEnumeration(envKeys, service.env.Keys)
    ensures c.name == name && c.image == service.image
    ensures |c.envs| == |service.env|
  {
    EnumerationIsDuplicateFreeCover(envKeys, service.env.Keys);
    Container(name, service.image, FlattenEnv(service.env, envKeys))
  }

  /** The environment of a descriptor holds exactly one `KEY=VALUE` string per
      entry of the service's environment, whatever the iteration order. */
  lemma NewDockerContainerFlattensEnv(name: string, service: Service, envKeys: seq<string>)
    requires IsEnumeration(envKeys, service.env.Keys)
    ensures var c := NewDockerContainer(name, service, envKeys);
            && |c.envs| == |service.env|
            && (forall key | key in service.env :: EnvEntry(key, service.env[key]) in c.envs)
            && (forall e | e in c.envs :: exists key | key in service.env :: e == EnvEntry(key, service.env[key]))
            && IsFlattening(c.envs, service.env)
  {
    EnumerationCovers(envKeys, service.env.Keys);
    var c := NewDockerContainer(name, service, envKeys);
    assert c.envs == FlattenEnv(service.env, envKeys);
    EnvHoldsEveryEntry(service.env, envKeys);
    assert IsFlattening(c.envs, service.env);
  }

  /** A flattening along a cover of the keys holds every entry and nothing else. */
  lemma EnvHoldsEveryEntry(env: map<string, string>, keys: seq<string>)
    requires forall key :: key in keys <==> key in env
    ensures forall key | key in env :: EnvEntry(key, env[key]) in FlattenEnv(env, keys)
    ensures forall e | e in FlattenEnv(env, keys) :: exists key | key in env :: e == EnvEntry(key, env[key])
  {
    var envs := FlattenEnv(env, keys);
    forall key | key in env
      ensures EnvEntry(key, env[key]) in envs
    {
      assert envs[IndexOf(keys, key)] == EnvEntry(key, env[key]);
    }
    forall e | e in envs
      ensures exists key | key in env :: e == EnvEntry(key, env[key])
    {
      var i :| 0 <= i < |envs| && envs[i] == e;
      assert e == EnvEntry(keys[i], env[keys[i]]);
    }
  }

  /** The position of the first occurrence of `key`. */
  function IndexOf(keys: seq<string>, key: string): (i: nat)
    requires key in keys
    ensures i < |keys| && keys[i] == key
  {
    if keys[0] == key then 0 else 1 + IndexOf(keys[1..], key)
  }

  /** Whatever iteration order produced them, two flattenings of the same
      environment hold the same strings, each as often. */
  lemma FlatteningsAgree(env: map<string, string>, envs1: seq<string>, envs2: seq<string>)
    requires IsFlattening(envs1, env) && IsFlattening(envs2, env)
    ensures multiset(envs1) == multiset(envs2)
  {
    var keys1 :| IsEnumeration(keys1, env.Keys) && (forall key | key in keys1 :: key in env) && envs1 == FlattenEnv(env, keys1);
    var keys2 :| IsEnumeration(keys2, env.Keys) && (forall key | key in keys2 :: key in env) && envs2 == FlattenEnv(env, keys2);
    FlattenRespectsPermutation(env, keys1, keys2);
  }

  lemma {:induction false} FlattenRespectsPermutation(env: map<string, string>, keys1: seq<string>, keys2: seq<string>)
    requires forall key | key in keys1 :: key in env
    requires multiset(keys1) == multiset(keys2)
    ensures forall key | key in keys2 :: key in env
    ensures multiset(FlattenEnv(env, keys1)) == multiset(FlattenEnv(env, keys2))
    decreases |keys1|
  {
    assert forall key | key in keys2 :: key in multiset(keys1);
    if |keys1| == 0 {
      assert |keys2| == |multiset(keys2)| == 0;
    } else {
      assert keys1[0] in multiset(keys2);
      var j := IndexOf(keys2, keys1[0]);
      var rest2 := keys2[..j] + keys2[j + 1..];
      RemovingMatchingKeysKeepsPermutation(keys1, keys2, j);
      FlattenRespectsPermutation(env, keys1[1..], rest2);
      FlattenPermutationStep(env, keys1, keys2, j);
    }
  }

  /** Taking the first key off `keys1` and the same key off `keys2` leaves permutations of each other. */
  lemma RemovingMatchingKeysKeepsPermutation(keys1: seq<string>, keys2: seq<string>, j: nat)
    requires multiset(keys1) == multiset(keys2)
    requires 0 < |keys1| && j < |keys2| && keys2[j] == keys1[0]
    ensures multiset(keys1[1..]) == multiset(keys2[..j] + keys2[j + 1..])
  {
    var x := keys1[0];
    assert keys1[..0] + keys1[1..] == keys1[1..];
    SplitAt(keys1, 0);
    SplitAt(keys2, j);
    CancelOne(multiset(keys1[1..]), multiset(keys2[..j] + keys2[j + 1..]), x);
  }

  /** The inductive step: flattenings of matching remainders agree, so do the whole flattenings. */
  lemma FlattenPermutationStep(env: map<string, string>, keys1: seq<string>, keys2: seq<string>, j: nat)
    requires forall key | key in keys1 :: key in env
    requires forall key | key in keys2 :: key in env
    requires 0 < |keys1| && j < |keys2| && keys2[j] == keys1[0]
    requires multiset(FlattenEnv(env, keys1[1..])) == multiset(FlattenEnv(env, keys2[..j] + keys2[j + 1..]))
    ensures multiset(FlattenEnv(env, keys1)) == multiset(FlattenEnv(env, keys2))
  {
    assert keys1[..0] + keys1[1..] == keys1[1..];
    FlattenAt(env, keys1, 0);
    FlattenAt(env, keys2, j);
  }

  /** One occurrence added to both sides cancels. */
  lemma CancelOne<T>(m1: multiset<T>, m2: multiset<T>, x: T)
    requires m1 + multiset{x} == m2 + multiset{x}
    ensures m1 == m2
  {
    forall y
      ensures m1[y] == m2[y]
    {
      assert (m1 + multiset{x})[y] == (m2 + multiset{x})[y];
    }
  }

  /** A sequence holds what it holds without its `j`-th element, plus that element. */
  lemma SplitAt<T>(s: seq<T>, j: nat)
    requires j < |s|
    ensures multiset(s) == multiset(s[..j] + s[j + 1..]) + multiset{s[j]}
  {
    assert s == s[..j] + [s[j]] + s[j + 1..];
  }

  /** Flattening without the key at `j` misses exactly that key's entry. */
  lemma FlattenAt(env: map<string, string>, keys: seq<string>, j: nat)
    requires forall key | key in keys :: key in env
    requires j < |keys|
    ensures multiset(FlattenEnv(env, keys))
            == multiset(FlattenEnv(env, keys[..j] + keys[j + 1..])) + multiset{EnvEntry(keys[j], env[keys[j]])}
  {
    var all := FlattenEnv(env, keys);
    FlattenSkip(env, keys, j);
    SplitAt(all, j);
  }

  /** Flattening without the key at `j` drops the `j`-th string. */
  lemma FlattenSkip(env: map<string, string>, keys: seq<string>, j: nat)
    requires forall key | key in keys :: key in env
    requires j < |keys|
    ensures FlattenEnv(env, keys[..j] + keys[j + 1..]) == FlattenEnv(env, keys)[..j] + FlattenEnv(env, keys)[j + 1..]
  {
    var all := FlattenEnv(env, keys);
    var skipped := keys[..j] + keys[j + 1..];
    var rest := FlattenEnv(env, skipped);
    forall i | 0 <= i < |rest|
      ensures rest[i] == (all[..j] + all[j + 1..])[i]
    {
      if i < j {
        assert skipped[i] == keys[i];
      } else {
        assert skipped[i] == keys[i + 1];
      }
    }
  }

  /** The selections made before the first "all". */
  function BeforeAll(selected: seq<string>): (prefix: seq<string>)
    ensures prefix <= selected
    ensures AllPromptOption !in prefix
    ensures |prefix| < |selected| ==> selected[|prefix|] == AllPromptOption
  {
    if |selected| == 0 || selected[0] == AllPromptOption then [] else [selected[0]] + BeforeAll(selected[1..])
  }

  /** The names that are services, in their order. */
  function KnownNames(names: seq<string>, services: map<string, Service>): (known: seq<string>)
    ensures forall name :: name in known <==> name in names && name in services
    ensures |known| <= |names|
  {
    if |names| == 0 then []
    else
      assert names == [names[0]] + names[1..];
      if names[0] in services then [names[0]] + KnownNames(names[1..], services)
      else KnownNames(names[1..], services)
  }

  /** The service names a selection stands for: the known names selected
      before the first "all", then, if "all" was selected, every service. */
  function SelectedNames(selected: seq<string>, services: map<string, Service>, allKeys: seq<string>): seq<string>
  {
    KnownNames(BeforeAll(selected), services) + if AllPromptOption in selected then allKeys else []
  }

  /** `c` is a descriptor of service `name`. */
  ghost predicate Describes(c: Container, name: string, services: map<string, Service>)
  {
    && name in services
    && c.name == name
    && c.image == services[name].image
    && IsFlattening(c.envs, services[name].env)
  }

  /** The descriptor of service `name` built as the `k`-th of the result. */
  function ContainerAt(name: string, services: map<string, Service>, ord: MapOrder, k: nat): (c: Container)
    requires IsMapOrderOf(services, ord) && name in services
  {
    NewDockerContainer(name, services[name], ord.envKeys(k, name))
  }

  /** Appends the descriptors of `keys` to `acc` (the expansion of "all"). */
  function AppendAll(keys: seq<string>, services: map<string, Service>, ord: MapOrder, acc: seq<Container>): (cs: seq<Container>)
    requires IsMapOrderOf(services, ord)
    requires forall name | name in keys :: name in services
    ensures |cs| == |acc| + |keys| && cs[..|acc|] == acc
    ensures forall i | |acc| <= i < |cs| :: cs[i] == ContainerAt(keys[i - |acc|], services, ord, i)
  {
    acc + seq(|keys|, i requires 0 <= i < |keys| => ContainerAt(keys[i], services, ord, |acc| + i))
  }

  /** The loop of `selectedServicesToContainers` from `selected` on, after it built `acc`. */
  function SelectLoop(selected: seq<string>, services: map<string, Service>, ord: MapOrder, acc: seq<Container>): seq<Container>
    requires IsMapOrderOf(services, ord)
    decreases |selected|
  {
    if |selected| == 0 then
      acc
    else if selected[0] == AllPromptOption then
      EnumerationIsDuplicateFreeCover(ord.allKeys, services.Keys);
      AppendAll(ord.allKeys, services, ord, acc)
    else if selected[0] in services then
      SelectLoop(selected[1..], services, ord, acc + [ContainerAt(selected[0], services, ord, |acc|)])
    else
      SelectLoop(selected[1..], services, ord, acc)
  }

  /** The loop appends to `acc` one descriptor per name the rest of the
      selection stands for, the `i`-th of the result built with the `i`-th
      environment order. */
  lemma {:induction false} SelectLoopBuildsSelectedNames(selected: seq<string>, services: map<string, Service>,
                                                         ord: MapOrder, acc: seq<Container>)
    requires IsMapOrderOf(services, ord)
    ensures var names := SelectedNames(selected, services, ord.allKeys);
            var cs := SelectLoop(selected, services, ord, acc);
            && (forall name | name in names :: name in services)
            && |cs| == |acc| + |names| && cs[..|acc|] == acc
            && forall i | |acc| <= i < |cs| :: cs[i] == ContainerAt(names[i - |acc|], services, ord, i)
    decreases |selected|
  {
    var names := SelectedNames(selected, services, ord.allKeys);
    var cs := SelectLoop(selected, services, ord, acc);
    if |selected| == 0 {
      assert names == [];
    } else if selected[0] == AllPromptOption {
      EnumerationIsDuplicateFreeCover(ord.allKeys, services.Keys);
      AllFirstSelectsEveryKey(selected, services, ord.allKeys);
    } else {
      SelectedNamesStep(selected, services, ord.allKeys);
      var rest := SelectedNames(selected[1..], services, ord.allKeys);
      if selected[0] in services {
        var next := acc + [ContainerAt(selected[0], services, ord, |acc|)];
        SelectLoopBuildsSelectedNames(selected[1..], services, ord, next);
        assert cs[..|next|] == next;
        assert cs[..|acc|] == next[..|acc|] == acc;
        forall i | |acc| <= i < |cs|
          ensures cs[i] == ContainerAt(names[i - |acc|], services, ord, i)
        {
          if i == |acc| {
            assert cs[i] == next[i];
          } else {
            assert names[i - |acc|] == rest[i - |next|];
          }
        }
      } else {
        SelectLoopBuildsSelectedNames(selected[1..], services, ord, acc);
      }
    }
  }

  /** A selection starting with "all" stands for every service, in the iteration order. */
  lemma AllFirstSelectsEveryKey(selected: seq<string>, services: map<string, Service>, allKeys: seq<string>)
    requires |selected| > 0 && selected[0] == AllPromptOption
    ensures SelectedNames(selected, services, allKeys) == allKeys
  {
    assert BeforeAll(selected) == [];
  }

  /** A selection starting with a name other than "all" stands for that name, if known, then for the rest. */
  lemma SelectedNamesStep(selected: seq<string>, services: map<string, Service>, allKeys: seq<string>)
    requires |selected| > 0 && selected[0] != AllPromptOption
    ensures SelectedNames(selected, services, allKeys)
            == (if selected[0] in services then [selected[0]] else []) + SelectedNames(selected[1..], services, allKeys)
  {
    var x := selected[0];
    var prefix := BeforeAll(selected[1..]);
    assert selected == [x] + selected[1..];
    assert AllPromptOption in selected <==> AllPromptOption in selected[1..];
    assert BeforeAll(selected) == [x] + prefix;
    KnownNamesCons(x, prefix, services);
  }

  /** Filtering the known names one name at a time. */
  lemma KnownNamesCons(x: string, names: seq<string>, services: map<string, Service>)
    ensures KnownNames([x] + names, services) == (if x in services then [x] else []) + KnownNames(names, services)
  {
    assert ([x] + names)[1..] == names;
  }

  /** Each descriptor built as `ContainerAt` describes its service. */
  lemma ContainerAtDescribes(name: string, services: map<string, Service>, ord: MapOrder, k: nat)
    requires IsMapOrderOf(services, ord) && name in services
    ensures Describes(ContainerAt(name, services, ord, k), name, services)
  {
    NewDockerContainerFlattensEnv(name, services[name], ord.envKeys(k, name));
  }

  /** The descriptors for a selection: one per name it stands for, in that order. */
  function SelectedServicesToContainers(selected: seq<string>, services: map<string, Service>, ord: MapOrder): (cs: seq<Container>)
    requires IsMapOrderOf(services, ord)
    ensures var names := SelectedNames(selected, services, ord.allKeys);
            && Names(cs) == names
            && forall i | 0 <= i < |cs| :: Describes(cs[i], names[i], services)
  {
    var cs := SelectLoop(selected, services, ord, []);
    SelectLoopBuildsSelectedNames(selected, services, ord, []);
    LoopResultDescribesNames(cs, SelectedNames(selected, services, ord.allKeys), services, ord);
    cs
  }

  /** Descriptors built one per name describe those names. */
  lemma LoopResultDescribesNames(cs: seq<Container>, names: seq<string>, services: map<string, Service>, ord: MapOrder)
    requires IsMapOrderOf(services, ord)
    requires forall name | name in names :: name in services
    requires |cs| == |names| && forall i | 0 <= i < |cs| :: cs[i] == ContainerAt(names[i], services, ord, i)
    ensures Names(cs) == names
    ensures forall i | 0 <= i < |cs| :: Describes(cs[i], names[i], services)
  {
    forall i | 0 <= i < |cs|
      ensures Describes(cs[i], names[i], services)
    {
      ContainerAtDescribes(names[i], services, ord, i);
    }
  }

  /** A selection that starts with "all" yields exactly one descriptor per service. */
  lemma AllFirstGivesEachServiceOnce(selected: seq<string>, services: map<string, Service>, ord: MapOrder)
    requires IsMapOrderOf(services, ord)
    requires |selected| > 0 && selected[0] == AllPromptOption
    ensures var cs := SelectedServicesToContainers(selected, services, ord);
            && IsEnumeration(Names(cs), services.Keys)
            && |cs| == |services|
  {
    assert BeforeAll(selected) == [];
    assert SelectedNames(selected, services, ord.allKeys) == ord.allKeys;
    EnumerationIsDuplicateFreeCover(ord.allKeys, services.Keys);
  }

  /** Without "all", the descriptors follow the selection: one per selected
      name that is a service, unknown names dropped. */
  lemma WithoutAllFollowsSelection(selected: seq<string>, services: map<string, Service>, ord: MapOrder)
    requires IsMapOrderOf(services, ord)
    requires AllPromptOption !in selected
    ensures Names(SelectedServicesToContainers(selected, services, ord)) == KnownNames(selected, services)
  {
    assert BeforeAll(selected) == selected;
  }

  /** Whatever follows the first "all" is ignored. */
  lemma {:induction false} NamesAfterAllAreIgnored(prefix: seq<string>, tail1: seq<string>, tail2: seq<string>,
                                                    services: map<string, Service>, ord: MapOrder, acc: seq<Container>)
    requires IsMapOrderOf(services, ord)
    requires AllPromptOption !in prefix
    ensures SelectLoop(prefix + [AllPromptOption] + tail1, services, ord, acc)
            == SelectLoop(prefix + [AllPromptOption] + tail2, services, ord, acc)
    decreases |prefix|
  {
    var s1 := prefix + [AllPromptOption] + tail1;
    var s2 := prefix + [AllPromptOption] + tail2;
    if |prefix| > 0 {
      assert s1[1..] == prefix[1..] + [AllPromptOption] + tail1;
      assert s2[1..] == prefix[1..] + [AllPromptOption] + tail2;
      if prefix[0] in services {
        NamesAfterAllAreIgnored(prefix[1..], tail1, tail2, services, ord,
                                acc + [ContainerAt(prefix[0], services, ord, |acc|)]);
      } else {
        NamesAfterAllAreIgnored(prefix[1..], tail1, tail2, services, ord, acc);
      }
    }
  }

  /** "all" does not absorb the selections made before it: selecting a
      service and then "all" yields that service twice. */
  lemma AllKeepsEarlierSelections()
    ensures var services := map["nginx" := Service("nginx:alpine", map[])];
            var ord := MapOrder(["nginx"], ["nginx"], (k: nat, name: string) => []);
            && IsMapOrderOf(services, ord)
            && Names(SelectedServicesToContainers(["nginx", AllPromptOption], services, ord)) == ["nginx", "nginx"]
  {
    var services := map["nginx" := Service("nginx:alpine", map[])];
    var ord := MapOrder(["nginx"], ["nginx"], (k: nat, name: string) => []);
    assert services.Keys == {"nginx"};
    assert multiset(services.Keys) == multiset(["nginx"]);
    assert IsMapOrderOf(services, ord);
    assert BeforeAll(["nginx", AllPromptOption]) == ["nginx"];
  }

  /** The prompt call: its message and the options it offered. */
  datatype PromptCall = PromptCall(message: string, options: seq<string>)

  /** What `selectServiceContainers` did. */
  datatype SelectionOutcome = SelectionOutcome(prompt: PromptCall, containers: seq<Container>, err: Error)

  /** Asks the prompt to choose among "all" and the services, then maps the
      answer to descriptors; a prompt error yields no descriptors and that error. */
  function SelectServiceContainers(message: string, prompt: (string, seq<string>) -> Reply<seq<string>>,
                                   services: map<string, Service>, ord: MapOrder): (r: SelectionOutcome)
    requires IsMapOrderOf(services, ord)
    ensures r.prompt.message == message
    ensures |r.prompt.options| == 1 + |services| && r.prompt.options[0] == AllPromptOption
    ensures multiset(r.prompt.options[1..]) == multiset(services.Keys)
    ensures var answer := prompt(r.prompt.message, r.prompt.options);
            && (answer.err != Nil ==> r.containers == [] && r.err == answer.err)
            && (answer.err == Nil ==>
                  && r.err == Nil
                  && Names(r.containers) == SelectedNames(answer.value, services, ord.allKeys)
                  && forall i | 0 <= i < |r.containers| :: Describes(r.containers[i], r.containers[i].name, services))
  {
    PromptOptionsListEveryServiceOnce(services, ord.optionKeys);
    var call := PromptCall(message, PromptOptions(ord.optionKeys));
    var answer := prompt(call.message, call.options);
    if answer.err != Nil then
      SelectionOutcome(call, [], answer.err)
    else
      SelectionOutcome(call, SelectedServicesToContainers(answer.value, services, ord), Nil)
  }
}
