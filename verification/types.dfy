/**
 Shared vocabulary of the docker-cli model: Go's nil-able `error`, the
 `(value, error)` pairs the runtime operations return, the container
 descriptor handed to the orchestration core, the service definition read
 from the compose file, and the log events the core emits.
 */
module Types {

  datatype Option<+T> = None | Some(value: T)

  /** A Go `error`: `Nil` is the nil error, anything else carries its message. */
  datatype Error = Nil | Error(message: string)

  /** The `(value, error)` pair returned by a fallible operation. */
  datatype Reply<+T> = Reply(value: T, err: Error)

  /** A container descriptor (`docker.Container`). */
  datatype Container = Container(name: string, image: string, envs: seq<string>)

  /** A service of the compose file (`yaml.Service`). */
  datatype Service = Service(image: string, env: map<string, string>)

  /** One call on the logger: a format template and its single argument, if any. */
  datatype LogEntry =
    | InfoLog(template: string, arg: string)
    | WarnLog(template: string)
    | ErrorLog(template: string, err: Error)

  /** The network that belongs to the container called `containerName`. */
  function NetworkName(containerName: string): string
  {
    containerName + "-network"
  }

  /** The names of a sequence of container descriptors, in order. */
  function Names(cs: seq<Container>): seq<string>
  {
    seq(|cs|, i requires 0 <= i < |cs| => cs[i].name)
  }

  /** `keys` lists every element of `domain` exactly once, in some order:
      this is what one `range` over a Go map with key set `domain` visits. */
  ghost predicate IsEnumeration<K>(keys: seq<K>, domain: set<K>)
  {
    multiset(keys) == multiset(domain)
  }

  /** An enumeration has no repeated element and covers exactly the domain. */
  lemma EnumerationIsDuplicateFreeCover<K>(keys: seq<K>, domain: set<K>)
    requires IsEnumeration(keys, domain)
    ensures forall i, j | 0 <= i < j < |keys| :: keys[i] != keys[j]
    ensures forall k :: k in keys <==> k in domain
    ensures |keys| == |domain|
  {
    forall i, j | 0 <= i < j < |keys|
      ensures keys[i] != keys[j]
    {
      if keys[i] == keys[j] {
        RepeatedElementCountsTwice(keys, i, j);
        assert false;
      }
    }
    EnumerationCovers(keys, domain);
    assert |keys| == |multiset(keys)| == |multiset(domain)| == |domain|;
  }

  /** An enumeration lists exactly the elements of the domain. */
  lemma EnumerationCovers<K>(keys: seq<K>, domain: set<K>)
    requires IsEnumeration(keys, domain)
    ensures forall k :: k in keys <==> k in domain
  {
    forall k
      ensures k in keys <==> k in domain
    {
      assert k in keys <==> k in multiset(keys);
    }
  }

  lemma RepeatedElementCountsTwice<K>(keys: seq<K>, i: nat, j: nat)
    requires i < j < |keys| && keys[i] == keys[j]
    ensures multiset(keys)[keys[i]] >= 2
  {
    assert keys == keys[..i] + [keys[i]] + keys[i + 1..j] + [keys[j]] + keys[j + 1..];
  }
}
