/** The provider registry: a name-to-provider table that is filled by
    registration and read by lookup and listing. Providers are of any type
    `P`; the registry never inspects them. */
module Manager {
  import opened Wrappers
  import opened Dicts

  /** The message of the `ValueError` raised when `name` is not registered. */
  function NotFoundMessage(name: string): string {
    "Provider " + name + " not found"
  }

  /** `get_provider` on a registry holding `providers`: the provider stored
      under `name`, or the not-found `ValueError`. */
  function Lookup<P>(providers: Dict<P>, name: string): Result<P, string> {
    if name !in providers.entries then Err(NotFoundMessage(name))
    else Ok(providers.entries[name])
  }

  class ModelManager<P> {
    /** The `_providers` dict: registered names, their providers, and the
        order in which the names were first registered. */
    var providers: Dict<P>

    ghost predicate Valid()
      reads this
    {
      providers.Valid()
    }

    /** A fresh registry is empty. */
    constructor ()
      ensures Valid() && providers == Empty()
    {
      providers := Empty();
    }

    /** Insert-or-overwrite: the new state is the old dict after
        `_providers[name] = provider`. */
    method RegisterProvider(name: string, provider: P)
      requires Valid()
      modifies this
      ensures Valid()
      ensures providers == old(providers).Set(name, provider)
      ensures Lookup(providers, name) == Ok(provider)
      ensures forall other :: other != name ==> Lookup(providers, other) == old(Lookup(providers, other))
      ensures providers.keys == if name in old(providers.keys) then old(providers.keys) else old(providers.keys) + [name]
    {
      SetValid(providers, name, provider);
      providers := providers.Set(name, provider);
    }

    /** The provider registered under `name`, or the not-found error; the
        registry is left unchanged. */
    method GetProvider(name: string) returns (r: Result<P, string>)
      requires Valid()
      ensures r == Lookup(providers, name)
      ensures r.Ok? <==> name in providers.keys
      ensures r.Err? ==> r.error == NotFoundMessage(name)
    {
      r := Lookup(providers, name);
    }

    /** The registered names, each once, in order of first registration:
        exactly the names for which `GetProvider` succeeds. */
    method ListProviders() returns (names: seq<string>)
      requires Valid()
      ensures names == providers.keys
      ensures NoDuplicates(names)
      ensures forall n :: n in names <==> Lookup(providers, n).Ok?
    {
      names := providers.keys;
    }
  }

  /** Registering `p` under `n` makes `n` resolve to `p` (overwriting any
      earlier provider: last write wins) and leaves every other name's lookup
      as it was, including the not-found error. */
  lemma RegisterThenLookup<P>(providers: Dict<P>, n: string, p: P, m: string)
    ensures Lookup(providers.Set(n, p), m) == if m == n then Ok(p) else Lookup(providers, m)
  {
  }

  /** On a valid registry, a name is listed exactly when its lookup succeeds,
      and a name that is not listed fails with the fixed message and no other
      error. */
  lemma ListedIffFound<P>(providers: Dict<P>, n: string)
    requires providers.Valid()
    ensures n in providers.keys <==> Lookup(providers, n).Ok?
    ensures n !in providers.keys ==> Lookup(providers, n) == Err(NotFoundMessage(n))
  {
  }

  /** After any sequence of registrations on a fresh registry, the listing
      holds each registered name once, in order of first registration, and
      each name resolves to the provider registered for it last. */
  lemma RegistrationHistory<P>(writes: seq<(string, P)>, n: string)
    ensures Replay(writes).Valid()
    ensures Replay(writes).keys == FirstOccurrences(KeysOf(writes))
    ensures Lookup(Replay(writes), n) == match LastWrite(writes, n)
                                        case Some(p) => Ok(p)
                                        case None => Err(NotFoundMessage(n))
  {
    ReplayOrder(writes);
    ReplayValues(writes, n);
  }

  /** Registering every pair of `writes`, in order, on a fresh `ModelManager`
      leaves it holding `Replay(writes)`, so `RegistrationHistory` describes
      the registry object itself. */
  method RegisterAll<P>(writes: seq<(string, P)>) returns (m: ModelManager<P>)
    ensures fresh(m) && m.Valid() && m.providers == Replay(writes)
    ensures m.providers.keys == FirstOccurrences(KeysOf(writes))
    ensures forall n :: Lookup(m.providers, n) == match LastWrite(writes, n)
                                                 case Some(p) => Ok(p)
                                                 case None => Err(NotFoundMessage(n))
  {
    m := new ModelManager();
    for i := 0 to |writes|
      invariant m.Valid() && m.providers == Replay(writes[..i])
    {
      assert writes[..i + 1][..i] == writes[..i];
      m.RegisterProvider(writes[i].0, writes[i].1);
    }
    assert writes[..|writes|] == writes;
    ReplayOrder(writes);
    forall n {
      RegistrationHistory(writes, n);
    }
  }
}
