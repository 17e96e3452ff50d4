/** The provider registry (src/providers/registry.ts): a mutable map from provider
    identifier to adapter, iterated in first-registration order like a JavaScript
    `Map`. */
module Registry {
  import opened Wrappers
  import opened TaskTypes
  import opened ProviderBase

  /** No identifier occurs twice in `s`. */
  predicate Distinct(s: seq<TaskProvider>)
  {
    forall i, j :: 0 <= i < j < |s| ==> s[i] != s[j]
  }

  /** A sequence without repetitions has as many elements as its set of elements. */
  lemma {:induction false} DistinctCardinality(s: seq<TaskProvider>)
    requires Distinct(s)
    ensures |set x | x in s| == |s|
    decreases |s|
  {
    if s != [] {
      DistinctCardinality(s[1..]);
      assert (set x | x in s) == {s[0]} + (set x | x in s[1..]);
      assert s[0] !in s[1..] by {
        assert forall j :: 0 <= j < |s[1..]| ==> s[1..][j] == s[j + 1] != s[0];
      }
    }
  }

  /** The adapters that `keys` name in `m`, in the order of `keys`. */
  function AdaptersOf(keys: seq<TaskProvider>, m: map<TaskProvider, ProviderAdapter>): (r: seq<ProviderAdapter>)
    requires forall k :: k in keys ==> k in m
    ensures |r| == |keys|
    ensures forall i :: 0 <= i < |keys| ==> r[i] == m[keys[i]]
    decreases |keys|
  {
    if keys == [] then [] else [m[keys[0]]] + AdaptersOf(keys[1..], m)
  }

  /** A repetition-free order listing exactly the keys of a map is as long as the map. */
  lemma KeysCardinality(order: seq<TaskProvider>, providers: map<TaskProvider, ProviderAdapter>)
    requires Distinct(order)
    requires forall k :: k in providers <==> k in order
    ensures |providers| == |order|
  {
    DistinctCardinality(order);
    assert providers.Keys == set x | x in order;
  }

  /** Listing the adapters of a registry in registration order gives one adapter per
      registered identifier, each stored under its own identifier. */
  lemma AdaptersInOrder(order: seq<TaskProvider>, providers: map<TaskProvider, ProviderAdapter>)
    requires Distinct(order)
    requires forall k :: k in providers <==> k in order
    requires forall k :: k in providers ==> providers[k].id == k
    ensures var r := AdaptersOf(order, providers);
            && |r| == |providers|
            && (forall i :: 0 <= i < |r| ==> r[i].id == order[i] && order[i] in providers && r[i] == providers[order[i]])
            && (forall k :: k in providers ==> exists i :: 0 <= i < |r| && r[i].id == k)
  {
    KeysCardinality(order, providers);
    var r := AdaptersOf(order, providers);
    assert |r| == |order|;
    forall i | 0 <= i < |r|
      ensures r[i].id == order[i] && order[i] in providers && r[i] == providers[order[i]]
    {
      assert order[i] in providers;
    }
    forall k | k in providers
      ensures exists i :: 0 <= i < |r| && r[i].id == k
    {
      var i :| 0 <= i < |order| && order[i] == k;
      assert r[i].id == k;
    }
  }

  /** The `ProviderInfo` view of one adapter. */
  function InfoOf(p: ProviderAdapter): ProviderInfo
  {
    ProviderInfo(p.id, p.name, p.capabilities)
  }

  class ProviderRegistry {
    /** The adapter registered under each identifier. */
    var providers: map<TaskProvider, ProviderAdapter>
    /** The registered identifiers, in the order they were first registered. */
    var order: seq<TaskProvider>

    ghost predicate Valid()
      reads this
    {
      && Distinct(order)
      && (forall k :: k in providers <==> k in order)
      && (forall k :: k in providers ==> providers[k].id == k)
    }

    constructor ()
      ensures Valid()
      ensures providers == map[] && order == []
    {
      providers := map[];
      order := [];
    }

    /** `register`: stores `p` under its own identifier, replacing an earlier adapter
        with that identifier in place and leaving every other entry alone. */
    method Register(p: ProviderAdapter)
      requires Valid()
      modifies this
      ensures Valid()
      ensures providers == old(providers)[p.id := p]
      ensures order == if p.id in old(providers) then old(order) else old(order) + [p.id]
      ensures Get(p.id) == Ok(p)
      ensures forall id :: id != p.id ==> Get(id) == old(Get(id))
    {
      if p.id !in providers {
        order := order + [p.id];
      }
      providers := providers[p.id := p];
    }

    /** `get`: the adapter registered under `id`, or "Provider not found". */
    function Get(id: TaskProvider): (r: Outcome<ProviderAdapter>)
      reads this
      ensures r.Ok? <==> id in providers
      ensures r.Ok? ==> r.value == providers[id]
      ensures r.Err? ==> r.error == ProviderNotFound(ProviderName(id))
    {
      if id in providers then Ok(providers[id]) else Err(ProviderNotFound(ProviderName(id)))
    }

    /** `has`: whether `get` would succeed. */
    function Has(id: TaskProvider): (b: bool)
      reads this
      ensures b <==> Get(id).Ok?
    {
      id in providers
    }

    /** `getAll`: one adapter per registered identifier, in registration order. */
    function GetAll(): (r: seq<ProviderAdapter>)
      requires Valid()
      reads this
      ensures |r| == |providers| == |order|
      ensures forall i :: 0 <= i < |r| ==> r[i].id == order[i]
      ensures forall i :: 0 <= i < |r| ==> Get(r[i].id) == Ok(r[i])
      ensures forall id :: Has(id) <==> exists i :: 0 <= i < |r| && r[i].id == id
      ensures forall i, j :: 0 <= i < j < |r| ==> r[i].id != r[j].id
    {
      AdaptersInOrder(order, providers);
      AdaptersOf(order, providers)
    }

    /** `getAllInfo`: the id, name and capabilities of each adapter `getAll` returns. */
    function GetAllInfo(): (r: seq<ProviderInfo>)
      requires Valid()
      reads this
      ensures var all := GetAll();
              && |r| == |all|
              && forall i :: 0 <= i < |r| ==>
                   r[i].id == all[i].id && r[i].name == all[i].name && r[i].capabilities == all[i].capabilities
      ensures forall id :: Has(id) <==> exists i :: 0 <= i < |r| && r[i].id == id
    {
      var all := GetAll();
      seq(|all|, i requires 0 <= i < |all| => InfoOf(all[i]))
    }

    /** `getCapabilities`: the capabilities of the adapter `get` returns, failing
        exactly when `get` fails and with the same error. */
    function GetCapabilities(id: TaskProvider): (r: Outcome<ProviderCapabilities>)
      reads this
      ensures r.Ok? <==> Get(id).Ok?
      ensures r.Ok? ==> r.value == Get(id).value.capabilities
      ensures r.Err? ==> r.error == Get(id).error
    {
      match Get(id)
      case Ok(p) => Ok(p.capabilities)
      case Err(e) => Err(e)
    }
  }

  /** A registry that nothing was registered in fails every lookup. */
  method EmptyRegistryFindsNothing(id: TaskProvider) returns (r: Outcome<ProviderAdapter>)
    ensures r == Err(ProviderNotFound(ProviderName(id)))
  {
    var registry := new ProviderRegistry();
    r := registry.Get(id);
  }

  /** Registering two adapters under one identifier keeps the later one and a
      single entry. */
  method ReRegisterReplaces(a: ProviderAdapter, b: ProviderAdapter) returns (all: seq<ProviderAdapter>)
    requires a.id == b.id
    ensures all == [b]
  {
    var registry := new ProviderRegistry();
    registry.Register(a);
    registry.Register(b);
    all := registry.GetAll();
    assert registry.order == [a.id];
    assert all[0] == b;
  }
}
