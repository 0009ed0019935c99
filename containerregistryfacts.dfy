/** azure_rm_containerregistry_facts: the facts of one container registry, or
    of all registries of a resource group. */
module ContainerRegistryFacts {
  import opened Values
  import Facts

  /** The keys of `module_arg_spec`; the lemmas hold for any order of visiting them. */
  const ArgSpec: seq<string> := ["resource_group", "registry_name"]

  /** The options `__init__` declares as attributes: all of them. */
  const AttributeNames: set<string> := {"resource_group", "registry_name"}

  /** The attribute dict of the module object; every declared attribute is
      always there. */
  type Attributes = m: Fields | AttributeNames <= m.Keys witness map k | k in AttributeNames :: Null

  /** The registries client: each call, for the given arguments, either
      raises or returns. */
  datatype Api = Api(
    get: (Value, Value) -> Reply<Fields>,
    listCredentials: (Value, Value) -> Reply<seq<Fields>>,
    listUsages: (Value, Value) -> Reply<seq<Fields>>,
    listByResourceGroup: Value -> Reply<seq<Fields>>)

  /** The facts `exec_module` stores for the resource group `rg` and the
      registry name `name`: the if/elif chain, with its two middle arms
      guarded by the same test as the first. */
  function FactsFor(rg: Value, name: Value, api: Api): (facts: Fields)
    ensures facts.Keys <= {"get", "list_by_resource_group"}
  {
    if rg != Null && name != Null then map["get" := Observe(api.get(rg, name))]
    else if rg != Null && name != Null then map["list_credentials" := Facts.ListResult(api.listCredentials(rg, name))]
    else if rg != Null && name != Null then map["list_usages" := Facts.ListResult(api.listUsages(rg, name))]
    else if rg != Null then map["list_by_resource_group" := Facts.ListResult(api.listByResourceGroup(rg))]
    else map[]
  }

  /** With a registry name only the `get` fact is filled; with none, only
      `list_by_resource_group`. The `list_credentials` and `list_usages` arms
      can never run, so at most one fact is set and it is one of those two. */
  lemma Dispatch(rg: Value, name: Value, api: Api)
    ensures var f := FactsFor(rg, name, api);
            (rg != Null && name != Null ==> f == map["get" := Observe(api.get(rg, name))]) &&
            (rg != Null && name == Null ==>
               f == map["list_by_resource_group" := Facts.ListResult(api.listByResourceGroup(rg))]) &&
            (rg == Null ==> f == map[])
    ensures var f := FactsFor(rg, name, api);
            "list_credentials" !in f && "list_usages" !in f &&
            f.Keys <= {"get", "list_by_resource_group"} && |f.Keys| <= 1
  {
  }

  /** The module object `AzureRMRegistriesFacts`. */
  class Registries {
    var attributes: Attributes
    var results: Fields

    /** The state `__init__` leaves before `exec_module` runs. */
    ghost predicate Initial()
      reads this
    {
      attributes == (map k | k in AttributeNames :: Null) && results == Facts.InitialResults
    }

    constructor ()
      ensures Initial()
    {
      attributes := map k | k in AttributeNames :: Null;
      results := Facts.InitialResults;
    }

    /** `for key in self.module_arg_spec: setattr(self, key, kwargs[key])`: every
        key visited is a declared attribute, so the set of attributes stays
        the same. */
    method CopyAttributes(keys: seq<string>, kwargs: Fields)
      requires forall k <- keys :: k in AttributeNames && k in kwargs
      modifies this`attributes
      ensures attributes == SetAttributes(old(attributes), keys, kwargs)
    {
      ghost var attributes0 := attributes;
      var i := 0;
      while i < |keys|
        invariant 0 <= i <= |keys|
        invariant attributes == SetAttributes(attributes0, keys[..i], kwargs)
      {
        var key := keys[i];
        assert keys[..i + 1] == keys[..i] + [key];
        SetAttributesStep(attributes0, keys[..i], key, kwargs);
        attributes := attributes[key := kwargs[key]];
        i := i + 1;
      }
      assert keys[..i] == keys;
    }

    /** `get`: the registry's dict, or False when the client raised. */
    method Get(api: Api) returns (r: Value)
      ensures r == Observe(api.get(attributes["resource_group"], attributes["registry_name"]))
    {
      var response := api.get(attributes["resource_group"], attributes["registry_name"]);
      r := Bool(false);
      if response.Returned? {
        r := Dict(response.value);
      }
    }

    method ListCredentials(api: Api) returns (r: Value)
      ensures r == Facts.ListResult(api.listCredentials(attributes["resource_group"], attributes["registry_name"]))
    {
      r := Facts.ShapeList(api.listCredentials(attributes["resource_group"], attributes["registry_name"]));
    }

    method ListUsages(api: Api) returns (r: Value)
      ensures r == Facts.ListResult(api.listUsages(attributes["resource_group"], attributes["registry_name"]))
    {
      r := Facts.ShapeList(api.listUsages(attributes["resource_group"], attributes["registry_name"]));
    }

    method ListByResourceGroup(api: Api) returns (r: Value)
      ensures r == Facts.ListResult(api.listByResourceGroup(attributes["resource_group"]))
    {
      r := Facts.ShapeList(api.listByResourceGroup(attributes["resource_group"]));
    }

    /** The if/elif chain of `exec_module`: the key of the fact the chosen
        arm fills, and its value. */
    method Choose(api: Api) returns (key: Option<string>, v: Value)
      ensures (if key.Some? then map[key.value := v] else map[]) ==
                FactsFor(attributes["resource_group"], attributes["registry_name"], api)
    {
      var rg := attributes["resource_group"];
      var name := attributes["registry_name"];
      key := None;
      v := Null;
      if rg != Null && name != Null {
        v := Get(api);
        key := Some("get");
      } else if rg != Null && name != Null {
        v := ListCredentials(api);
        key := Some("list_credentials");
      } else if rg != Null && name != Null {
        v := ListUsages(api);
        key := Some("list_usages");
      } else if rg != Null {
        v := ListByResourceGroup(api);
        key := Some("list_by_resource_group");
      }
    }

    /** `exec_module` with the registries client `api`. */
    method ExecModule(kwargs: Fields, api: Api)
      requires Initial()
      requires forall k <- ArgSpec :: k in kwargs
      modifies this
      ensures attributes == map k | k in AttributeNames :: kwargs[k]
      ensures results ==
                Facts.InitialResults["ansible_facts" := Dict(FactsFor(kwargs["resource_group"], kwargs["registry_name"], api))]
    {
      Facts.LoopSetsEveryAttribute(AttributeNames, ArgSpec, attributes, kwargs);
      CopyAttributes(ArgSpec, kwargs);
      var key, v := Choose(api);
      if key.Some? {
        results := Facts.AddFact(results, key.value, v);
      }
    }
  }
}
