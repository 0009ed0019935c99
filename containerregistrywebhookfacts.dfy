/** azure_rm_containerregistrywebhook_facts: the facts of one webhook of a
    container registry. */
module ContainerRegistryWebhookFacts {
  import opened Values
  import Facts

  /** The keys of `module_arg_spec`; the lemmas hold for any order of visiting them. */
  const ArgSpec: seq<string> := ["resource_group", "registry_name", "webhook_name"]

  /** The options `__init__` declares as attributes: all of them. */
  const AttributeNames: set<string> := {"resource_group", "registry_name", "webhook_name"}

  /** The attribute dict of the module object; every declared attribute is
      always there. */
  type Attributes = m: Fields | AttributeNames <= m.Keys witness map k | k in AttributeNames :: Null

  /** The webhooks client. */
  datatype Api = Api(
    get: (Value, Value, Value) -> Reply<Fields>,
    listEvents: (Value, Value, Value) -> Reply<seq<Fields>>)

  /** The facts `exec_module` stores for the resource group `rg`, the
      registry `registry` and the webhook `name`: the if/elif chain, whose
      second arm repeats the test of the first. */
  function FactsFor(rg: Value, registry: Value, name: Value, api: Api): (facts: Fields)
    ensures facts.Keys <= {"get"}
  {
    if rg != Null && registry != Null && name != Null then map["get" := Observe(api.get(rg, registry, name))]
    else if rg != Null && registry != Null && name != Null then
      map["list_events" := Facts.ListResult(api.listEvents(rg, registry, name))]
    else map[]
  }

  /** With all three names `get` is filled; the `list_events` arm can never
      run, so `get` is the only fact that is ever set. */
  lemma Dispatch(rg: Value, registry: Value, name: Value, api: Api)
    ensures var f := FactsFor(rg, registry, name, api);
            (rg != Null && registry != Null && name != Null ==> f == map["get" := Observe(api.get(rg, registry, name))]) &&
            (rg == Null || registry == Null || name == Null ==> f == map[])
    ensures var f := FactsFor(rg, registry, name, api);
            "list_events" !in f && f.Keys <= {"get"}
  {
  }

  /** The module object `AzureRMWebhooksFacts`. */
  class Webhooks {
    var attributes: Attributes
    var results: Fields

    /** The state `__init__` leaves before `exec_module` runs. */
    ghost predicate Initial()
      reads this
    {
      attributes == (map k | k in AttributeNames :: Null) && results == Facts.InitialResults
    }

    constructor ()
      ensures Initial()
    {
      attributes := map k | k in AttributeNames :: Null;
      results := Facts.InitialResults;
    }

    /** `for key in self.module_arg_spec: setattr(self, key, kwargs[key])`: every
        key visited is a declared attribute, so the set of attributes stays
        the same. */
    method CopyAttributes(keys: seq<string>, kwargs: Fields)
      requires forall k <- keys :: k in AttributeNames && k in kwargs
      modifies this`attributes
      ensures attributes == SetAttributes(old(attributes), keys, kwargs)
    {
      ghost var attributes0 := attributes;
      var i := 0;
      while i < |keys|
        invariant 0 <= i <= |keys|
        invariant attributes == SetAttributes(attributes0, keys[..i], kwargs)
      {
        var key := keys[i];
        assert keys[..i + 1] == keys[..i] + [key];
        SetAttributesStep(attributes0, keys[..i], key, kwargs);
        attributes := attributes[key := kwargs[key]];
        i := i + 1;
      }
      assert keys[..i] == keys;
    }

    /** `get`: the webhook's dict, or False when the client raised. */
    method Get(api: Api) returns (r: Value)
      ensures r == Observe(api.get(attributes["resource_group"], attributes["registry_name"], attributes["webhook_name"]))
    {
      var response := api.get(attributes["resource_group"], attributes["registry_name"], attributes["webhook_name"]);
      r := Bool(false);
      if response.Returned? {
        r := Dict(response.value);
      }
    }

    method ListEvents(api: Api) returns (r: Value)
      ensures r == Facts.ListResult(api.listEvents(attributes["resource_group"], attributes["registry_name"],
                                                   attributes["webhook_name"]))
    {
      r := Facts.ShapeList(api.listEvents(attributes["resource_group"], attributes["registry_name"],
                                          attributes["webhook_name"]));
    }

    /** The if/elif chain of `exec_module`: the key of the fact the chosen
        arm fills, and its value. */
    method Choose(api: Api) returns (key: Option<string>, v: Value)
      ensures (if key.Some? then map[key.value := v] else map[]) ==
                FactsFor(attributes["resource_group"], attributes["registry_name"], attributes["webhook_name"], api)
    {
      var rg := attributes["resource_group"];
      var registry := attributes["registry_name"];
      var name := attributes["webhook_name"];
      key := None;
      v := Null;
      if rg != Null && registry != Null && name != Null {
        v := Get(api);
        key := Some("get");
      } else if rg != Null && registry != Null && name != Null {
        v := ListEvents(api);
        key := Some("list_events");
      }
    }

    /** `exec_module` with the webhooks client `api`. */
    method ExecModule(kwargs: Fields, api: Api)
      requires Initial()
      requires forall k <- ArgSpec :: k in kwargs
      modifies this
      ensures attributes == map k | k in AttributeNames :: kwargs[k]
      ensures results ==
                Facts.InitialResults["ansible_facts" :=
                  Dict(FactsFor(kwargs["resource_group"], kwargs["registry_name"], kwargs["webhook_name"], api))]
    {
      Facts.LoopSetsEveryAttribute(AttributeNames, ArgSpec, attributes, kwargs);
      CopyAttributes(ArgSpec, kwargs);
      var key, v := Choose(api);
      if key.Some? {
        results := Facts.AddFact(results, key.value, v);
      }
    }
  }
}
