/** azure_rm_postgresqlvirtualnetworkrule_facts: the facts of one virtual
    network rule of a PostgreSQL server, or of all rules of the server. */
module PostgreSqlVirtualNetworkRuleFacts {
  import opened Values
  import Facts

  /** The keys of `module_arg_spec`; the lemmas hold for any order of visiting them. */
  const ArgSpec: seq<string> := ["resource_group", "server_name", "virtual_network_rule_name"]

  /** The options `__init__` declares as attributes: all of them. */
  const AttributeNames: set<string> := {"resource_group", "server_name", "virtual_network_rule_name"}

  /** The attribute dict of the module object; every declared attribute is
      always there. */
  type Attributes = m: Fields | AttributeNames <= m.Keys witness map k | k in AttributeNames :: Null

  /** The virtual-network-rules client. */
  datatype Api = Api(
    get: (Value, Value, Value) -> Reply<Fields>,
    listByServer: (Value, Value) -> Reply<seq<Fields>>)

  /** The facts `exec_module` stores for the resource group `rg`, the server
      `server` and the rule name `name`. */
  function FactsFor(rg: Value, server: Value, name: Value, api: Api): (facts: Fields)
    ensures facts.Keys <= {"get", "list_by_server"}
  {
    if rg != Null && server != Null && name != Null then map["get" := Observe(api.get(rg, server, name))]
    else if rg != Null && server != Null then map["list_by_server" := Facts.ListResult(api.listByServer(rg, server))]
    else map[]
  }

  /** With a rule name only `get` is filled; without one, only
      `list_by_server`; at most one fact is set. */
  lemma Dispatch(rg: Value, server: Value, name: Value, api: Api)
    ensures var f := FactsFor(rg, server, name, api);
            (rg != Null && server != Null && name != Null ==> f == map["get" := Observe(api.get(rg, server, name))]) &&
            (rg != Null && server != Null && name == Null ==>
               f == map["list_by_server" := Facts.ListResult(api.listByServer(rg, server))]) &&
            (rg == Null || server == Null ==> f == map[])
    ensures var f := FactsFor(rg, server, name, api);
            f.Keys <= {"get", "list_by_server"} && |f.Keys| <= 1
  {
  }

  /** The module object `AzureRMVirtualNetworkRulesFacts`. */
  class Rules {
    var attributes: Attributes
    var results: Fields

    /** The state `__init__` leaves before `exec_module` runs. */
    ghost predicate Initial()
      reads this
    {
      attributes == (map k | k in AttributeNames :: Null) && results == Facts.InitialResults
    }

    constructor ()
      ensures Initial()
    {
      attributes := map k | k in AttributeNames :: Null;
      results := Facts.InitialResults;
    }

    /** `for key in self.module_arg_spec: setattr(self, key, kwargs[key])`: every
        key visited is a declared attribute, so the set of attributes stays
        the same. */
    method CopyAttributes(keys: seq<string>, kwargs: Fields)
      requires forall k <- keys :: k in AttributeNames && k in kwargs
      modifies this`attributes
      ensures attributes == SetAttributes(old(attributes), keys, kwargs)
    {
      ghost var attributes0 := attributes;
      var i := 0;
      while i < |keys|
        invariant 0 <= i <= |keys|
        invariant attributes == SetAttributes(attributes0, keys[..i], kwargs)
      {
        var key := keys[i];
        assert keys[..i + 1] == keys[..i] + [key];
        SetAttributesStep(attributes0, keys[..i], key, kwargs);
        attributes := attributes[key := kwargs[key]];
        i := i + 1;
      }
      assert keys[..i] == keys;
    }

    /** `get`: the rule's dict, or False when the client raised. */
    method Get(api: Api) returns (r: Value)
      ensures r == Observe(api.get(attributes["resource_group"], attributes["server_name"],
                                   attributes["virtual_network_rule_name"]))
    {
      var response := api.get(attributes["resource_group"], attributes["server_name"],
                              attributes["virtual_network_rule_name"]);
      r := Bool(false);
      if response.Returned? {
        r := Dict(response.value);
      }
    }

    method ListByServer(api: Api) returns (r: Value)
      ensures r == Facts.ListResult(api.listByServer(attributes["resource_group"], attributes["server_name"]))
    {
      r := Facts.ShapeList(api.listByServer(attributes["resource_group"], attributes["server_name"]));
    }

    /** The if/elif chain of `exec_module`: the key of the fact the chosen
        arm fills, and its value. */
    method Choose(api: Api) returns (key: Option<string>, v: Value)
      ensures (if key.Some? then map[key.value := v] else map[]) ==
                FactsFor(attributes["resource_group"], attributes["server_name"], attributes["virtual_network_rule_name"], api)
    {
      var rg := attributes["resource_group"];
      var server := attributes["server_name"];
      var name := attributes["virtual_network_rule_name"];
      key := None;
      v := Null;
      if rg != Null && server != Null && name != Null {
        v := Get(api);
        key := Some("get");
      } else if rg != Null && server != Null {
        v := ListByServer(api);
        key := Some("list_by_server");
      }
    }

    /** `exec_module` with the virtual-network-rules client `api`. */
    method ExecModule(kwargs: Fields, api: Api)
      requires Initial()
      requires forall k <- ArgSpec :: k in kwargs
      modifies this
      ensures attributes == map k | k in AttributeNames :: kwargs[k]
      ensures results ==
                Facts.InitialResults["ansible_facts" :=
                  Dict(FactsFor(kwargs["resource_group"], kwargs["server_name"], kwargs["virtual_network_rule_name"], api))]
    {
      Facts.LoopSetsEveryAttribute(AttributeNames, ArgSpec, attributes, kwargs);
      CopyAttributes(ArgSpec, kwargs);
      var key, v := Choose(api);
      if key.Some? {
        results := Facts.AddFact(results, key.value, v);
      }
    }
  }
}
