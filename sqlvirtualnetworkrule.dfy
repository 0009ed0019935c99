/** azure_rm_sqlvirtualnetworkrule: create, update or delete one virtual
    network rule of an SQL server. The options are only copied onto the
    module object; no payload dict is built, and create_or_update receives
    four positional values. The shared reconciler does the rest. */
module SqlVirtualNetworkRule {
  import opened Values
  import Reconciler

  /** The keys of `module_arg_spec`; the lemmas hold for any order of visiting them. */
  const ArgSpec: seq<string> := [
    "resource_group", "server_name", "virtual_network_rule_name", "virtual_network_subnet_id",
    "ignore_missing_vnet_service_endpoint", "state"]

  /** The keys the attribute loop visits: the argument spec and then 'tags'. */
  const LoopKeys: seq<string> := ArgSpec + ["tags"]

  /** The options `__init__` declares as attributes. */
  const AttributeNames: set<string> := {
    "resource_group", "server_name", "virtual_network_rule_name", "virtual_network_subnet_id",
    "ignore_missing_vnet_service_endpoint", "state"}

  /** The fields of the response that `exec_module` reports. */
  const ResultFields: seq<string> := ["id", "state"]

  /** get and delete are called with the resource group, the server name and
      the rule name; create_or_update receives exactly those three and then
      the subnet id, in this order. */
  function Requests(attributes: Fields): (req: Reconciler.Requests)
    requires AttributeNames <= attributes.Keys
    ensures req.get == req.delete ==
              [attributes["resource_group"], attributes["server_name"], attributes["virtual_network_rule_name"]]
    ensures req.write == req.get + [attributes["virtual_network_subnet_id"]]
  {
    var ids := [attributes["resource_group"], attributes["server_name"], attributes["virtual_network_rule_name"]];
    Reconciler.Requests(ids, ids + [attributes["virtual_network_subnet_id"]], ids)
  }

  /** The calls depend on the resource group, server, rule name and subnet id
      alone: `ignore_missing_vnet_service_endpoint` and `state` are never sent. */
  lemma RequestsIgnoreOtherAttributes(a: Fields, b: Fields)
    requires AttributeNames <= a.Keys && AttributeNames <= b.Keys
    requires a["resource_group"] == b["resource_group"] && a["server_name"] == b["server_name"]
    requires a["virtual_network_rule_name"] == b["virtual_network_rule_name"]
    requires a["virtual_network_subnet_id"] == b["virtual_network_subnet_id"]
    ensures Requests(a) == Requests(b)
  {
  }

  /** After the attribute loop every declared attribute holds its option and
      no attribute is added, whatever 'tags' holds. */
  lemma LoopSetsEveryAttribute(attrs: Fields, kwargs: Fields)
    requires attrs.Keys == AttributeNames
    requires forall k <- LoopKeys :: k in AttributeNames ==> k in kwargs
    ensures var r := SetAttributes(attrs, LoopKeys, kwargs);
            r.Keys == AttributeNames && forall k <- AttributeNames :: r[k] == kwargs[k]
  {
    SetAttributesMeaning(attrs, LoopKeys, kwargs);
    assert forall k <- AttributeNames :: k in LoopKeys;
  }

  /** The module object `AzureRMVirtualNetworkRules`. */
  class Rule {
    var attributes: Fields
    var results: Fields
    var toDo: Reconciler.Action
    const checkMode: bool

    /** The state `__init__` leaves before `exec_module` runs. */
    ghost predicate Initial()
      reads this
    {
      && attributes == (map k | k in AttributeNames :: Null)
      && results == Reconciler.InitialResults
      && toDo == Reconciler.NoAction
    }

    constructor (checkMode: bool)
      ensures Initial() && this.checkMode == checkMode
    {
      attributes := map k | k in AttributeNames :: Null;
      results := Reconciler.InitialResults;
      toDo := Reconciler.NoAction;
      this.checkMode := checkMode;
    }

    /** `for key in keys: if hasattr(self, key): setattr(self, key, kwargs[key])`. */
    method CopyAttributes(keys: seq<string>, kwargs: Fields)
      requires attributes.Keys == AttributeNames
      requires forall k <- keys :: k in AttributeNames ==> k in kwargs
      modifies this`attributes
      ensures attributes.Keys == AttributeNames
      ensures attributes == SetAttributes(old(attributes), keys, kwargs)
    {
      ghost var attributes0 := attributes;
      var i := 0;
      while i < |keys|
        invariant 0 <= i <= |keys|
        invariant attributes == SetAttributes(attributes0, keys[..i], kwargs)
      {
        var key := keys[i];
        assert keys[..i + 1] == keys[..i] + [key];
        SetAttributesStep(attributes0, keys[..i], key, kwargs);
        if key in attributes {
          attributes := attributes[key := kwargs[key]];
        }
        i := i + 1;
      }
      assert keys[..i] == keys;
    }

    /** The decision, the call and the results at the end of `exec_module`. */
    method Apply(client: Reconciler.Client) returns (status: Reconciler.Status)
      requires attributes.Keys == AttributeNames
      modifies this`toDo, this`results, client
      ensures var t := Reconciler.Reconcile(attributes["state"], checkMode, old(client.pending), client.writeReply,
                                            client.deleteRaises, Requests(attributes), ResultFields);
              toDo == t.toDo && results == t.results && status == t.status &&
              client.calls == old(client.calls) + t.calls && client.pending == t.remaining
    {
      toDo, results, status := Reconciler.Run(client, attributes["state"], checkMode, Requests(attributes), ResultFields);
    }

    /** `exec_module` with the management client `client`. The resource
        group is looked up but its result is not used. */
    method ExecModule(kwargs: Fields, client: Reconciler.Client) returns (status: Reconciler.Status)
      requires Initial()
      requires forall k <- LoopKeys :: k in AttributeNames ==> k in kwargs
      modifies this, client
      ensures attributes.Keys == AttributeNames
      ensures attributes == SetAttributes(old(attributes), LoopKeys, kwargs)
      ensures var t := Reconciler.Reconcile(attributes["state"], checkMode, old(client.pending), client.writeReply,
                                            client.deleteRaises, Requests(attributes), ResultFields);
              toDo == t.toDo && results == t.results && status == t.status &&
              client.calls == old(client.calls) + t.calls && client.pending == t.remaining
    {
      CopyAttributes(LoopKeys, kwargs);
      status := Apply(client);
    }
  }
}
