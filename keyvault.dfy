/** azure_rm_keyvault: create, update or delete one Key Vault. The location
    option stays at the top of the `parameters` payload, the nine vault
    options are nested, unchanged, under a `properties` dict that is created
    by the first of them that is not None, the location defaults to the
    resource group's, and the shared reconciler does the rest. */
module KeyVault {
  import opened Values
  import Reconciler

  /** The keys of `module_arg_spec`; the lemmas hold for any order of visiting them. */
  const ArgSpec: seq<string> := [
    "resource_group", "vault_name", "location", "tenant_id", "sku", "access_policies", "vault_uri",
    "enabled_for_deployment", "enabled_for_disk_encryption", "enabled_for_template_deployment",
    "enable_soft_delete", "create_mode", "state"]

  /** The options `__init__` declares as attributes. */
  const AttributeNames: set<string> := {"resource_group", "vault_name", "state"}

  /** The options stored under `parameters["properties"]`. */
  const PropertyKeys: set<string> := {
    "tenant_id", "sku", "access_policies", "vault_uri", "enabled_for_deployment",
    "enabled_for_disk_encryption", "enabled_for_template_deployment", "enable_soft_delete", "create_mode"}

  /** The fields of the response that `exec_module` reports. */
  const ResultFields: seq<string> := ["id"]

  /** The dict that `parameters.setdefault("properties", {})` hands back: the
      one stored so far, or a fresh empty one. */
  function Properties(parameters: Fields): (props: Fields)
    ensures "properties" !in parameters ==> props == map[]
    ensures "properties" in parameters && parameters["properties"].Dict? ==> props == parameters["properties"].entries
  {
    if "properties" in parameters && parameters["properties"].Dict? then parameters["properties"].entries
    else map[]
  }

  /** `parameters.setdefault("properties", {})[key] = v`. */
  function SetProperty(parameters: Fields, key: string, v: Value): (p: Fields)
    ensures p.Keys == parameters.Keys + {"properties"}
    ensures p["properties"] == Dict(Properties(parameters)[key := v])
    ensures forall k :: k in parameters && k != "properties" ==> p[k] == parameters[k]
  {
    parameters["properties" := Dict(Properties(parameters)[key := v])]
  }

  /** The `parameters` the option loop builds from the options `keys`, one
      option at a time; `NestOptionsLocation`, `NestOptionsHasProperties` and
      `NestOptionsPropertyEntries` state the result. */
  function NestOptions(keys: seq<string>, kwargs: Fields): (p: Fields)
    requires forall k <- keys :: k in kwargs
    ensures p.Keys <= {"location", "properties"}
    decreases |keys|, kwargs // see Values.SetAttributes
  {
    if keys == [] then map[]
    else
      var p := NestOptions(keys[..|keys| - 1], kwargs);
      var k := keys[|keys| - 1];
      if k in AttributeNames || kwargs[k] == Null then p
      else if k == "location" then p["location" := kwargs[k]]
      else if k in PropertyKeys then SetProperty(p, k, kwargs[k])
      else p
  }

  lemma NestOptionsStep(keys: seq<string>, k: string, kwargs: Fields)
    requires forall x <- keys + [k] :: x in kwargs
    ensures NestOptions(keys + [k], kwargs) ==
              if k in AttributeNames || kwargs[k] == Null then NestOptions(keys, kwargs)
              else if k == "location" then NestOptions(keys, kwargs)["location" := kwargs[k]]
              else if k in PropertyKeys then SetProperty(NestOptions(keys, kwargs), k, kwargs[k])
              else NestOptions(keys, kwargs)
  {
    assert (keys + [k])[..|keys|] == keys;
  }

  /** Whether some vault option among `keys` is not None. */
  predicate SomeProperty(keys: seq<string>, kwargs: Fields)
    requires forall k <- keys :: k in kwargs
  {
    exists k <- keys :: k in PropertyKeys && kwargs[k] != Null
  }

  /** Location stays top level and is copied when it is not None; nothing
      but `location` and `properties` is ever added. */
  lemma {:induction false} NestOptionsLocation(keys: seq<string>, kwargs: Fields)
    requires forall k <- keys :: k in kwargs
    ensures var p := NestOptions(keys, kwargs);
            p.Keys <= {"location", "properties"} &&
            ("location" in p <==> "location" in keys && kwargs["location"] != Null) &&
            ("location" in p ==> p["location"] == kwargs["location"])
    decreases |keys|
  {
    if keys != [] {
      var init := keys[..|keys| - 1];
      NestOptionsLocation(init, kwargs);
      assert forall x :: x in keys <==> x in init || x == keys[|keys| - 1];
    }
  }

  /** The `properties` dict exists exactly when some vault option is not
      None, and it is always a dict. */
  lemma {:induction false} NestOptionsHasProperties(keys: seq<string>, kwargs: Fields)
    requires forall k <- keys :: k in kwargs
    ensures var p := NestOptions(keys, kwargs);
            ("properties" in p <==> SomeProperty(keys, kwargs)) &&
            ("properties" in p ==> p["properties"].Dict?)
    decreases |keys|
  {
    if keys != [] {
      var init := keys[..|keys| - 1];
      var k := keys[|keys| - 1];
      NestOptionsHasProperties(init, kwargs);
      if SomeProperty(init, kwargs) {
        var w :| w in init && w in PropertyKeys && kwargs[w] != Null;
        assert w in keys;
      }
      if SomeProperty(keys, kwargs) {
        var w :| w in keys && w in PropertyKeys && kwargs[w] != Null;
        if w != k {
          assert w in init by {
            var j :| 0 <= j < |keys| && keys[j] == w;
            assert init[j] == w;
          }
        }
      }
    }
  }

  /** The `properties` dict holds exactly the vault options that are not
      None, unchanged. */
  lemma {:induction false} NestOptionsPropertyEntries(keys: seq<string>, kwargs: Fields)
    requires forall k <- keys :: k in kwargs
    ensures var p := NestOptions(keys, kwargs);
            var props := Properties(p);
            && (forall k :: k in props <==> k in keys && k in PropertyKeys && kwargs[k] != Null)
            && (forall k :: k in props ==> props[k] == kwargs[k])
    decreases |keys|
  {
    if keys != [] {
      var init := keys[..|keys| - 1];
      var k := keys[|keys| - 1];
      var p0 := NestOptions(init, kwargs);
      NestOptionsPropertyEntries(init, kwargs);
      NestOptionsHasProperties(init, kwargs);
      assert forall x :: x in keys <==> x in init || x == k;
      if k in AttributeNames || kwargs[k] == Null {
        assert NestOptions(keys, kwargs) == p0;
      } else if k == "location" {
        assert Properties(NestOptions(keys, kwargs)) == Properties(p0);
      } else if k in PropertyKeys {
        assert Properties(NestOptions(keys, kwargs)) == Properties(p0)[k := kwargs[k]];
      } else {
        assert NestOptions(keys, kwargs) == p0;
      }
    }
  }

  /** Over the whole argument spec, with the two ends of the nesting named. */
  lemma NestedParameters(kwargs: Fields)
    requires forall k <- ArgSpec :: k in kwargs
    ensures var p := NestOptions(ArgSpec, kwargs);
            ("location" in p <==> kwargs["location"] != Null) &&
            ("properties" in p <==> exists k <- PropertyKeys :: kwargs[k] != Null) &&
            (forall k <- PropertyKeys :: kwargs[k] != Null ==>
               "properties" in p && p["properties"].Dict? && k in p["properties"].entries &&
               p["properties"].entries[k] == kwargs[k])
  {
    NestOptionsLocation(ArgSpec, kwargs);
    NestOptionsHasProperties(ArgSpec, kwargs);
    NestOptionsPropertyEntries(ArgSpec, kwargs);
    assert "location" in ArgSpec;
    assert forall k <- PropertyKeys :: k in ArgSpec;
  }

  /** The dict `d` after `rename_key(d, old_name, new_name)`: when
      `d.get(old_name)` is not None its value moves to `new_name`; otherwise
      `d` is left as it is. */
  function Renamed(d: Fields, oldName: string, newName: string): (r: Fields)
    ensures oldName !in d || d[oldName] == Null ==> r == d
    ensures oldName in d && d[oldName] != Null ==>
              newName in r && r[newName] == d[oldName] && (oldName != newName ==> oldName !in r)
    ensures forall k :: k != oldName && k != newName ==> (k in r <==> k in d) && (k in r ==> r[k] == d[k])
  {
    if oldName in d && d[oldName] != Null then (d - {oldName})[newName := d[oldName]]
    else d
  }

  /** Renaming to a fresh key and back restores the dict. */
  lemma RenameRoundTrip(d: Fields, oldName: string, newName: string)
    requires oldName in d && d[oldName] != Null && newName !in d
    ensures Renamed(Renamed(d, oldName, newName), newName, oldName) == d
  {
  }

  /** A second rename of the same key finds nothing to move. */
  lemma RenameIdempotent(d: Fields, oldName: string, newName: string)
    ensures Renamed(Renamed(d, oldName, newName), oldName, newName) == Renamed(d, oldName, newName)
  {
  }

  /** get, create_or_update and delete are called with the resource group and
      the vault name; create_or_update also receives `parameters`. */
  function Requests(attributes: Fields, parameters: Fields): (req: Reconciler.Requests)
    requires "resource_group" in attributes && "vault_name" in attributes
    ensures req.get == req.delete == [attributes["resource_group"], attributes["vault_name"]]
    ensures req.write == req.get + [Dict(parameters)]
  {
    var ids := [attributes["resource_group"], attributes["vault_name"]];
    Reconciler.Requests(ids, ids + [Dict(parameters)], ids)
  }

  /** A Python dict object, which `rename_key` updates in place. */
  class MutableDict {
    var entries: Fields

    constructor (entries: Fields)
      ensures this.entries == entries
    {
      this.entries := entries;
    }
  }

  /** The module object `AzureRMVaults`. */
  class Vault {
    var attributes: Fields
    var parameters: Fields
    var results: Fields
    var toDo: Reconciler.Action
    const checkMode: bool

    /** The state `__init__` leaves before `exec_module` runs. */
    ghost predicate Initial()
      reads this
    {
      && attributes == (map k | k in AttributeNames :: Null)
      && parameters == map[]
      && results == Reconciler.InitialResults
      && toDo == Reconciler.NoAction
    }

    constructor (checkMode: bool)
      ensures Initial() && this.checkMode == checkMode
    {
      attributes := map k | k in AttributeNames :: Null;
      parameters := map[];
      results := Reconciler.InitialResults;
      toDo := Reconciler.NoAction;
      this.checkMode := checkMode;
    }

    /** The option loop at the head of `exec_module`, run over the option
        names `keys` (`ArgSpec`). */
    method CopyArguments(keys: seq<string>, kwargs: Fields)
      requires forall k <- keys :: k in kwargs
      requires attributes.Keys == AttributeNames && parameters == map[]
      modifies this`attributes, this`parameters
      ensures attributes.Keys == AttributeNames
      ensures attributes == SetAttributes(old(attributes), keys, kwargs)
      ensures parameters == NestOptions(keys, kwargs)
    {
      ghost var attributes0 := attributes;
      var i := 0;
      while i < |keys|
        invariant 0 <= i <= |keys|
        invariant attributes == SetAttributes(attributes0, keys[..i], kwargs)
        invariant parameters == NestOptions(keys[..i], kwargs)
      {
        var key := keys[i];
        assert keys[..i + 1] == keys[..i] + [key];
        SetAttributesStep(attributes0, keys[..i], key, kwargs);
        NestOptionsStep(keys[..i], key, kwargs);
        var present := key in attributes;
        assert present <==> key in AttributeNames;
        if present {
          attributes := attributes[key := kwargs[key]];
        } else if kwargs[key] != Null {
          if key == "location" {
            parameters := parameters["location" := kwargs[key]];
          } else if key in PropertyKeys {
            parameters := SetProperty(parameters, key, kwargs[key]);
          }
        }
        i := i + 1;
      }
      assert keys[..i] == keys;
    }

    /** `rename_key(d, old_name, new_name)`: pops `old_name` and stores its
        value under `new_name` when that value is not None. */
    method RenameKey(d: MutableDict, oldName: string, newName: string)
      modifies d
      ensures d.entries == Renamed(old(d.entries), oldName, newName)
    {
      var oldValue := if oldName in d.entries then d.entries[oldName] else Null;
      if oldValue != Null {
        d.entries := d.entries - {oldName};
        d.entries := d.entries[newName := oldValue];
      }
    }

    /** The first half of `exec_module`: the option loop and the default
        location. */
    method Prepare(kwargs: Fields, groupLocation: Value)
      requires attributes.Keys == AttributeNames && parameters == map[]
      requires forall k <- ArgSpec :: k in kwargs
      modifies this`attributes, this`parameters
      ensures attributes == SetAttributes(old(attributes), ArgSpec, kwargs)
      ensures parameters == Reconciler.WithDefaultLocation(NestOptions(ArgSpec, kwargs), groupLocation)
      ensures attributes.Keys == AttributeNames
    {
      CopyArguments(ArgSpec, kwargs);
      if "location" !in parameters {
        parameters := parameters["location" := groupLocation];
      }
    }

    /** The decision, the call and the results at the end of `exec_module`. */
    method Apply(client: Reconciler.Client) returns (status: Reconciler.Status)
      requires attributes.Keys == AttributeNames
      modifies this`toDo, this`results, client
      ensures var t := Reconciler.Reconcile(attributes["state"], checkMode, old(client.pending), client.writeReply,
                                            client.deleteRaises, Requests(attributes, parameters), ResultFields);
              toDo == t.toDo && results == t.results && status == t.status &&
              client.calls == old(client.calls) + t.calls && client.pending == t.remaining
    {
      toDo, results, status := Reconciler.Run(client, attributes["state"], checkMode, Requests(attributes, parameters), ResultFields);
    }

    /** `exec_module`: the management client is `client` and the resource
        group's location is `groupLocation`. */
    method ExecModule(kwargs: Fields, groupLocation: Value, client: Reconciler.Client) returns (status: Reconciler.Status)
      requires Initial()
      requires forall k <- ArgSpec :: k in kwargs
      modifies this, client
      ensures attributes == SetAttributes(old(attributes), ArgSpec, kwargs)
      ensures parameters == Reconciler.WithDefaultLocation(NestOptions(ArgSpec, kwargs), groupLocation)
      ensures attributes.Keys == AttributeNames
      ensures var t := Reconciler.Reconcile(attributes["state"], checkMode, old(client.pending), client.writeReply,
                                            client.deleteRaises, Requests(attributes, parameters), ResultFields);
              toDo == t.toDo && results == t.results && status == t.status &&
              client.calls == old(client.calls) + t.calls && client.pending == t.remaining
    {
      Prepare(kwargs, groupLocation);
      status := Apply(client);
    }
  }
}
