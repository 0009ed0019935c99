/** azure_rm_sqldatabase: create, update or delete one SQL database. The
    options are copied into a flat `parameters` payload, several choice values
    are translated from snake_case to the API's PascalCase names, the location
    defaults to the resource group's, and the shared reconciler does the rest. */
module SqlDatabase {
  import opened Values
  import Reconciler

  /** The keys of `module_arg_spec`; the lemmas hold for any order of visiting them. */
  const ArgSpec: seq<string> := [
    "resource_group", "server_name", "name", "location", "collation", "create_mode",
    "source_database_id", "source_database_deletion_date", "restore_point_in_time",
    "recovery_services_recovery_point_resource_id", "edition", "max_size_bytes",
    "requested_service_objective_id", "requested_service_objective_name", "elastic_pool_name",
    "read_scale", "sample_name", "zone_redundant", "state"]

  /** The options `__init__` declares as attributes, so that `hasattr` holds
      for them. */
  const AttributeNames: set<string> := {"resource_group", "server_name", "name", "state"}

  /** The options copied into `parameters` unchanged. */
  const VerbatimKeys: set<string> := {
    "location", "collation", "source_database_id", "source_database_deletion_date",
    "restore_point_in_time", "recovery_services_recovery_point_resource_id", "max_size_bytes",
    "requested_service_objective_id", "elastic_pool_name", "zone_redundant"}

  /** The fields of the response that `exec_module` reports. */
  const ResultFields: seq<string> := ["id", "database_id", "status"]

  const CreateModeChain: seq<(string, string)> := [
    ("copy", "Copy"), ("default", "Default"), ("non_readable_secondary", "NonReadableSecondary"),
    ("online_secondary", "OnlineSecondary"), ("point_in_time_restore", "PointInTimeRestore"),
    ("recovery", "Recovery"), ("restore", "Restore"),
    ("restore_long_term_retention_backup", "RestoreLongTermRetentionBackup")]

  const EditionChain: seq<(string, string)> := [
    ("web", "Web"), ("business", "Business"), ("basic", "Basic"), ("standard", "Standard"),
    ("premium", "Premium"), ("free", "Free"), ("stretch", "Stretch"),
    ("data_warehouse", "DataWarehouse"), ("system", "System"), ("system2", "System2")]

  const ObjectiveChain: seq<(string, string)> := [
    ("basic", "Basic"), ("s0", "S0"), ("s1", "S1"), ("s2", "S2"), ("s3", "S3"),
    ("p1", "P1"), ("p2", "P2"), ("p3", "P3"), ("p4", "P4"), ("p6", "P6"),
    ("p11", "P11"), ("p15", "P15"), ("system", "System"), ("system2", "System2"),
    ("elastic_pool", "ElasticPool")]

  const ReadScaleChain: seq<(string, string)> := [("enabled", "Enabled"), ("disabled", "Disabled")]

  const SampleNameChain: seq<(string, string)> := [("adventure_works_lt", "AdventureWorksLT")]

  /** Whether `v` is one of the choices a chain lists. */
  predicate Listed(chain: seq<(string, string)>, v: Value) {
    exists i :: 0 <= i < |chain| && v == Str(chain[i].0)
  }

  /** No two arms of a chain produce the same name. */
  predicate DistinctNames(chain: seq<(string, string)>) {
    forall i, j :: 0 <= i < j < |chain| ==> chain[i].1 != chain[j].1
  }

  /** An `if ev == c0: ev = n0 elif ev == c1: ev = n1 ...` chain without an
      `else`. Its meaning is stated by the lemmas that follow. */
  function Rewrite(chain: seq<(string, string)>, ev: Value): (r: Value)
    ensures r == ev || exists i :: 0 <= i < |chain| && r == Str(chain[i].1)
  {
    if chain == [] then ev
    else if ev == Str(chain[0].0) then Str(chain[0].1)
    else
      var r := Rewrite(chain[1..], ev);
      assert r != ev ==> exists i :: 0 <= i < |chain| && r == Str(chain[i].1) by {
        if r != ev {
          var i :| 0 <= i < |chain[1..]| && r == Str(chain[1..][i].1);
          assert chain[1..][i] == chain[i + 1];
        }
      }
      r
  }

  /** The first arm whose choice equals `ev` gives the new value. */
  lemma {:induction false} RewriteFirstMatch(chain: seq<(string, string)>, ev: Value, i: nat)
    requires i < |chain| && ev == Str(chain[i].0)
    requires forall j :: 0 <= j < i ==> Str(chain[j].0) != ev
    ensures Rewrite(chain, ev) == Str(chain[i].1)
  {
    if i > 0 {
      assert Str(chain[0].0) != ev;
      assert chain[1..][i - 1] == chain[i];
      forall j | 0 <= j < i - 1 ensures Str(chain[1..][j].0) != ev {
        assert chain[1..][j] == chain[j + 1];
      }
      RewriteFirstMatch(chain[1..], ev, i - 1);
    }
  }

  /** A value that no arm lists passes through unchanged, since no chain has
      an `else`. */
  lemma {:induction false} RewritePassesThrough(chain: seq<(string, string)>, ev: Value)
    requires !Listed(chain, ev)
    ensures Rewrite(chain, ev) == ev
  {
    if chain != [] {
      assert ev != Str(chain[0].0);
      forall i | 0 <= i < |chain[1..]| ensures ev != Str(chain[1..][i].0) {
        assert chain[1..][i] == chain[i + 1];
      }
      RewritePassesThrough(chain[1..], ev);
    }
  }

  /** A listed choice becomes the name of an arm that lists it. */
  lemma {:induction false} RewriteListed(chain: seq<(string, string)>, v: Value)
    requires Listed(chain, v)
    ensures exists i :: 0 <= i < |chain| && v == Str(chain[i].0) && Rewrite(chain, v) == Str(chain[i].1)
  {
    if v != Str(chain[0].0) {
      var k :| 0 <= k < |chain| && v == Str(chain[k].0);
      assert chain[1..][k - 1] == chain[k];
      RewriteListed(chain[1..], v);
      var i :| 0 <= i < |chain[1..]| && v == Str(chain[1..][i].0) && Rewrite(chain[1..], v) == Str(chain[1..][i].1);
      assert chain[1..][i] == chain[i + 1];
    } else {
      assert v == Str(chain[0].0) && Rewrite(chain, v) == Str(chain[0].1);
    }
  }

  /** When the arms produce distinct names, distinct listed choices get
      distinct names. */
  lemma RewriteInjective(chain: seq<(string, string)>, a: Value, b: Value)
    requires DistinctNames(chain) && Listed(chain, a) && Listed(chain, b) && a != b
    ensures Rewrite(chain, a) != Rewrite(chain, b)
  {
    RewriteListed(chain, a);
    RewriteListed(chain, b);
    var i :| 0 <= i < |chain| && a == Str(chain[i].0) && Rewrite(chain, a) == Str(chain[i].1);
    var j :| 0 <= j < |chain| && b == Str(chain[j].0) && Rewrite(chain, b) == Str(chain[j].1);
    assert i != j;
  }

  lemma ChainsHaveDistinctNames()
    ensures DistinctNames(CreateModeChain) && DistinctNames(EditionChain) && DistinctNames(ObjectiveChain)
    ensures DistinctNames(ReadScaleChain) && DistinctNames(SampleNameChain)
  {
  }

  /** A few of the translations, spelled out. */
  lemma SomeTranslations()
    ensures Rewrite(CreateModeChain, Str("non_readable_secondary")) == Str("NonReadableSecondary")
    ensures Rewrite(ObjectiveChain, Str("elastic_pool")) == Str("ElasticPool")
    ensures Rewrite(SampleNameChain, Str("adventure_works_lt")) == Str("AdventureWorksLT")
  {
    RewriteFirstMatch(CreateModeChain, Str("non_readable_secondary"), 2);
    RewriteFirstMatch(ObjectiveChain, Str("elastic_pool"), 14);
    RewriteFirstMatch(SampleNameChain, Str("adventure_works_lt"), 0);
  }

  /** The `elif key == ...` chain of the option loop: what is stored under
      `key` in `parameters` for the non-None value `v`, or None when no
      branch names `key`. */
  function ParameterFor(key: string, v: Value): (r: Option<Value>)
    ensures r.Some? <==> key in VerbatimKeys || key in {"create_mode", "edition", "requested_service_objective_name", "read_scale", "sample_name"}
    ensures key in VerbatimKeys ==> r == Some(v)
  {
    if key == "create_mode" then Some(Rewrite(CreateModeChain, v))
    else if key == "edition" then Some(Rewrite(EditionChain, v))
    else if key == "requested_service_objective_name" then Some(Rewrite(ObjectiveChain, v))
    else if key == "read_scale" then Some(Rewrite(ReadScaleChain, v))
    else if key == "sample_name" then Some(Rewrite(SampleNameChain, v))
    else if key in VerbatimKeys then Some(v)
    else None
  }

  /** The `parameters` the option loop builds from the options `keys`, one
      option at a time; `CopyOptionsMeaning` states the result. */
  function CopyOptions(keys: seq<string>, kwargs: Fields): (p: Fields)
    requires forall k <- keys :: k in kwargs
    ensures p.Keys !! AttributeNames
    decreases |keys|, kwargs // see SetAttributes
  {
    if keys == [] then map[]
    else
      var p := CopyOptions(keys[..|keys| - 1], kwargs);
      var k := keys[|keys| - 1];
      if k in AttributeNames || kwargs[k] == Null then p
      else
        match ParameterFor(k, kwargs[k])
        case Some(v) => p[k := v]
        case None => p
  }

  /** An option reaches `parameters` exactly when it is not an attribute, is
      not None and some branch names it; it is stored under its own key with
      the value that branch gives. */
  lemma {:induction false} CopyOptionsMeaning(keys: seq<string>, kwargs: Fields)
    requires forall k <- keys :: k in kwargs
    ensures var p := CopyOptions(keys, kwargs);
            forall k :: k in p <==> k in keys && k !in AttributeNames && kwargs[k] != Null && ParameterFor(k, kwargs[k]).Some?
    ensures var p := CopyOptions(keys, kwargs);
            forall k :: k in p ==> p[k] == ParameterFor(k, kwargs[k]).value
    decreases |keys|
  {
    if keys != [] {
      var init := keys[..|keys| - 1];
      CopyOptionsMeaning(init, kwargs);
      assert forall x :: x in keys <==> x in init || x == keys[|keys| - 1];
    }
  }

  lemma CopyOptionsStep(keys: seq<string>, k: string, kwargs: Fields)
    requires forall x <- keys + [k] :: x in kwargs
    ensures CopyOptions(keys + [k], kwargs) ==
              if k in AttributeNames || kwargs[k] == Null || ParameterFor(k, kwargs[k]).None? then CopyOptions(keys, kwargs)
              else CopyOptions(keys, kwargs)[k := ParameterFor(k, kwargs[k]).value]
  {
    assert (keys + [k])[..|keys|] == keys;
  }

  /** Over the whole argument spec: a None option never reaches `parameters`,
      every other non-attribute option does under its own key, the verbatim
      ones unchanged and the choice options translated. */
  lemma {:induction false} NormalizedParameters(kwargs: Fields)
    requires forall k <- ArgSpec :: k in kwargs
    ensures var p := CopyOptions(ArgSpec, kwargs);
            (forall k :: k in p <==> k in ArgSpec && k !in AttributeNames && kwargs[k] != Null) &&
            (forall k :: k in p && k in VerbatimKeys ==> p[k] == kwargs[k]) &&
            ("create_mode" in p ==> p["create_mode"] == Rewrite(CreateModeChain, kwargs["create_mode"])) &&
            ("edition" in p ==> p["edition"] == Rewrite(EditionChain, kwargs["edition"])) &&
            ("requested_service_objective_name" in p ==>
               p["requested_service_objective_name"] == Rewrite(ObjectiveChain, kwargs["requested_service_objective_name"])) &&
            ("read_scale" in p ==> p["read_scale"] == Rewrite(ReadScaleChain, kwargs["read_scale"])) &&
            ("sample_name" in p ==> p["sample_name"] == Rewrite(SampleNameChain, kwargs["sample_name"]))
  {
    CopyOptionsMeaning(ArgSpec, kwargs);
    forall k | k in ArgSpec && k !in AttributeNames
      ensures ParameterFor(k, kwargs[k]).Some?
    {
    }
  }

  /** The payload sent to create_or_update carries the supplied location, or
      the resource group's when none was supplied. */
  lemma PayloadLocation(kwargs: Fields, groupLocation: Value)
    requires forall k <- ArgSpec :: k in kwargs
    ensures var p := Reconciler.WithDefaultLocation(CopyOptions(ArgSpec, kwargs), groupLocation);
            p["location"] == if kwargs["location"] == Null then groupLocation else kwargs["location"]
  {
    CopyOptionsMeaning(ArgSpec, kwargs);
    assert "location" in ArgSpec;
  }

  /** get, create_or_update and delete are called with the resource group,
      the server name and the database name; create_or_update also receives
      `parameters`. */
  function Requests(attributes: Fields, parameters: Fields): (req: Reconciler.Requests)
    requires "resource_group" in attributes && "server_name" in attributes && "name" in attributes
    ensures req.get == req.delete == [attributes["resource_group"], attributes["server_name"], attributes["name"]]
    ensures req.write == req.get + [Dict(parameters)]
  {
    var ids := [attributes["resource_group"], attributes["server_name"], attributes["name"]];
    Reconciler.Requests(ids, ids + [Dict(parameters)], ids)
  }

  /** The module object `AzureRMDatabases`. */
  class Database {
    var attributes: Fields
    var parameters: Fields
    var results: Fields
    var toDo: Reconciler.Action
    const checkMode: bool

    /** The state `__init__` leaves before `exec_module` runs. */
    ghost predicate Initial()
      reads this
    {
      && attributes == (map k | k in AttributeNames :: Null)
      && parameters == map[]
      && results == Reconciler.InitialResults
      && toDo == Reconciler.NoAction
    }

    constructor (checkMode: bool)
      ensures Initial() && this.checkMode == checkMode
    {
      attributes := map k | k in AttributeNames :: Null;
      parameters := map[];
      results := Reconciler.InitialResults;
      toDo := Reconciler.NoAction;
      this.checkMode := checkMode;
    }

    /** The option loop at the head of `exec_module`, run over the option
        names `keys` (`ArgSpec`): options that are attributes are set on the
        object, the others go into `parameters`. */
    method CopyArguments(keys: seq<string>, kwargs: Fields)
      requires forall k <- keys :: k in kwargs
      requires attributes.Keys == AttributeNames && parameters == map[]
      modifies this`attributes, this`parameters
      ensures attributes == SetAttributes(old(attributes), keys, kwargs)
      ensures parameters == CopyOptions(keys, kwargs)
    {
      ghost var attributes0 := attributes;
      var i := 0;
      while i < |keys|
        invariant 0 <= i <= |keys|
        invariant attributes == SetAttributes(attributes0, keys[..i], kwargs)
        invariant parameters == CopyOptions(keys[..i], kwargs)
      {
        var key := keys[i];
        assert keys[..i + 1] == keys[..i] + [key];
        SetAttributesStep(attributes0, keys[..i], key, kwargs);
        CopyOptionsStep(keys[..i], key, kwargs);
        var present := key in attributes;
        assert present <==> key in AttributeNames;
        if present {
          attributes := attributes[key := kwargs[key]];
        } else if kwargs[key] != Null {
          match ParameterFor(key, kwargs[key])
          case Some(v) =>
            parameters := parameters[key := v];
          case None =>
        }
        i := i + 1;
      }
      assert keys[..i] == keys;
    }

    /** The decision, the call and the results at the end of `exec_module`,
        once the options are in place. */
    method Apply(client: Reconciler.Client) returns (status: Reconciler.Status)
      requires attributes.Keys == AttributeNames
      modifies this`toDo, this`results, client
      ensures var t := Reconciler.Reconcile(attributes["state"], checkMode, old(client.pending), client.writeReply,
                                            client.deleteRaises, Requests(attributes, parameters), ResultFields);
              toDo == t.toDo && results == t.results && status == t.status &&
              client.calls == old(client.calls) + t.calls && client.pending == t.remaining
    {
      toDo, results, status := Reconciler.Run(client, attributes["state"], checkMode, Requests(attributes, parameters), ResultFields);
    }

    /** The first half of `exec_module`: the option loop and the default
        location. */
    method Prepare(kwargs: Fields, groupLocation: Value)
      requires attributes.Keys == AttributeNames && parameters == map[]
      requires forall k <- ArgSpec :: k in kwargs
      modifies this`attributes, this`parameters
      ensures attributes == SetAttributes(old(attributes), ArgSpec, kwargs)
      ensures parameters == Reconciler.WithDefaultLocation(CopyOptions(ArgSpec, kwargs), groupLocation)
      ensures attributes.Keys == AttributeNames
    {
      CopyArguments(ArgSpec, kwargs);
      if "location" !in parameters {
        parameters := parameters["location" := groupLocation];
      }
    }

    /** `exec_module`: the management client is `client` and the resource
        group's location is `groupLocation`. */
    method ExecModule(kwargs: Fields, groupLocation: Value, client: Reconciler.Client) returns (status: Reconciler.Status)
      requires Initial()
      requires forall k <- ArgSpec :: k in kwargs
      modifies this, client
      ensures attributes == SetAttributes(old(attributes), ArgSpec, kwargs)
      ensures parameters == Reconciler.WithDefaultLocation(CopyOptions(ArgSpec, kwargs), groupLocation)
      ensures attributes.Keys == AttributeNames
      ensures var t := Reconciler.Reconcile(attributes["state"], checkMode, old(client.pending), client.writeReply,
                                            client.deleteRaises, Requests(attributes, parameters), ResultFields);
              toDo == t.toDo && results == t.results && status == t.status &&
              client.calls == old(client.calls) + t.calls && client.pending == t.remaining
    {
      Prepare(kwargs, groupLocation);
      status := Apply(client);
    }
  }
}
