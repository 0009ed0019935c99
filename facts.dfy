/** What the read-only facts modules share: the results dict they start
    from, how one fact is stored in it, and how a client reply becomes the
    value of a fact. */
module Facts {
  import opened Values

  /** `dict(changed=False, ansible_facts=dict())`. */
  const InitialResults: Fields := map["changed" := Bool(false), "ansible_facts" := Dict(map[])]

  /** The `ansible_facts` dict inside a results dict. */
  function FactsOf(results: Fields): (facts: Fields)
    ensures "ansible_facts" in results && results["ansible_facts"].Dict? ==> facts == results["ansible_facts"].entries
  {
    if "ansible_facts" in results && results["ansible_facts"].Dict? then results["ansible_facts"].entries else map[]
  }

  /** `self.results['ansible_facts'][key] = v`. */
  function AddFact(results: Fields, key: string, v: Value): (r: Fields)
    ensures r.Keys == results.Keys + {"ansible_facts"}
    ensures r["ansible_facts"] == Dict(FactsOf(results)[key := v])
    ensures forall k :: k in results && k != "ansible_facts" ==> r[k] == results[k]
  {
    results["ansible_facts" := Dict(FactsOf(results)[key := v])]
  }

  /** Storing one fact into the initial results keeps `changed` False and
      leaves that fact alone in `ansible_facts`. */
  lemma AddFactToInitial(key: string, v: Value)
    ensures AddFact(InitialResults, key, v) == InitialResults["ansible_facts" := Dict(map[key := v])]
    ensures AddFact(InitialResults, key, v)["changed"] == Bool(false)
  {
  }

  /** After `for key in self.module_arg_spec: setattr(self, key, kwargs[key])`
      over option names `keys` that are exactly the declared attributes
      `names`, every attribute holds its option. */
  lemma LoopSetsEveryAttribute(names: set<string>, keys: seq<string>, attrs: Fields, kwargs: Fields)
    requires attrs.Keys == names
    requires forall k <- keys :: k in kwargs
    requires forall k <- names :: k in keys
    ensures SetAttributes(attrs, keys, kwargs) == map k | k in names :: kwargs[k]
  {
    SetAttributesMeaning(attrs, keys, kwargs);
  }

  /** The dicts of a sequence of items, in order. */
  function Dicts(items: seq<Fields>): (ds: seq<Value>)
    ensures |ds| == |items| && forall i :: 0 <= i < |items| ==> ds[i] == Dict(items[i])
  {
    seq(|items|, i requires 0 <= i < |items| => Dict(items[i]))
  }

  /** What a `list_*` helper returns for one client reply: False when the
      client raised, otherwise the list of the items' dicts in the order the
      client gave them. */
  function ListResult(r: Reply<seq<Fields>>): (v: Value)
    ensures r.Raised? ==> v == Bool(false)
    ensures r.Returned? ==> v.List? && |v.items| == |r.value| &&
                            forall i :: 0 <= i < |r.value| ==> v.items[i] == Dict(r.value[i])
  {
    match r
    case Raised => Bool(false)
    case Returned(items) => List(Dicts(items))
  }

  /** Distinct successful replies give distinct lists: the items and their
      order can be read back from the fact. */
  lemma ListResultInjective(a: seq<Fields>, b: seq<Fields>)
    requires ListResult(Returned(a)) == ListResult(Returned(b))
    ensures a == b
  {
  }

  /** The body of every `list_*` helper once the client has answered:
      `results = False`, and when a response came back, `results = []`
      followed by one `results.append(item.as_dict())` per item. */
  method ShapeList(reply: Reply<seq<Fields>>) returns (results: Value)
    ensures results == ListResult(reply)
  {
    results := Bool(false);
    if reply.Returned? {
      var items := reply.value;
      var collected: seq<Value> := [];
      var i := 0;
      while i < |items|
        invariant 0 <= i <= |items|
        invariant collected == Dicts(items[..i])
      {
        collected := collected + [Dict(items[i])];
        i := i + 1;
      }
      assert items[..i] == items;
      results := List(collected);
    }
  }
}
