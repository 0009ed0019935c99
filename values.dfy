/** Python values as the modules handle them: module options, request
    payloads and the `as_dict()` form of management-API models. */
module Values {

  datatype Option<+T> = None | Some(value: T)

  /** A Python value: None, a scalar, a list or a dict with string keys. */
  datatype Value =
    | Null
    | Bool(b: bool)
    | Int(i: int)
    | Str(s: string)
    | List(items: seq<Value>)
    | Dict(entries: map<string, Value>)

  /** A dict with string keys, such as `kwargs`, `self.parameters` or the
      `as_dict()` of a model object returned by the management client. */
  type Fields = map<string, Value>

  /** Python truthiness, as used by `if response:` and `if not old_response:`. */
  predicate Truthy(v: Value) {
    match v
    case Null => false
    case Bool(b) => b
    case Int(i) => i != 0
    case Str(s) => s != ""
    case List(items) => items != []
    case Dict(entries) => entries != map[]
  }

  /** A call into the management client either returns a value or raises
      `CloudError`; the text of the error is not modelled. */
  datatype Reply<+T> = Raised | Returned(value: T)

  /** What a `get` helper returns for one client reply: the `as_dict()` of
      the resource, or False whenever the client raised. This is the shape of
      `get_sqldatabase`, `get_keyvault`, `get_virtualnetworkrules` and of the
      `get` of every facts module. */
  function Observe(r: Reply<Fields>): (v: Value)
    ensures r.Raised? ==> v == Bool(false)
    ensures r.Returned? ==> v.Dict? && v.entries == r.value
    ensures Truthy(v) <==> r.Returned? && r.value != map[]
  {
    match r
    case Raised => Bool(false)
    case Returned(m) => Dict(m)
  }

  /** The attribute loop `for key in keys: if hasattr(self, key):
      setattr(self, key, kwargs[key])`, over the attribute dict `attrs` of the
      module object. No attribute is added; what the others receive is stated
      by `SetAttributesMeaning`. */
  function SetAttributes(attrs: Fields, keys: seq<string>, kwargs: Fields): (r: Fields)
    requires forall k <- keys :: k in attrs ==> k in kwargs
    ensures r.Keys == attrs.Keys
    // `kwargs` is part of the measure so that the verifier unfolds the
    // definition on a literal key list only when the options are known too.
    decreases |keys|, kwargs
  {
    if keys == [] then attrs
    else
      var r := SetAttributes(attrs, keys[..|keys| - 1], kwargs);
      var k := keys[|keys| - 1];
      if k in r then r[k := kwargs[k]] else r
  }

  /** An attribute named in `keys` takes its option's value; every other
      attribute keeps its own. */
  lemma {:induction false} SetAttributesMeaning(attrs: Fields, keys: seq<string>, kwargs: Fields)
    requires forall k <- keys :: k in attrs ==> k in kwargs
    ensures forall k :: k in attrs && k in keys ==> SetAttributes(attrs, keys, kwargs)[k] == kwargs[k]
    ensures forall k :: k in attrs && k !in keys ==> SetAttributes(attrs, keys, kwargs)[k] == attrs[k]
    decreases |keys|
  {
    if keys != [] {
      var init := keys[..|keys| - 1];
      SetAttributesMeaning(attrs, init, kwargs);
      assert forall x :: x in keys <==> x in init || x == keys[|keys| - 1];
    }
  }

  lemma SetAttributesStep(attrs: Fields, keys: seq<string>, k: string, kwargs: Fields)
    requires forall x <- keys + [k] :: x in attrs ==> x in kwargs
    ensures SetAttributes(attrs, keys + [k], kwargs) ==
              if k in attrs then SetAttributes(attrs, keys, kwargs)[k := kwargs[k]] else SetAttributes(attrs, keys, kwargs)
  {
    assert (keys + [k])[..|keys|] == keys;
  }
}
