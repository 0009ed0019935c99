/** The "observe, decide, act" sequence that the SQL database, Key Vault and
    SQL virtual-network-rule modules share: read the resource, choose one of
    four actions from its presence and the desired `state`, call
    create_or_update or delete (or, in check mode, nothing), poll after a
    delete until the resource is gone, and report `changed` plus the fields of
    the resulting resource. */
module Reconciler {
  import opened Values

  /** `class Actions: NoAction, Create, Update, Delete = range(4)`. */
  datatype Action = NoAction | Create | Update | Delete

  /** The if/else chain that sets `self.to_do` from whether the first `get`
      found the resource and from `self.state`. The framework restricts
      `state` to "present" and "absent"; for any other value the chain falls
      through, which the last clause records. */
  function Decide(found: bool, state: Value): (a: Action)
    ensures state == Str("absent") ==> a == (if found then Delete else NoAction)
    ensures state == Str("present") ==> a == (if found then Update else Create)
    ensures state != Str("absent") && state != Str("present") ==> a == (if found then NoAction else Create)
  {
    if !found then
      (if state == Str("absent") then NoAction else Create)
    else if state == Str("absent") then Delete
    else if state == Str("present") then Update
    else NoAction
  }

  /** Whether the resource exists once action `a` has been carried out on a
      resource whose existence was `found`. */
  function ExistsAfter(a: Action, found: bool): (after: bool) {
    match a
    case NoAction => found
    case Create => true
    case Update => true
    case Delete => false
  }

  /** The chosen action converges the resource to the desired state, and the
      module touches the remote resource unless it is already absent and
      desired absent. */
  lemma DecisionConverges(found: bool, state: Value)
    requires state == Str("present") || state == Str("absent")
    ensures ExistsAfter(Decide(found, state), found) <==> state == Str("present")
    ensures Decide(found, state) == NoAction <==> !found && state == Str("absent")
  {
  }

  /** `if "location" not in self.parameters: self.parameters["location"] =
      resource_group.location`, done before the first `get`. */
  function WithDefaultLocation(parameters: Fields, groupLocation: Value): (p: Fields)
    ensures p.Keys == parameters.Keys + {"location"}
    ensures "location" in parameters ==> p == parameters
    ensures "location" !in parameters ==> p["location"] == groupLocation
    ensures forall k :: k in parameters ==> p[k] == parameters[k]
  {
    if "location" in parameters then parameters else parameters["location" := groupLocation]
  }

  datatype Op = GetOp | CreateOrUpdateOp | DeleteOp

  /** One call made on the management client, with its arguments in order. */
  datatype Call = Call(op: Op, args: seq<Value>)

  /** The arguments a module passes to get, create_or_update and delete. */
  datatype Requests = Requests(get: seq<Value>, write: seq<Value>, delete: seq<Value>)

  /** The management client as an oracle. `pending` holds the replies that
      successive `get` calls will receive; when it runs out the model stops
      (the remote's answers beyond it are not given). `writeReply` is the
      outcome of create_or_update once its long-running operation completed.
      `calls` records every call in order. */
  class Client {
    var pending: seq<Reply<Fields>>
    const writeReply: Reply<Fields>
    const deleteRaises: bool
    var calls: seq<Call>

    constructor (gets: seq<Reply<Fields>>, writeReply: Reply<Fields>, deleteRaises: bool)
      ensures pending == gets && this.writeReply == writeReply && this.deleteRaises == deleteRaises
      ensures calls == []
    {
      pending := gets;
      this.writeReply := writeReply;
      this.deleteRaises := deleteRaises;
      calls := [];
    }

    /** `get`: the next pending reply, or None when the horizon is reached. */
    method Get(args: seq<Value>) returns (r: Option<Reply<Fields>>)
      modifies this`pending, this`calls
      ensures calls == old(calls) + [Call(GetOp, args)]
      ensures old(pending) == [] ==> r == None && pending == []
      ensures old(pending) != [] ==> r == Some(old(pending)[0]) && pending == old(pending)[1..]
    {
      calls := calls + [Call(GetOp, args)];
      if pending == [] {
        r := None;
      } else {
        r := Some(pending[0]);
        pending := pending[1..];
      }
    }

    method CreateOrUpdate(args: seq<Value>) returns (r: Reply<Fields>)
      modifies this`calls
      ensures calls == old(calls) + [Call(CreateOrUpdateOp, args)]
      ensures r == writeReply
    {
      calls := calls + [Call(CreateOrUpdateOp, args)];
      r := writeReply;
    }

    method Delete(args: seq<Value>) returns (raised: bool)
      modifies this`calls
      ensures calls == old(calls) + [Call(DeleteOp, args)]
      ensures raised == deleteRaises
    {
      calls := calls + [Call(DeleteOp, args)];
      raised := deleteRaises;
    }
  }

  /** Whether a reply to `get` reports the resource as present. */
  predicate Present(r: Reply<Fields>) {
    Truthy(Observe(r))
  }

  /** How the post-delete poll `while self.get_x(): time.sleep(20)` ends on a
      sequence of replies: the resource is reported gone on poll number
      `polls`, or the replies run out first. */
  datatype PollEnd = Gone(polls: nat) | Horizon

  function Poll(gets: seq<Reply<Fields>>): (p: PollEnd)
    ensures p.Gone? ==> 0 < p.polls <= |gets| && !Present(gets[p.polls - 1])
    ensures p.Gone? ==> forall j :: 0 <= j < p.polls - 1 ==> Present(gets[j])
    ensures p.Horizon? ==> forall j :: 0 <= j < |gets| ==> Present(gets[j])
  {
    if gets == [] then Horizon
    else if !Present(gets[0]) then Gone(1)
    else
      match Poll(gets[1..])
      case Gone(k) => Gone(k + 1)
      case Horizon => Horizon
  }

  /** The end of a poll begun `n` polls ago. */
  function Shift(p: PollEnd, n: nat): (q: PollEnd) {
    match p
    case Gone(k) => Gone(k + n)
    case Horizon => Horizon
  }

  /** `if response: self.results[f] = response[f]` for each result field `f`:
      the fields are copied out only when there is a response, and a missing
      field raises KeyError (None here). */
  function Report(results: Fields, response: Value, fields: seq<string>): (r: Option<Fields>)
    ensures !Truthy(response) ==> r == Some(results)
    ensures Truthy(response) ==> (r.Some? <==> response.Dict? && forall f <- fields :: f in response.entries)
    ensures r.Some? && Truthy(response) ==>
              r.value.Keys == results.Keys + (set f <- fields) &&
              (forall f <- fields :: r.value[f] == response.entries[f]) &&
              (forall k :: k in results && k !in fields ==> r.value[k] == results[k])
  {
    if !Truthy(response) then Some(results)
    else if response.Dict? && forall f <- fields :: f in response.entries then
      Some(results + map f | f in fields :: response.entries[f])
    else None
  }

  /** How one run ended: the module returned its results, it failed
      (`self.fail` or an uncaught KeyError), or it was still polling when the
      replies ran out. */
  datatype Status = Exited | Failed | Unfinished

  /** The observable effect of one run: the decided action, the results dict,
      how the run ended, the calls made, and the `get` replies left unused. */
  datatype Trace = Trace(toDo: Action, results: Fields, status: Status, calls: seq<Call>, remaining: seq<Reply<Fields>>)

  function Repeat(c: Call, n: nat): (s: seq<Call>)
    ensures |s| == n && forall i :: 0 <= i < n ==> s[i] == c
  {
    seq(n, _ => c)
  }

  const InitialResults: Fields := map["changed" := Bool(false)]

  function Finish(toDo: Action, results: Fields, response: Value, fields: seq<string>,
                  calls: seq<Call>, remaining: seq<Reply<Fields>>): (t: Trace)
    ensures t.toDo == toDo && t.calls == calls && t.remaining == remaining && t.status != Unfinished
  {
    match Report(results, response, fields)
    case Some(r) => Trace(toDo, r, Exited, calls, remaining)
    case None => Trace(toDo, results, Failed, calls, remaining)
  }

  /** A create or update after the first `get` found `prior`: in check mode
      nothing is called; otherwise create_or_update is called once and
      `changed` compares `prior` with the new resource. */
  function WriteTrace(toDo: Action, checkMode: bool, prior: Value, writeReply: Reply<Fields>,
                      req: Requests, fields: seq<string>, rest: seq<Reply<Fields>>): (t: Trace)
    ensures t.toDo == toDo && t.remaining == rest && t.status != Unfinished
    ensures t.calls == if checkMode then [] else [Call(CreateOrUpdateOp, req.write)]
  {
    if checkMode then Trace(toDo, InitialResults["changed" := Bool(true)], Exited, [], rest)
    else
      var writeCall := Call(CreateOrUpdateOp, req.write);
      match writeReply
      case Raised => Trace(toDo, InitialResults, Failed, [writeCall], rest)
      case Returned(m) =>
        var response := Dict(m);
        var changed := if !Truthy(prior) then true else prior != response;
        Finish(toDo, InitialResults["changed" := Bool(changed)], response, fields, [writeCall], rest)
  }

  /** A delete after the first `get` found the resource: in check mode nothing
      is called; otherwise delete is called once and `get` is polled. No
      response remains, so no resource field is reported. */
  function DeleteTrace(checkMode: bool, deleteRaises: bool, req: Requests, rest: seq<Reply<Fields>>): (t: Trace)
    ensures t.toDo == Delete && t.results == InitialResults["changed" := Bool(true)]
    ensures checkMode ==> t.calls == [] && t.status == Exited
    ensures !checkMode ==> t.calls != [] && t.calls[0] == Call(DeleteOp, req.delete)
    ensures |t.remaining| <= |rest|
  {
    var results := InitialResults["changed" := Bool(true)];
    var getCall := Call(GetOp, req.get);
    var deleteCall := Call(DeleteOp, req.delete);
    if checkMode then Trace(Delete, results, Exited, [], rest)
    else if deleteRaises then Trace(Delete, results, Failed, [deleteCall], rest)
    else
      match Poll(rest)
      case Gone(k) => Trace(Delete, results, Exited, [deleteCall] + Repeat(getCall, k), rest[k..])
      case Horizon => Trace(Delete, results, Unfinished, [deleteCall] + Repeat(getCall, |rest| + 1), [])
  }

  /** One reconciliation run as a function of the desired state, the check-mode
      flag and the client's answers: the reference definition that `Run` is
      proved against. */
  function Reconcile(state: Value, checkMode: bool, gets: seq<Reply<Fields>>, writeReply: Reply<Fields>,
                     deleteRaises: bool, req: Requests, fields: seq<string>): (t: Trace)
    ensures t.calls != [] && t.calls[0] == Call(GetOp, req.get)
    ensures gets == [] <==> t.calls == [Call(GetOp, req.get)] && t.status == Unfinished && t.remaining == []
    ensures |t.remaining| < |gets| || gets == []
  {
    var getCall := Call(GetOp, req.get);
    if gets == [] then Trace(NoAction, InitialResults, Unfinished, [getCall], [])
    else
      var prior := Observe(gets[0]);
      var t := Act(Decide(Truthy(prior), state), checkMode, prior, gets[1..], writeReply, deleteRaises, req, fields);
      t.(calls := [getCall] + t.calls)
  }

  /** What follows the decision: the calls after the first `get`, whose
      reply was `prior`, with `rest` the replies to later `get` calls. */
  function Act(toDo: Action, checkMode: bool, prior: Value, rest: seq<Reply<Fields>>, writeReply: Reply<Fields>,
               deleteRaises: bool, req: Requests, fields: seq<string>): (t: Trace)
    ensures t.toDo == toDo && |t.remaining| <= |rest|
    ensures checkMode ==> t.calls == []
    ensures toDo != Delete ==> t.status != Unfinished
  {
    match toDo
    case NoAction => Finish(NoAction, InitialResults, prior, fields, [], rest)
    case Delete => DeleteTrace(checkMode, deleteRaises, req, rest)
    case _ => WriteTrace(toDo, checkMode, prior, writeReply, req, fields, rest)
  }

  /** The post-delete loop `while self.get_x(): time.sleep(20)`: poll until a
      reply reports the resource absent (`gone`), or until the replies run out. */
  method PollUntilAbsent(client: Client, args: seq<Value>) returns (gone: bool)
    modifies client`pending, client`calls
    ensures var p := Poll(old(client.pending));
            gone == p.Gone? &&
            client.calls == old(client.calls) + Repeat(Call(GetOp, args), if gone then p.polls else |old(client.pending)| + 1) &&
            client.pending == if gone then old(client.pending)[p.polls..] else []
  {
    ghost var polled := client.pending;
    ghost var calls0 := client.calls;
    ghost var n := 0;
    var getCall := Call(GetOp, args);
    var present := true;
    while present
      invariant 0 <= n <= |polled|
      invariant client.pending == polled[n..]
      invariant client.calls == calls0 + Repeat(getCall, n)
      invariant present ==> Poll(polled) == Shift(Poll(polled[n..]), n)
      invariant !present ==> Poll(polled) == Gone(n)
      decreases |client.pending|
    {
      var observed := client.Get(args);
      assert Repeat(getCall, n) + [getCall] == Repeat(getCall, n + 1);
      if observed.None? {
        gone := false;
        return;
      }
      assert polled[n..][1..] == polled[n + 1..];
      present := Truthy(Observe(observed.value));
      n := n + 1;
    }
    gone := true;
  }

  /** The create/update branch of `exec_module`. */
  method WriteStep(client: Client, toDo: Action, checkMode: bool, oldResponse: Value, req: Requests, fields: seq<string>)
    returns (results: Fields, status: Status)
    modifies client`calls
    ensures var t := WriteTrace(toDo, checkMode, oldResponse, client.writeReply, req, fields, client.pending);
            results == t.results && status == t.status && client.calls == old(client.calls) + t.calls
  {
    results := InitialResults;
    if checkMode {
      results := results["changed" := Bool(true)];
      status := Exited;
      return;
    }
    var reply := client.CreateOrUpdate(req.write);
    if reply.Raised? {
      status := Failed;
      return;
    }
    var response := Dict(reply.value);
    if !Truthy(oldResponse) {
      results := results["changed" := Bool(true)];
    } else {
      results := results["changed" := Bool(oldResponse != response)];
    }
    match Report(results, response, fields)
    case Some(r) =>
      results := r;
      status := Exited;
    case None =>
      status := Failed;
  }

  /** The delete branch of `exec_module`, with its poll. */
  method DeleteStep(client: Client, checkMode: bool, req: Requests)
    returns (results: Fields, status: Status)
    modifies client`pending, client`calls
    ensures var t := DeleteTrace(checkMode, client.deleteRaises, req, old(client.pending));
            results == t.results && status == t.status &&
            client.calls == old(client.calls) + t.calls && client.pending == t.remaining
  {
    results := InitialResults["changed" := Bool(true)];
    if checkMode {
      status := Exited;
      return;
    }
    var raised := client.Delete(req.delete);
    if raised {
      status := Failed;
      return;
    }
    var gone := PollUntilAbsent(client, req.get);
    status := if gone then Exited else Unfinished;
  }

  /** The shared body of `exec_module` from the first `get` on. */
  method Run(client: Client, state: Value, checkMode: bool, req: Requests, fields: seq<string>)
    returns (toDo: Action, results: Fields, status: Status)
    modifies client
    ensures var t := Reconcile(state, checkMode, old(client.pending), client.writeReply, client.deleteRaises, req, fields);
            toDo == t.toDo && results == t.results && status == t.status &&
            client.calls == old(client.calls) + t.calls && client.pending == t.remaining
  {
    results := InitialResults;
    toDo := NoAction;
    var first := client.Get(req.get);
    if first.None? {
      status := Unfinished;
      return;
    }
    var oldResponse := Observe(first.value);

    if !Truthy(oldResponse) {
      if state != Str("absent") {
        toDo := Create;
      }
    } else {
      if state == Str("absent") {
        toDo := Delete;
      } else if state == Str("present") {
        toDo := Update;
      }
    }
    assert toDo == Decide(Truthy(oldResponse), state);
    results, status := ActStep(client, toDo, checkMode, oldResponse, req, fields);
  }

  /** The branch of `exec_module` chosen by `toDo`. */
  method ActStep(client: Client, toDo: Action, checkMode: bool, oldResponse: Value, req: Requests, fields: seq<string>)
    returns (results: Fields, status: Status)
    modifies client`pending, client`calls
    ensures var t := Act(toDo, checkMode, oldResponse, old(client.pending), client.writeReply, client.deleteRaises, req, fields);
            results == t.results && status == t.status &&
            client.calls == old(client.calls) + t.calls && client.pending == t.remaining
  {
    if toDo == Create || toDo == Update {
      results, status := WriteStep(client, toDo, checkMode, oldResponse, req, fields);
    } else if toDo == Delete {
      results, status := DeleteStep(client, checkMode, req);
    } else {
      results := InitialResults["changed" := Bool(false)];
      match Report(results, oldResponse, fields)
      case Some(r) =>
        results := r;
        status := Exited;
      case None =>
        status := Failed;
    }
  }

  /** In check mode no create_or_update or delete call is made, and `changed`
      says whether one would have been. */
  lemma CheckModeMakesNoMutation(state: Value, gets: seq<Reply<Fields>>, writeReply: Reply<Fields>,
                                 deleteRaises: bool, req: Requests, fields: seq<string>)
    requires state == Str("present") || state == Str("absent")
    requires gets != []
    ensures var t := Reconcile(state, true, gets, writeReply, deleteRaises, req, fields);
            t.calls == [Call(GetOp, req.get)] && t.status == Exited &&
            t.results == map["changed" := Bool(t.toDo != NoAction)]
  {
  }

  /** After a create or update, `changed` is true when there was no prior
      resource and otherwise says whether the prior and new dicts differ;
      exactly one create_or_update call follows the first get, and the result
      fields of a non-empty new resource are reported. */
  lemma ChangedAfterWrite(state: Value, gets: seq<Reply<Fields>>, m: Fields,
                          deleteRaises: bool, req: Requests, fields: seq<string>)
    requires gets != [] && "changed" !in fields
    ensures var t := Reconcile(state, false, gets, Returned(m), deleteRaises, req, fields);
            var prior := Observe(gets[0]);
            (t.toDo == Create || t.toDo == Update) ==>
              t.calls == [Call(GetOp, req.get), Call(CreateOrUpdateOp, req.write)] &&
              (t.status == Exited <==> m == map[] || forall f <- fields :: f in m) &&
              (t.status == Exited ==>
                 "changed" in t.results && t.results["changed"] == Bool(!Truthy(prior) || prior != Dict(m))) &&
              (t.status == Exited && m != map[] ==> forall f <- fields :: f in t.results && t.results[f] == m[f])
  {
  }

  /** A failed create_or_update or delete is fatal: the run fails right
      after that one call, nothing is retried and no poll follows. */
  lemma FailuresAreFatal(state: Value, gets: seq<Reply<Fields>>, writeReply: Reply<Fields>,
                         deleteRaises: bool, req: Requests, fields: seq<string>)
    requires gets != []
    ensures var t := Reconcile(state, false, gets, writeReply, deleteRaises, req, fields);
            (t.toDo == Create || t.toDo == Update) && writeReply == Raised ==>
              t.status == Failed && t.calls == [Call(GetOp, req.get), Call(CreateOrUpdateOp, req.write)]
    ensures var t := Reconcile(state, false, gets, writeReply, deleteRaises, req, fields);
            t.toDo == Delete && deleteRaises ==>
              t.status == Failed && t.calls == [Call(GetOp, req.get), Call(DeleteOp, req.delete)]
  {
  }

  /** NoAction reports changed=False, makes no further call, and takes its
      response from the first `get`. */
  lemma NoActionReportsPrior(gets: seq<Reply<Fields>>, writeReply: Reply<Fields>,
                             deleteRaises: bool, req: Requests, fields: seq<string>)
    requires gets != []
    requires !Present(gets[0])
    ensures var t := Reconcile(Str("absent"), false, gets, writeReply, deleteRaises, req, fields);
            t.toDo == NoAction && t.calls == [Call(GetOp, req.get)] &&
            t.status == Exited && t.results == map["changed" := Bool(false)]
  {
  }

  /** After a successful delete, `get` is polled until the resource is
      reported absent; delete is called exactly once, no create_or_update is
      made, and no resource field is reported since no response remains.
      When some later reply reports the resource absent, the run exits. */
  lemma DeletePollsUntilAbsent(gets: seq<Reply<Fields>>, writeReply: Reply<Fields>,
                               req: Requests, fields: seq<string>)
    requires gets != [] && Present(gets[0])
    ensures var t := Reconcile(Str("absent"), false, gets, writeReply, false, req, fields);
            t.toDo == Delete && t.results == map["changed" := Bool(true)] &&
            2 <= |t.calls| && t.calls[0] == Call(GetOp, req.get) && t.calls[1] == Call(DeleteOp, req.delete) &&
            (forall i :: 2 <= i < |t.calls| ==> t.calls[i] == Call(GetOp, req.get)) &&
            (t.status == Exited ==>
               var k := |t.calls| - 2;
               1 <= k < |gets| && !Present(gets[k]) && (forall j :: 1 <= j < k ==> Present(gets[j])) &&
               t.remaining == gets[k + 1..])
    ensures (exists j :: 1 <= j < |gets| && !Present(gets[j])) ==>
              Reconcile(Str("absent"), false, gets, writeReply, false, req, fields).status == Exited
  {
    var rest := gets[1..];
    if Poll(rest).Horizon? {
      forall j | 1 <= j < |gets| ensures Present(gets[j]) {
        assert gets[j] == rest[j - 1];
      }
    }
  }
}
