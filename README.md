# Azure resource modules for Ansible: a Dafny model

This project models six Ansible modules that manage Azure resources.

Three of them create, update or delete one resource:
- `azure_rm_sqldatabase`: an SQL database;
- `azure_rm_keyvault`: a Key Vault;
- `azure_rm_sqlvirtualnetworkrule`: a virtual-network rule of an SQL server.

Each first turns its options into the attributes of the module object and,
for the first two, into a `parameters` payload. The SQL database module
translates several snake_case choices into the API's PascalCase names. The
Key Vault module nests nine options under a lazily created `properties`
dict. Both default the location to the resource group's. All three then run
the same "observe, decide, act" sequence, modelled once in `Reconciler`:
- `get` the resource;
- choose one of `NoAction`, `Create`, `Update` or `Delete` from its presence
  and the desired `state`;
- outside check mode, call `create_or_update` or `delete`;
- after a delete, poll `get` until the resource is reported absent;
- report `changed`, plus the resource fields of the response when there is one.

The other three are read-only facts modules:
- `azure_rm_containerregistry_facts`;
- `azure_rm_postgresqlvirtualnetworkrule_facts`;
- `azure_rm_containerregistrywebhook_facts`.

They copy their options onto the object and then fill at most one entry of
`ansible_facts`: the entry of the first arm of the `elif` chain whose guard
holds. None is filled when no guard holds, for instance when `resource_group`
is None (or, for the PostgreSQL module, `server_name`; for the webhook module,
any of its three names). Each entry is either
the dict of one resource or the list of dicts of a listing; it is False
when the client raised.

How the model is built:
- The management clients are oracles. For the reconciling modules, a
  `Reconciler.Client` object holds:
  - the queue of replies that successive `get` calls will receive;
  - the outcome of `create_or_update`;
  - whether `delete` raises;
  - the record of every call made.
- The facts modules receive their client as a datatype of functions from
  arguments to replies.
- Python values are the `Values.Value` datatype. Object attributes are a
  `map` from attribute name to value.
- `if x:` is modelled as Python truthiness (`Values.Truthy`). An empty dict is
  false, so an empty response counts as absent, as in the code.

Every `exec_module` is a method of a class that holds the module object's
fields. Each method is proved against a pure function of its inputs:
- for the reconciling modules: `Reconciler.Reconcile` and the normalisation
  functions;
- for the facts modules: `FactsFor`.

The properties are proved as lemmas about those functions.

## Model

| member | source | states |
|---|---|---|
| Values.Observe | library/azure_rm_sqldatabase.py:481-501 | A `get` helper returns False whenever the client raised and otherwise the resource's dict; it is truthy exactly when a non-empty dict came back |
| Values.SetAttributes | library/azure_rm_sqlvirtualnetworkrule.py:147-149 | The `hasattr`/`setattr` loop never adds or removes an attribute |
| Values.SetAttributesMeaning | library/azure_rm_sqlvirtualnetworkrule.py:147-149 | After the loop an attribute whose name was visited holds that option's value; every other attribute keeps its old value |
| Reconciler.Decide | library/azure_rm_sqldatabase.py:391-403 | Decision table: missing+absent gives NoAction, missing+other gives Create, existing+absent gives Delete, existing+present gives Update, and an existing resource with any other state gives NoAction |
| Reconciler.DecisionConverges | library/azure_rm_sqldatabase.py:391-403 | For present/absent, the chosen action leaves the resource existing exactly when `state` is present; NoAction is chosen exactly when the resource is missing and desired absent |
| Reconciler.WithDefaultLocation | library/azure_rm_sqldatabase.py:386-387 | A missing `location` is set to the resource group's location; a supplied one is never overwritten; no other key changes |
| Reconciler.Poll | library/azure_rm_sqldatabase.py:429-430 | The post-delete poll ends on the first reply that reports the resource absent, after every earlier reply reported it present; when no reply reports it absent, the poll goes on past its horizon |
| Reconciler.Report | library/azure_rm_sqldatabase.py:436-439 | Result fields are copied only when the response is truthy; then each listed field takes the response's value, other keys are kept, and a missing field is a failure (KeyError) |
| Reconciler.Repeat | library/azure_rm_sqldatabase.py:429-430 | The calls made by `n` polls are `n` identical `get` calls |
| Reconciler.Client.constructor | library/azure_rm_sqldatabase.py:481-501 | The client starts with the given replies and no recorded call |
| Reconciler.Client.Get | library/azure_rm_sqldatabase.py:490-492 | Records one `get` call and consumes the next pending reply |
| Reconciler.Client.CreateOrUpdate | library/azure_rm_sqldatabase.py:451-456 | Records one `create_or_update` call with its arguments and returns the completed operation's outcome |
| Reconciler.Client.Delete | library/azure_rm_sqldatabase.py:472-474 | Records one `delete` call with its arguments and says whether it raised |
| Reconciler.PollUntilAbsent | library/azure_rm_sqldatabase.py:429-430 | The `while self.get_x()` loop makes exactly the `get` calls that `Poll` predicts and consumes those replies |
| Reconciler.WriteStep | library/azure_rm_sqldatabase.py:405-417 | The create/update branch matches `WriteTrace`: nothing is called in check mode; otherwise there is one `create_or_update`, and `changed` is computed from the prior and new responses |
| Reconciler.DeleteStep | library/azure_rm_sqldatabase.py:419-430 | The delete branch matches `DeleteTrace`: nothing is called in check mode; otherwise there is one `delete` followed by the poll |
| Reconciler.ActStep | library/azure_rm_sqldatabase.py:405-434 | The branch chosen by `to_do` makes the calls and produces the results that `Act` defines, the NoAction branch included |
| Reconciler.Finish | library/azure_rm_sqldatabase.py:436-441 | The end of `exec_module`: the action, the calls and the unused replies are passed on, and the run never ends unfinished; the fields come from `Report` |
| Reconciler.WriteTrace | library/azure_rm_sqldatabase.py:405-417 | Reference definition of the create/update branch: exactly one `create_or_update` call outside check mode and none in it, the run never ends unfinished, and no `get` reply is consumed; `ChangedAfterWrite` and `FailuresAreFatal` state its results |
| Reconciler.DeleteTrace | library/azure_rm_sqldatabase.py:419-430 | Reference definition of the delete branch: changed=True, no call in check mode, otherwise `delete` first; `DeletePollsUntilAbsent` states the poll |
| Reconciler.Act | library/azure_rm_sqldatabase.py:405-434 | Reference definition of the branch chosen by `to_do`: the action is kept, check mode makes no call, and only Delete can end unfinished |
| Reconciler.Reconcile | library/azure_rm_sqldatabase.py:389-439 | Reference definition of one run: the first call is always `get`, and the run ends unfinished right after it exactly when no reply is available; `CheckModeMakesNoMutation`, `ChangedAfterWrite`, `FailuresAreFatal`, `NoActionReportsPrior` and `DeletePollsUntilAbsent` state its meaning |
| Reconciler.Run | library/azure_rm_sqldatabase.py:389-439 | From the first `get` on, `exec_module` makes exactly the calls, decision, results and outcome that the reference `Reconcile` defines |
| Reconciler.CheckModeMakesNoMutation | library/azure_rm_sqldatabase.py:405-424 | In check mode only the first `get` is called; `changed` is True exactly when the action is not NoAction, and no resource field is reported after Create, Update or Delete |
| Reconciler.ChangedAfterWrite | library/azure_rm_sqldatabase.py:405-417 | After Create or Update exactly one `create_or_update` follows the first `get`; the run succeeds exactly when the new response is empty or has every result field; `changed` is True when there was no prior resource and otherwise (prior != new); when the new resource is non-empty, each result field is reported with its value |
| Reconciler.FailuresAreFatal | library/azure_rm_sqldatabase.py:450-479 | A create_or_update or delete that raises fails the run right after that one call: nothing is retried and no poll follows a failed delete |
| Reconciler.NoActionReportsPrior | library/azure_rm_sqldatabase.py:431-434 | A missing resource with state absent gives NoAction, changed=False, no further call, and no reported field |
| Reconciler.DeletePollsUntilAbsent | library/azure_rm_sqldatabase.py:419-439 | After a successful delete: one `delete` follows the first `get`, then only `get` calls; on exit the last poll saw the resource absent and all earlier polls saw it present; when some later reply reports the resource absent, the run does exit; changed=True and no field is reported |
| SqlDatabase.Rewrite | library/azure_rm_sqldatabase.py:274-374 | Reference definition of one translation chain: the result is the value itself or one of the chain's names; `RewriteFirstMatch`, `RewritePassesThrough`, `RewriteListed` and `RewriteInjective` state which |
| SqlDatabase.RewriteFirstMatch | library/azure_rm_sqldatabase.py:274-374 | A choice is translated to the name of the first arm that lists it |
| SqlDatabase.RewritePassesThrough | library/azure_rm_sqldatabase.py:274-374 | A value that no arm lists is left unchanged, since no chain has an `else` |
| SqlDatabase.RewriteListed | library/azure_rm_sqldatabase.py:274-374 | A listed choice becomes the PascalCase name paired with it |
| SqlDatabase.RewriteInjective | library/azure_rm_sqldatabase.py:274-374 | In a chain whose names are distinct, distinct listed choices get distinct names |
| SqlDatabase.ChainsHaveDistinctNames | library/azure_rm_sqldatabase.py:274-374 | Each of the five chains (create_mode, edition, service objective, read_scale, sample_name) produces pairwise distinct names |
| SqlDatabase.SomeTranslations | library/azure_rm_sqldatabase.py:274-374 | 'non_readable_secondary' becomes 'NonReadableSecondary', 'elastic_pool' becomes 'ElasticPool', and 'adventure_works_lt' becomes 'AdventureWorksLT' |
| SqlDatabase.ParameterFor | library/azure_rm_sqldatabase.py:270-376 | An option reaches `parameters` through some branch exactly when it is a verbatim option or one of the five translated ones; verbatim options are stored unchanged |
| SqlDatabase.CopyOptions | library/azure_rm_sqldatabase.py:266-376 | Reference definition of `parameters` after the option loop: no attribute name is ever a key of it; `CopyOptionsMeaning` and `NormalizedParameters` state which keys appear and their values |
| SqlDatabase.CopyOptionsMeaning | library/azure_rm_sqldatabase.py:266-376 | `parameters` holds exactly the visited options that are not attributes, not None and named by some branch, each under its own key with its branch's value |
| SqlDatabase.NormalizedParameters | library/azure_rm_sqldatabase.py:266-376 | Over the whole argument spec, a None option never appears in `parameters`; every other non-attribute option does, under its own key; the verbatim options are unchanged and the choice options translated |
| SqlDatabase.PayloadLocation | library/azure_rm_sqldatabase.py:269-271 | The payload's location is the supplied one, or the resource group's when none was supplied |
| SqlDatabase.Requests | library/azure_rm_sqldatabase.py:443-479 | `get` and `delete` receive the resource group, the server name and the database name, in that order; `create_or_update` receives those and then `parameters` |
| SqlDatabase.Database.constructor | library/azure_rm_sqldatabase.py:249-257 | The declared attributes start as None, `parameters` empty, results `changed=False`, and `to_do` NoAction |
| SqlDatabase.Database.CopyArguments | library/azure_rm_sqldatabase.py:266-376 | The option loop sets the attributes as `SetAttributes` does and builds `parameters` as `CopyOptions` does |
| SqlDatabase.Database.Prepare | library/azure_rm_sqldatabase.py:266-387 | The option loop followed by the location default |
| SqlDatabase.Database.Apply | library/azure_rm_sqldatabase.py:389-441 | The rest of `exec_module` is `Reconcile` on the database's identifiers and payload, reporting id, database_id and status |
| SqlDatabase.Database.ExecModule | library/azure_rm_sqldatabase.py:263-441 | The whole of `exec_module`: the attributes, the payload with its default location, and the calls, decision and results of `Reconcile` |
| KeyVault.Properties | library/azure_rm_keyvault.py:230-247 | `setdefault("properties", {})` returns the stored dict, or a fresh empty one when none is stored |
| KeyVault.SetProperty | library/azure_rm_keyvault.py:230-247 | Storing a vault option creates or extends `properties` and leaves every other key of `parameters` alone |
| KeyVault.NestOptions | library/azure_rm_keyvault.py:224-247 | Reference definition of `parameters` after the option loop: only `location` and `properties` ever appear at the top level; the `NestOptions*` lemmas state their contents |
| KeyVault.NestOptionsLocation | library/azure_rm_keyvault.py:228-229 | `location` stays at the top level and is copied exactly when it is not None; nothing but `location` and `properties` is ever added |
| KeyVault.NestOptionsHasProperties | library/azure_rm_keyvault.py:230-247 | `properties` exists exactly when some vault option is not None, and it is always a dict |
| KeyVault.NestOptionsPropertyEntries | library/azure_rm_keyvault.py:230-247 | `properties` holds exactly the vault options that are not None, unchanged |
| KeyVault.NestedParameters | library/azure_rm_keyvault.py:224-247 | Over the whole argument spec: location is top level iff supplied, `properties` exists iff some of the nine options is set, and each set option sits unchanged under it |
| KeyVault.Renamed | library/azure_rm_keyvault.py:321-325 | When `d[old]` is present and not None it moves to `new`, and `old` is gone unless old == new; otherwise `d` is unchanged; other keys are never touched |
| KeyVault.RenameRoundTrip | library/azure_rm_keyvault.py:321-325 | Renaming to a fresh key and back restores the dict |
| KeyVault.RenameIdempotent | library/azure_rm_keyvault.py:321-325 | Renaming the same key a second time changes nothing, for every dict and every pair of names |
| KeyVault.Requests | library/azure_rm_keyvault.py:327-382 | `get` and `delete` receive the resource group and vault name; `create_or_update` receives those and then `parameters` |
| KeyVault.MutableDict.constructor | library/azure_rm_keyvault.py:321-325 | A dict object holding the given entries |
| KeyVault.Vault.constructor | library/azure_rm_keyvault.py:208-215 | The declared attributes start as None, `parameters` empty, results `changed=False`, and `to_do` NoAction |
| KeyVault.Vault.RenameKey | library/azure_rm_keyvault.py:321-325 | Updating the dict in place leaves it equal to `Renamed` of its old contents |
| KeyVault.Vault.CopyArguments | library/azure_rm_keyvault.py:224-247 | The option loop sets the attributes as `SetAttributes` does and builds `parameters` as `NestOptions` does |
| KeyVault.Vault.Prepare | library/azure_rm_keyvault.py:224-260 | The option loop followed by the location default |
| KeyVault.Vault.Apply | library/azure_rm_keyvault.py:262-312 | The rest of `exec_module` is `Reconcile` on the vault's identifiers and payload, reporting id |
| KeyVault.Vault.ExecModule | library/azure_rm_keyvault.py:221-312 | The whole of `exec_module`: the attributes, the nested payload with its default location, and the calls, decision and results of `Reconcile` |
| SqlVirtualNetworkRule.Requests | library/azure_rm_sqlvirtualnetworkrule.py:212-270 | `get` and `delete` receive the resource group, the server name and the rule name, in that order; `create_or_update` receives those and then the subnet id |
| SqlVirtualNetworkRule.RequestsIgnoreOtherAttributes | library/azure_rm_sqlvirtualnetworkrule.py:221-224 | The calls depend only on the resource group, server, rule name and subnet id; `ignore_missing_vnet_service_endpoint` is stored but never sent |
| SqlVirtualNetworkRule.LoopSetsEveryAttribute | library/azure_rm_sqlvirtualnetworkrule.py:147-149 | After the loop over the argument spec plus 'tags', every declared attribute holds its option and no attribute has been added |
| SqlVirtualNetworkRule.Rule.constructor | library/azure_rm_sqlvirtualnetworkrule.py:129-138 | The declared attributes start as None, results `changed=False`, and `to_do` NoAction |
| SqlVirtualNetworkRule.Rule.CopyAttributes | library/azure_rm_sqlvirtualnetworkrule.py:147-149 | The `hasattr` loop keeps the attribute set and sets the attributes as `SetAttributes` does |
| SqlVirtualNetworkRule.Rule.Apply | library/azure_rm_sqlvirtualnetworkrule.py:159-210 | The rest of `exec_module` is `Reconcile` on the rule's identifiers, reporting id and state |
| SqlVirtualNetworkRule.Rule.ExecModule | library/azure_rm_sqlvirtualnetworkrule.py:144-210 | The whole of `exec_module`: the attributes after the loop, and the calls, decision and results of `Reconcile` |
| Facts.FactsOf | library/azure_rm_containerregistry_facts.py:88-91 | The `ansible_facts` dict of a results dict |
| Facts.AddFact | library/azure_rm_containerregistry_facts.py:105 | Storing a fact sets one key of `ansible_facts` and leaves the other keys of the results alone |
| Facts.AddFactToInitial | library/azure_rm_containerregistry_facts.py:88-91 | Starting from the initial results, `changed` stays False and the stored fact is the only entry of `ansible_facts` |
| Facts.LoopSetsEveryAttribute | library/azure_rm_containerregistry_facts.py:98-99 | When the options visited are exactly the declared attributes, the unconditional `setattr` loop leaves every attribute holding its option; used by all three facts modules |
| Facts.Dicts | library/azure_rm_containerregistry_facts.py:195-197 | The dicts of the items, one per item, in order |
| Facts.ListResult | library/azure_rm_containerregistry_facts.py:186-199 | A `list_*` helper returns False when the client raised; otherwise a list of the same length whose i-th element is the i-th item's dict |
| Facts.ListResultInjective | library/azure_rm_containerregistry_facts.py:186-199 | Distinct successful listings give distinct facts, so the items and their order can be read back |
| Facts.ShapeList | library/azure_rm_containerregistry_facts.py:194-199 | The `results = []` / `append` loop yields `ListResult` of the reply |
| ContainerRegistryFacts.FactsFor | library/azure_rm_containerregistry_facts.py:103-113 | Reference definition of the if/elif chain: only 'get' or 'list_by_resource_group' can ever be filled; `Dispatch` states which one |
| ContainerRegistryFacts.Dispatch | library/azure_rm_containerregistry_facts.py:103-113 | With registry_name set, only 'get' is filled; with only resource_group set, only 'list_by_resource_group'; the 'list_credentials' and 'list_usages' arms never run; at most one fact is set |
| ContainerRegistryFacts.Registries.constructor | library/azure_rm_containerregistry_facts.py:88-95 | The attributes start as None and the results as changed=False with empty facts |
| ContainerRegistryFacts.Registries.CopyAttributes | library/azure_rm_containerregistry_facts.py:98-99 | The `setattr` loop sets the attributes as `SetAttributes` does |
| ContainerRegistryFacts.Registries.Get | library/azure_rm_containerregistry_facts.py:116-134 | `get` returns False when the call raised, otherwise the registry's dict |
| ContainerRegistryFacts.Registries.ListCredentials | library/azure_rm_containerregistry_facts.py:136-156 | False on error, otherwise the order-preserving list of item dicts |
| ContainerRegistryFacts.Registries.ListUsages | library/azure_rm_containerregistry_facts.py:158-178 | False on error, otherwise the order-preserving list of item dicts |
| ContainerRegistryFacts.Registries.ListByResourceGroup | library/azure_rm_containerregistry_facts.py:180-199 | False on error, otherwise the order-preserving list of item dicts |
| ContainerRegistryFacts.Registries.Choose | library/azure_rm_containerregistry_facts.py:103-113 | The if/elif chain selects and computes the fact that `FactsFor` defines |
| ContainerRegistryFacts.Registries.ExecModule | library/azure_rm_containerregistry_facts.py:97-114 | Every attribute holds its option, and the results are the initial ones with `ansible_facts` equal to `FactsFor` |
| PostgreSqlVirtualNetworkRuleFacts.FactsFor | library/azure_rm_postgresqlvirtualnetworkrule_facts.py:105-111 | Reference definition of the if/elif chain: only 'get' or 'list_by_server' can be filled; `Dispatch` states which one |
| PostgreSqlVirtualNetworkRuleFacts.Dispatch | library/azure_rm_postgresqlvirtualnetworkrule_facts.py:105-111 | With all three names set, only 'get' is filled; with the rule name None, only 'list_by_server'; otherwise nothing; at most one fact is set |
| PostgreSqlVirtualNetworkRuleFacts.Rules.constructor | library/azure_rm_postgresqlvirtualnetworkrule_facts.py:89-97 | The attributes start as None and the results as changed=False with empty facts |
| PostgreSqlVirtualNetworkRuleFacts.Rules.CopyAttributes | library/azure_rm_postgresqlvirtualnetworkrule_facts.py:100-101 | The `setattr` loop sets the attributes as `SetAttributes` does |
| PostgreSqlVirtualNetworkRuleFacts.Rules.Get | library/azure_rm_postgresqlvirtualnetworkrule_facts.py:114-133 | `get` returns False on error, otherwise the rule's dict |
| PostgreSqlVirtualNetworkRuleFacts.Rules.ListByServer | library/azure_rm_postgresqlvirtualnetworkrule_facts.py:135-155 | False on error, otherwise the order-preserving list of item dicts |
| PostgreSqlVirtualNetworkRuleFacts.Rules.Choose | library/azure_rm_postgresqlvirtualnetworkrule_facts.py:105-111 | The if/elif chain selects and computes the fact that `FactsFor` defines |
| PostgreSqlVirtualNetworkRuleFacts.Rules.ExecModule | library/azure_rm_postgresqlvirtualnetworkrule_facts.py:99-112 | Every attribute holds its option, and the results are the initial ones with `ansible_facts` equal to `FactsFor` |
| ContainerRegistryWebhookFacts.FactsFor | library/azure_rm_containerregistrywebhook_facts.py:106-113 | Reference definition of the if/elif chain: 'get' is the only fact that can be filled, so the 'list_events' arm is dead; `Dispatch` states when |
| ContainerRegistryWebhookFacts.Dispatch | library/azure_rm_containerregistrywebhook_facts.py:106-113 | With all three names set, 'get' is filled, and otherwise nothing; the 'list_events' arm never runs, so 'get' is the only fact ever set |
| ContainerRegistryWebhookFacts.Webhooks.constructor | library/azure_rm_containerregistrywebhook_facts.py:90-98 | The attributes start as None and the results as changed=False with empty facts |
| ContainerRegistryWebhookFacts.Webhooks.CopyAttributes | library/azure_rm_containerregistrywebhook_facts.py:101-102 | The `setattr` loop sets the attributes as `SetAttributes` does |
| ContainerRegistryWebhookFacts.Webhooks.Get | library/azure_rm_containerregistrywebhook_facts.py:116-135 | `get` returns False on error, otherwise the webhook's dict |
| ContainerRegistryWebhookFacts.Webhooks.ListEvents | library/azure_rm_containerregistrywebhook_facts.py:137-158 | False on error, otherwise the order-preserving list of event dicts |
| ContainerRegistryWebhookFacts.Webhooks.Choose | library/azure_rm_containerregistrywebhook_facts.py:106-113 | The if/elif chain selects and computes the fact that `FactsFor` defines |
| ContainerRegistryWebhookFacts.Webhooks.ExecModule | library/azure_rm_containerregistrywebhook_facts.py:100-114 | Every attribute holds its option, and the results are the initial ones with `ansible_facts` equal to `FactsFor` |

The Key Vault and SQL virtual-network-rule modules share the reconciler's
decision, check-mode handling, `changed` computation, delete poll and result
extraction. These parts sit at these lines:

- the decision: azure_rm_keyvault.py lines 264-276, azure_rm_sqlvirtualnetworkrule.py lines 161-173;
- create or update: lines 278-290 and 175-187;
- delete and poll: lines 292-303 and 189-200;
- NoAction: lines 304-307 and 201-204;
- the results: lines 309-310 and 206-208.

The lemmas about `Reconciler.Reconcile` hold for all three modules.

## Left out

- Client construction (`get_mgmt_svc_client`) is not modelled: the client is a parameter of `ExecModule`.
- The resource-group lookup (`get_resource_group`) of the SQL database and Key Vault modules is not modelled: its location is the `groupLocation` parameter. The SQL virtual-network-rule module looks the group up but never uses the result, so that lookup is left out entirely.
- Long-running-operation polling (`get_poller_result`, `AzureOperationPoller`) and `as_dict()` belong to the Azure SDK. A completed `create_or_update` is modelled as the dict it yields, and a model object by its dict.
- `time.sleep(20)` in the delete poll is not modelled.
- The delete poll is unbounded in the code. The model gives the client a finite sequence of `get` replies. When they run out while the resource is still present, the run ends with status `Unfinished`, so a poll that never ends is represented only up to that horizon.
- Logging and the text of `self.fail` messages are not modelled. `self.fail` and an uncaught KeyError both end the run with status `Failed`.
- The model assumes every client failure is a `CloudError`, whose contents are not modelled. Other exceptions, which the code does not catch, are not modelled.
- An error raised lazily while a listing is being iterated is not modelled: a listing either raises up front or yields all its items.
- The framework's own validation (`required`, `choices`, `type`, defaults) is not re-implemented. Every option key is assumed present in `kwargs`, as the framework guarantees. `Reconciler.Decide` still covers a `state` outside present/absent.
- Base-class attributes of `AzureRMModuleBase` are not modelled. In particular, the SQL virtual-network-rule loop visits 'tags', which is not one of the module's own attributes, so it is skipped there.
- `adjust_parameters` in azure_rm_keyvault.py has only comments in its body, so the file as written does not parse. The model treats the call as doing nothing and invents no access-policy rewrite.
- `KeyVault.Vault.RenameKey` has no caller in the model, and `rename_key` is called nowhere in the source either. `adjust_parameters`, whose comments describe moving keys under permissions, has no body. `KeyVault.MutableDict` stands for the dict `rename_key` would receive.
- The `setdefault("properties", {})` case where a non-dict is already stored under `properties` cannot arise, since only this loop writes that key. `KeyVault.Properties` returns an empty dict there.
- `Reconciler.Report` stops at the first missing result field, the way a KeyError does. The results written before that field are not kept in the model's `Failed` outcome.
- `SqlDatabase.SomeTranslations` spells out three translations. The others (edition, read_scale and the remaining chain arms) are covered by `RewriteFirstMatch`, `RewriteListed` and `RewriteInjective`, not one by one.
- The modules' `main` functions, and the DOCUMENTATION, EXAMPLES and RETURN strings, are outside the model.
- `azure_rm_resource_facts.py` and `azure_rm_containerregistryreplication_facts.py` are not part of this model.
