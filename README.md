# zabbix_manager in Dafny

A model of the core of `zabbix_manager`. This Ruby library drives a Zabbix
monitoring server through its JSON-RPC 2.0 API. The model covers:

- the client: the request envelope, the unwrapping of answers, the
  redaction of passwords in error reports, and the version gate and login
  at construction;
- the generic create/read/update/delete protocol that every resource class
  inherits from `Basic`, and how each class names its API methods and
  fields;
- the per-class operations of triggers, host groups, items, hosts,
  problems, user groups and proxies.

The Zabbix server is a `Remote.Server` object. It holds the log of every
message posted to it and a fixed but arbitrary oracle that answers each
message, given the messages before it.

Each library operation is described twice:

- a *run* function over the exchanges (message and reply) the operation
  makes, which is `None` unless those exchanges are exactly the operation's
  calls;
- a method on a class that posts the messages, proved to make such a run.

Lemmas about the run functions state what the library promises. For
example:

- a look-up that finds the object creates nothing;
- an update of unchanged data writes nothing;
- `safe_update` disables a changed trigger and creates its successor, and
  never deletes.

Loops in the source become loops in the model. These are get_id's match
loop, update's dump loop, `all`, the host-group loop and remove_problem's
event collection. Each is proved against a recursive function, and that
function is characterised by lemmas such as "the last matching record" or
"the fetched events, in order".

Ruby values are modelled by `Values.Value`, with Symbol and String hash keys
kept apart. A Ruby method called on the wrong class is an error value.
The helpers of `basic_func.rb` are not part of this model: `merge_params`,
`parse_keys`, `hash_equals?` and `symbolize_keys` are uninterpreted
functions in `External.Externals`, and so are `Object#inspect` and the OID
pattern match of `items.rb`.

Three points of the client's behaviour shape the model:

- a 7.x server is refused with `ManagerError` carrying the version
  message; the model names that case `UnsupportedVersion`, a constructor
  that stands for this ManagerError and nothing else;
- the gate is the line-anchored regular expression `^7\.\d+\.\d+$`, not a
  supported version range. The gate asks the server for its version a
  second time to build the message;
- `_request` raises when the `"error"` member is truthy, not merely when it
  is present.

## Model

| member | source | states |
|---|---|---|
| Descriptors.MethodName | lib/zabbix_manager/basic/basic_init.rb:14-16 | Basic itself raises ManagerError "Can't call method_name here"; every subclass has a prefix |
| Descriptors.Identify | lib/zabbix_manager/basic/basic_init.rb:42-44 | Basic itself raises ManagerError "Can't call identify here"; every subclass has a naming field |
| Descriptors.KeyName | lib/zabbix_manager/basic/basic_init.rb:35-37 | key fails exactly for Basic itself, with method_name's error |
| Descriptors.KeysName | lib/zabbix_manager/basic/basic_init.rb:28-30 | keys fails exactly for Basic itself |
| Descriptors.KeyDerived | lib/zabbix_manager/basic/basic_init.rb:35-37 | a class that does not override key uses its prefix + "id" |
| Descriptors.KeysArePlural | lib/zabbix_manager/basic/basic_init.rb:28-30 | keys is key + "s" for every class, so an overridden key propagates, Problems' own override included |
| Descriptors.DefaultOptions | lib/zabbix_manager/basic/basic_init.rb:21-23 | the defaults are empty except for Items and Hosts |
| Descriptors.ItemDefaultValues | lib/zabbix_manager/classes/items.rb:22-57 | the item defaults poll every 60 seconds on SNMP port 161 |
| Descriptors.ItemDefaultStorage | lib/zabbix_manager/classes/items.rb:22-57 | the item defaults keep trends for 86400 and store value type 3 |
| Descriptors.DumpByIdRequest | lib/zabbix_manager/basic/basic_logic.rb:127-139 | dump_by_id fails exactly for Basic itself and otherwise sends prefix.get with output "extend" |
| Descriptors.DumpFiltersOnKey | lib/zabbix_manager/basic/basic_logic.rb:130-138 | except for triggers and problems, dump_by_id filters on the class's own key and the data's value for it |
| Descriptors.TriggerDumpFilter | lib/zabbix_manager/classes/triggers.rb:25-39 | the trigger dump filters on triggerids, so data holding only triggerid sends a nil filter value |
| Descriptors.ProblemDumpFilter | lib/zabbix_manager/classes/problems.rb:39-51 | the problem dump filters on the name, not on the key |
| Descriptors.HostGroupDescriptor | lib/zabbix_manager/classes/hostgroups.rb:8-24 | host groups use prefix "hostgroup", identify "name", key "groupid" and keys "groupids" |
| Descriptors.ProblemDescriptor | lib/zabbix_manager/classes/problems.rb:6-31 | problems use prefix "problem", identify "name", key "problemid" and keys "problemids" |
| Descriptors.UsergroupDescriptor | lib/zabbix_manager/classes/usergroups.rb:8-24 | user groups use prefix "usergroup", identify "name" and key "usrgrpid" |
| Descriptors.DerivedDescriptors | lib/zabbix_manager/basic/basic_init.rb:35-37 | the derived keys are triggerid, itemid, hostid and proxyid; the naming fields are description, name, host and host |
| ZabbixClient.MessageJson | lib/zabbix_manager/client.rb:82-94 | the envelope carries the method and params unchanged, the id, jsonrpc "2.0", and the token exactly when the method is neither apiinfo.version nor user.login |
| ZabbixClient.RequestOfMessageJson | lib/zabbix_manager/client.rb:82-94 | the method and params read back from an envelope are the ones it was built from |
| ZabbixClient.Timeout | lib/zabbix_manager/client.rb:102 | the timeout is the option when it is not nil, else 60 |
| ZabbixClient.HttpBody | lib/zabbix_manager/client.rb:126-130 | only a "200" answer gives its body; any other code raises HttpError with that code |
| ZabbixClient.PrettyBody | lib/zabbix_manager/client.rb:147-157 | the report has no clear password at the top of params, changes nothing but that password, and is the request itself unless params is a hash holding "password" |
| ZabbixClient.Unwrap | lib/zabbix_manager/client.rb:135-145 | a truthy "error" member raises with the redacted request and the answer; otherwise the "result" member is returned |
| ZabbixClient.ReportsAreRedacted | lib/zabbix_manager/client.rb:138-142 | no API error report shows a password in clear |
| ZabbixClient.ParamsOnWire | lib/zabbix_manager/client.rb:93 | after the JSON round trip the envelope's params are the params sent, with string keys |
| ZabbixClient.ReportOf | lib/zabbix_manager/client.rb:138-157 | the params in an error report are the params sent after the round trip, with a hash's password masked |
| ZabbixClient.LoginPasswordMasked | lib/zabbix_manager/client.rb:151-154 | a failed login's report shows the user and "***" as the password |
| ZabbixClient.MaskedLoginParams | lib/zabbix_manager/client.rb:151-154 | pretty_body shows the login params as the user and "***" |
| ZabbixClient.WireLoginParams | lib/zabbix_manager/client.rb:93 | the JSON round trip of the login params is exactly the user and the password under string keys |
| ZabbixClient.WireLoginHas | lib/zabbix_manager/client.rb:93 | both login fields survive the JSON round trip under string keys |
| ZabbixClient.WireLoginOnly | lib/zabbix_manager/client.rb:93 | no key other than user and password appears after the round trip |
| ZabbixClient.ArrayParamsNotMasked | lib/zabbix_manager/client.rb:151-154 | a password inside array params, as create and update send them, is shown unmasked |
| ZabbixClient.CallRun | lib/zabbix_manager/client.rb:163-166 | an operation that posts one call makes exactly one exchange with that request and answers its outcome; one that fails to build its call first makes none |
| ZabbixClient.Version700Matches | lib/zabbix_manager/client.rb:65 | "7.0.1" matches the 7.x pattern |
| ZabbixClient.Version600Passes | lib/zabbix_manager/client.rb:65 | "6.0.0" does not match the 7.x pattern |
| ZabbixClient.VersionGate | lib/zabbix_manager/client.rb:65 | a text version is tested against the pattern; a non-text version raises NoMethodError; a failed call raises its error |
| ZabbixClient.Version7Refused | lib/zabbix_manager/client.rb:65-72 | a 7.x server without ignore_version fails and no login is attempted |
| ZabbixClient.Version7IgnoredLogsIn | lib/zabbix_manager/client.rb:65-74 | a 7.x server with ignore_version set is asked its version again and then logged in, and the login's outcome is the result |
| ZabbixClient.OtherVersionsLogIn | lib/zabbix_manager/client.rb:65-74 | any other version goes straight to one login, whose outcome is the result |
| ZabbixClient.Version600LogsIn | lib/zabbix_manager/client.rb:65-74 | a 6.0.0 server is logged in to |
| ZabbixClient.TokenIsLoginResult | lib/zabbix_manager/client.rb:74 | a successful construction ends with the login, whose result is the token, and every earlier call is the version query |
| ZabbixClient.Client.NewRequestId | lib/zabbix_manager/client.rb:14-16 | the request id is in [0, 10000), with no uniqueness |
| ZabbixClient.Client.ApiRequest | lib/zabbix_manager/client.rb:163-166 | one message is posted: the envelope of the request with the current token, and the result is its outcome |
| ZabbixClient.Client.Initialize | lib/zabbix_manager/client.rb:56-76 | the connection makes the run of the version gate and login, and the token becomes the login's result |
| ZabbixClient.Client.InitializeFromVersion | lib/zabbix_manager/client.rb:65-75 | once the version is answered, the connection makes the rest of the gate and the login, and the token becomes the login's result |
| ZabbixClient.Connect | lib/zabbix_manager/client.rb:56-76 | a new client keeps its options, makes the run of initialize, and holds the login's token, or nil when it failed |
| Remote.ExchangesOf | lib/zabbix_manager/client.rb:163-166 | each logged message is paired with the reply the server gave it, given the messages before it |
| Remote.ExchangesSplit | lib/zabbix_manager/client.rb:163-166 | the exchanges of two operations in a row are those of the first followed by those of the second |
| Remote.Server.Post | lib/zabbix_manager/client.rb:126 | posting appends the message to the log and answers the oracle's reply |
| Protocol.OneElementParams | lib/zabbix_manager/basic/basic_logic.rb:12-38 | delete sends [data]; create sends [data] unchanged when there are no defaults, and otherwise fails exactly when merge_params fails |
| Protocol.RawPassesThrough | lib/zabbix_manager/basic/basic_logic.rb:112-227 | get_raw, create_raw, update_raw and delete_raw send the data unwrapped to prefix.action |
| Protocol.CreateRunIsOneCall | lib/zabbix_manager/basic/basic_logic.rb:12-23 | create makes no call when its params cannot be built, and otherwise one call whose outcome parse_keys turns into the result |
| Protocol.LastWhere | lib/zabbix_manager/basic/basic_logic.rb:179-180 | the position found is of a selected record with no selected record after it, and none means no record is selected |
| Protocol.MatchFromLast | lib/zabbix_manager/basic/basic_logic.rb:179-181 | get_id's loop yields the key of the last record naming the object, or nil when none does |
| Protocol.MatchId | lib/zabbix_manager/basic/basic_logic.rb:179-181 | the loop computes the match of the records |
| Protocol.DumpFromLast | lib/zabbix_manager/basic/basic_logic.rb:64-67 | update's loop keeps the symbolized last record whose key matches the data's, or the empty hash |
| Protocol.FindDump | lib/zabbix_manager/basic/basic_logic.rb:64-67 | the loop computes the dump of the records |
| Protocol.AllFromAt | lib/zabbix_manager/basic/basic_logic.rb:146-155 | all maps a name to the key of the last record carrying it, and keeps earlier entries for names no later record carries |
| Protocol.CollectAll | lib/zabbix_manager/basic/basic_logic.rb:146-155 | the loop computes the map of the records |
| Protocol.GetIdCall | lib/zabbix_manager/basic/basic_logic.rb:163-178 | a look-up that can be made is for a subclass with a non-nil name, filters with the data and asks for key and identify from prefix.get |
| Protocol.SymbolQueryLookup | lib/zabbix_manager/basic/basic_logic.rb:163-178 | with symbol keys, a nil name raises "<identify> not supplied in call to get_id", and otherwise the look-up filters with the data itself |
| Protocol.GetIdRun | lib/zabbix_manager/basic/basic_logic.rb:163-182 | get_id makes no call when it raises first and otherwise exactly one |
| Protocol.NameRequired | lib/zabbix_manager/basic/basic_logic.rb:169-170 | a missing or nil name raises ManagerError before any call |
| Protocol.NameMissing | lib/zabbix_manager/basic/basic_logic.rb:169-170 | a query without the name under either key raises "<identify> not supplied in call to get_id" |
| Protocol.GetIdFindsLast | lib/zabbix_manager/basic/basic_logic.rb:179-181 | get_id returns nil when no record names the object and otherwise the integer key of the last one that does |
| Protocol.UpdateWritesAtMostOnce | lib/zabbix_manager/basic/basic_logic.rb:62-76 | update makes at most two calls and only the second can be prefix.update |
| Protocol.DumpNotUpdate | lib/zabbix_manager/basic/basic_logic.rb:65 | the dump is fetched with prefix.get, never with prefix.update |
| Protocol.UpdateSkipsEqual | lib/zabbix_manager/basic/basic_logic.rb:68-70 | unforced, with a dump equal to the data, update answers data[key].to_i and writes nothing |
| Protocol.ForcedUpdateWrites | lib/zabbix_manager/basic/basic_logic.rb:68-75 | forced, update writes [data] once with prefix.update whatever the comparison says, and answers parse_keys of the result |
| Protocol.DumpIsLastMatch | lib/zabbix_manager/basic/basic_logic.rb:64-67 | the dump is the symbolized last record whose key.to_i equals data[key].to_i, or {} if none does |
| Protocol.CreatesOnlyWhenAbsent | lib/zabbix_manager/basic/basic_logic.rb:190-197 | get_or_create makes at most two calls, creates only after a look-up answering nil, and a found id is returned with no create |
| Protocol.LookupNotCreate | lib/zabbix_manager/basic/basic_logic.rb:172-178 | the look-up method is never the create method |
| Protocol.FoundIsNotCreated | lib/zabbix_manager/basic/basic_logic.rb:190-197 | when a record names the object, get_or_create makes only the look-up and returns the last such record's key |
| Protocol.FoundIsUpdated | lib/zabbix_manager/basic/basic_logic.rb:47-52 | create_or_update of a found object is update of the data with the key set to the id, as text for Basic, and never a create |
| Protocol.UpdateOfFound | lib/zabbix_manager/basic/basic_logic.rb:51-75 | the update of a found object writes at most once, with the id merged, and answers the found id when skipped |
| Protocol.UpdateRunShape | lib/zabbix_manager/basic/basic_logic.rb:62-76 | an update is the dump alone, answering data[key].to_i when it succeeds, or the dump and then the one write of [data] |
| Protocol.AbsentIsCreated | lib/zabbix_manager/basic/basic_logic.rb:47-52 | create_or_update of an absent object is create of the caller's data |
| Protocol.AllMapsNamesToKeys | lib/zabbix_manager/basic/basic_logic.rb:146-155 | all maps each name to the key of the last record carrying it, and no other name is in the map |
| Protocol.Basic.constructor | lib/zabbix_manager/basic/basic_init.rb:7-9 | a resource object keeps the client it was given, for its own kind |
| Protocol.Basic.Call | lib/zabbix_manager/client.rb:163-166 | one api_request for the call, or none and its error |
| Protocol.Basic.CallParsed | lib/zabbix_manager/basic/basic_logic.rb:22 | the call's result goes through parse_keys |
| Protocol.Basic.Create | lib/zabbix_manager/basic/basic_logic.rb:12-23 | create makes the run of its one call |
| Protocol.Basic.Delete | lib/zabbix_manager/basic/basic_logic.rb:32-38 | delete makes the run of its one call |
| Protocol.Basic.Raw | lib/zabbix_manager/basic/basic_logic.rb:112-227 | the raw variants make the run of their one call |
| Protocol.Basic.MojoUpdate | lib/zabbix_manager/basic/basic_logic.rb:79-82 | mojo_update posts the given method with the data and answers its outcome |
| Protocol.Basic.GetFullData | lib/zabbix_manager/basic/basic_logic.rb:92-104 | get_full_data posts prefix.get filtered on the naming field |
| Protocol.Basic.DumpById | lib/zabbix_manager/basic/basic_logic.rb:127-139 | dump_by_id posts the class's dump request |
| Protocol.Basic.All | lib/zabbix_manager/basic/basic_logic.rb:146-155 | all makes the run of one prefix.get and its loop |
| Protocol.Basic.GetId | lib/zabbix_manager/basic/basic_logic.rb:163-182 | get_id makes the run of its look-up and match loop |
| Protocol.Basic.Update | lib/zabbix_manager/basic/basic_logic.rb:62-76 | update makes the run of the dump, the comparison and the write |
| Protocol.Basic.UpdateFromAnswer | lib/zabbix_manager/basic/basic_logic.rb:64-75 | once the dump is answered, update makes the rest of its run: the skip answering the kept id, or the write |
| Protocol.Basic.GetOrCreateBy | lib/zabbix_manager/basic/basic_logic.rb:190-197 | get_or_create with a given look-up makes its run |
| Protocol.Basic.GetOrCreate | lib/zabbix_manager/basic/basic_logic.rb:190-197 | get_or_create looks up by the naming field alone |
| Protocol.Basic.CreateOrUpdateBy | lib/zabbix_manager/basic/basic_logic.rb:47-52 | create_or_update with a given look-up makes its run |
| Protocol.Basic.CreateOrUpdate | lib/zabbix_manager/basic/basic_logic.rb:47-52 | create_or_update looks up by the naming field alone and merges the id as text |
| Protocol.Basic.GetHostgroupIds | lib/zabbix_manager/basic/basic_extend.rb:5-18 | get_hostgroup_ids always queries hostgroup.get, whatever the receiver's prefix |
| Protocol.Basic.HostgroupStep | lib/zabbix_manager/basic/basic_extend.rb:23-37 | one iteration is a look-up, then a create only when it answered nil; its errors are rescued |
| Protocol.Basic.GetOrCreateHostgroups | lib/zabbix_manager/basic/basic_extend.rb:21-38 | the loop answers [data].flatten, and its exchanges are one iteration per name, in order |
| Protocol.Basic.EachHostgroup | lib/zabbix_manager/basic/basic_extend.rb:23-37 | the loop makes one iteration per name, in order, each a look-up and a create when the look-up answers nil |
| Extend.GroupIds | lib/zabbix_manager/classes/hostgroups.rb:36 | the map gives one {groupid} per record, in server order, and never fails on records that are hashes |
| Extend.OneGroupIdPerRecord | lib/zabbix_manager/classes/hostgroups.rb:36-39 | an empty answer gives nil and otherwise the list of {groupid: record["groupid"]} |
| Extend.HostgroupsRunStep | lib/zabbix_manager/classes/hostgroups.rb:45-57 | one more iteration extends the loop's run by its exchanges |
| Extend.SingleRun | lib/zabbix_manager/classes/hostgroups.rb:45-57 | a run of one name is that name's iteration |
| Extend.CallsOfAppend | lib/zabbix_manager/classes/hostgroups.rb:45-57 | the calls of two runs in a row are the calls of each, in order |
| Extend.GetIsNotCreate | lib/zabbix_manager/classes/hostgroups.rb:28-53 | the look-up method differs from the create method |
| Extend.LookupsInOrder | lib/zabbix_manager/classes/hostgroups.rb:45-54 | the loop makes one look-up per name, in input order, and at most one create per name |
| Extend.GetsInOrder | lib/zabbix_manager/classes/hostgroups.rb:45-54 | the look-ups of a run are one hostgroup.get per name, in input order |
| Extend.CreatesBounded | lib/zabbix_manager/classes/hostgroups.rb:45-54 | a run makes at most one hostgroup.create per name |
| Extend.StepCalls | lib/zabbix_manager/classes/hostgroups.rb:45-54 | one iteration makes exactly the look-up of its name and at most one create |
| Extend.CreateFollowsNilLookup | lib/zabbix_manager/classes/hostgroups.rb:46-54 | every hostgroup.create follows a look-up that answered nil, and creates the name looked up |
| Values.FlattenIdempotent | lib/zabbix_manager/classes/hostgroups.rb:33 | flattening the flattened names changes nothing |
| Values.StrToIOfIntToS | lib/zabbix_manager/basic/basic_logic.rb:51 | the id merged as text by create_or_update reads back as the same integer with to_i |
| Values.DecimalPrefixRead | lib/zabbix_manager/basic/basic_logic.rb:66 | the ids compared with to_i are read past an optional base-10 prefix: "0d12" gives 12 and "-0D5" gives -5 |
| Triggers.PlaceholderReplaced | lib/zabbix_manager/classes/triggers.rb:57 | a stored {digits} reference followed by text without braces becomes {e} |
| Triggers.NoBraceUnchanged | lib/zabbix_manager/classes/triggers.rb:57 | text without braces is left as it is |
| Triggers.DigitsReachBrace | lib/zabbix_manager/classes/triggers.rb:57 | a run of digits closed by } is a placeholder |
| Triggers.BraceAfterDigits | lib/zabbix_manager/classes/triggers.rb:57 | a placeholder found is a run of digits closed by } |
| Triggers.LastColon | lib/zabbix_manager/classes/triggers.rb:62 | the colon the greedy match ends at is a colon |
| Triggers.NoColonNone | lib/zabbix_manager/classes/triggers.rb:62 | with no colon there is no match |
| Triggers.NoColonUnchanged | lib/zabbix_manager/classes/triggers.rb:62 | text without a colon is left as it is |
| Triggers.LastColonAt | lib/zabbix_manager/classes/triggers.rb:62 | the match ends at the last colon of the line |
| Triggers.StripIsGreedy | lib/zabbix_manager/classes/triggers.rb:62 | "{host:rest" becomes "{rest", the host prefix up to the last colon being removed |
| Triggers.UnchangedExpressionsAgree | lib/zabbix_manager/classes/triggers.rb:56-62 | an unchanged single-function trigger compares equal: the stored expression rebuilt and the submitted one stripped agree |
| Triggers.ItemExpression | lib/zabbix_manager/classes/triggers.rb:56 | the reference is built only from a dump that is a hash |
| Triggers.NormaliseDump | lib/zabbix_manager/classes/triggers.rb:56-59 | the normalised dump is a hash without items and functions |
| Triggers.StripData | lib/zabbix_manager/classes/triggers.rb:61-63 | the caller's data can be stripped exactly when its expression is text, and the result has no templateid |
| Triggers.Restored | lib/zabbix_manager/classes/triggers.rb:71 | after the failed comparison the data is the caller's with only templateid removed, its own expression back |
| Triggers.RestoredWithoutId | lib/zabbix_manager/classes/triggers.rb:71-78 | the restored data keeps the caller's triggerid entry and otherwise agrees with the data minus templateid |
| Triggers.TriggerCallsDiffer | lib/zabbix_manager/classes/triggers.rb:29-79 | the trigger methods get, update, create and delete are four different names |
| Triggers.SafeDumpIsGet | lib/zabbix_manager/classes/triggers.rb:52 | safe_update's dump is a trigger.get filtered on triggerids with a nil value, with items and functions selected |
| Triggers.UnchangedKeepsId | lib/zabbix_manager/classes/triggers.rb:51-69 | an unchanged trigger answers triggerid.to_i with only the dump call, and no update or create |
| Triggers.MigrationSteps | lib/zabbix_manager/classes/triggers.rb:71-79 | the migration disables first, then creates |
| Triggers.MigrationNeverDeletes | lib/zabbix_manager/classes/triggers.rb:71-79 | no exchange of the migration is a trigger.delete |
| Triggers.SafeUpdateNeverDeletes | lib/zabbix_manager/classes/triggers.rb:47-81 | safe_update never deletes a trigger, whichever branch it takes |
| Triggers.SafeRunSplit | lib/zabbix_manager/classes/triggers.rb:51-54 | safe_update first reads triggerid.to_i, then makes the dump call for the trigger |
| Triggers.CompareChanged | lib/zabbix_manager/classes/triggers.rb:67-79 | a failed comparison leads to the migration of the restored data |
| Triggers.ChangedIsMigrated | lib/zabbix_manager/classes/triggers.rb:71-79 | a changed trigger is disabled with [{triggerid, status "1"}] and then created from the data without templateid and triggerid |
| Triggers.TriggerDescriptionRequired | lib/zabbix_manager/classes/triggers.rb:92 | a trigger look-up without a description raises "description not supplied in call to get_id" |
| Triggers.TriggerLookup | lib/zabbix_manager/classes/triggers.rb:92-105 | trigger look-ups filter on both description and hostid |
| Triggers.TriggerBuilders | lib/zabbix_manager/classes/triggers.rb:125-168 | both builders send recovery_mode 1 and manual_close 1; the type is 0 on create and 1 on update, and update sends triggerid.to_i |
| Triggers.CreateTriggerParams | lib/zabbix_manager/classes/triggers.rb:125-144 | the create builder sends the caller's description, expression and the fixed type 0, recovery_mode 1 and manual_close 1 |
| Triggers.UpdateTriggerParams | lib/zabbix_manager/classes/triggers.rb:147-168 | the update builder sends the caller's description and expression with triggerid.to_i, type 1, recovery_mode 1 and manual_close 1 |
| Triggers.TriggerIdsResult | lib/zabbix_manager/classes/triggers.rb:143-167 | the builders answer nil for an empty result, otherwise result["triggerids"], and pass errors through |
| Triggers.Triggers.GetOrCreate | lib/zabbix_manager/classes/triggers.rb:89-96 | get_or_create looks up by description and hostid |
| Triggers.Triggers.CreateOrUpdate | lib/zabbix_manager/classes/triggers.rb:104-108 | create_or_update looks up by description and hostid and merges the id as an integer triggerid |
| Triggers.Triggers.CreateTrigger | lib/zabbix_manager/classes/triggers.rb:125-144 | create_trigger posts its one request and answers its triggerids |
| Triggers.Triggers.UpdateTrigger | lib/zabbix_manager/classes/triggers.rb:147-168 | update_trigger posts its one request and answers its triggerids |
| Triggers.Triggers.Migrate | lib/zabbix_manager/classes/triggers.rb:71-79 | the migration makes its run and leaves the data without triggerid |
| Triggers.Triggers.SafeUpdate | lib/zabbix_manager/classes/triggers.rb:47-81 | safe_update makes its run, and the caller's hash ends up as the run says |
| Triggers.Triggers.CompareFromAnswer | lib/zabbix_manager/classes/triggers.rb:55-80 | once the dump is answered, safe_update makes the rest of its run: the comparison and, when changed, the migration |
| Items.ItemNameRequired | lib/zabbix_manager/classes/items.rb:68 | an item look-up without a name raises "name not supplied in call to get_id" |
| Items.ItemLookup | lib/zabbix_manager/classes/items.rb:68-81 | item look-ups filter on both name and hostid |
| Items.KeepSlashDigits | lib/zabbix_manager/classes/items.rb:88 | the search term keeps only slashes and digits and is no longer than the name |
| Items.KeepMembers | lib/zabbix_manager/classes/items.rb:88 | every slash or digit of the name remains and nothing else appears |
| Items.KeepNone | lib/zabbix_manager/classes/items.rb:88 | a name without slashes or digits gives the empty term |
| Items.KeepAll | lib/zabbix_manager/classes/items.rb:88 | a name of only slashes and digits is kept whole |
| Items.KeepIdempotent | lib/zabbix_manager/classes/items.rb:88 | removing the other characters twice is removing them once |
| Items.KeepAppend | lib/zabbix_manager/classes/items.rb:88 | the removal works character by character over a concatenation |
| Items.StripStart | lib/zabbix_manager/classes/items.rb:88 | strip removes leading whitespace and NULs only |
| Items.StripEnd | lib/zabbix_manager/classes/items.rb:88 | strip removes trailing whitespace and NULs only |
| Items.StripKeepsNonBlank | lib/zabbix_manager/classes/items.rb:88 | strip leaves text without blanks unchanged |
| Items.InterfaceSearchTerm | lib/zabbix_manager/classes/items.rb:88-89 | a nil name gives "("; a text name gives its slashes and digits followed by "("; any other value raises NoMethodError |
| Items.InterfaceTermIsPort | lib/zabbix_manager/classes/items.rb:88-89 | an interface name such as a kind followed by a port number searches for the port followed by "(" |
| Items.SelectOids | lib/zabbix_manager/classes/items.rb:102-103 | the select succeeds exactly when every snmp_oid is text; every record it keeps matches the OID pattern, and every matching record is kept |
| Items.SelectOidsCounts | lib/zabbix_manager/classes/items.rb:102-103 | the select keeps each matching record as many times as it occurs in the answer, and no other record |
| Items.TextLeTotal | lib/zabbix_manager/classes/items.rb:104-106 | the order of key_ strings is total |
| Items.TextLeTrans | lib/zabbix_manager/classes/items.rb:104-106 | the order of key_ strings is transitive |
| Items.KeyLeTotal | lib/zabbix_manager/classes/items.rb:104-106 | keys of one comparable kind are totally ordered |
| Items.KeyLeTrans | lib/zabbix_manager/classes/items.rb:104-106 | keys of one comparable kind are ordered transitively |
| Items.Insert | lib/zabbix_manager/classes/items.rb:104-106 | insertion adds exactly the record |
| Items.SortByKey | lib/zabbix_manager/classes/items.rb:104-106 | the sort is a permutation of the records |
| Items.InsertSorted | lib/zabbix_manager/classes/items.rb:104-106 | insertion keeps records of one key kind sorted by key_ |
| Items.SortByKeySorted | lib/zabbix_manager/classes/items.rb:104-106 | the sort orders records of one key kind by key_ |
| Items.SortItemsOrders | lib/zabbix_manager/classes/items.rb:104-106 | sort_by succeeds exactly when there are fewer than two records, the keys are all Strings, all Integers or all nil, or all keys are equal; it then gives the records sorted by key_ as a permutation |
| Items.AllEqualSorted | lib/zabbix_manager/classes/items.rb:104-106 | records whose keys are all equal, of a class `<=>` does not otherwise order, are already in order, as `<=>` answers 0 between them |
| Items.InterfaceItemsAreMatchingInOrder | lib/zabbix_manager/classes/items.rb:102-109 | the answer is nil exactly when no record matches the OID pattern; otherwise it is sorted by key_ and holds each matching record as many times as the answer does, and no other record |
| Items.DnsReportTellsOutcome | lib/zabbix_manager/classes/items.rb:136-138 | the report of a created item differs from that of a failed one |
| Items.DnsItemKey | lib/zabbix_manager/classes/items.rb:115-133 | the DNS item has key net.dns.record[,name,A,2,2], type 0, value_type 1, delay "1m", history "90d", lifetime "30d" and timeout "3s" |
| Items.Items.GetOrCreate | lib/zabbix_manager/classes/items.rb:65-72 | get_or_create looks up by name and hostid |
| Items.Items.CreateOrUpdate | lib/zabbix_manager/classes/items.rb:80-83 | create_or_update looks up by name and hostid and merges the id as an integer itemid |
| Items.Items.GetInterfaceItems | lib/zabbix_manager/classes/items.rb:86-110 | get_interface_items makes its run |
| Items.Items.CreateDnsItem | lib/zabbix_manager/classes/items.rb:113-139 | create_dns_item posts one item.create and, failing or not, answers the report |
| Protocol.FirstFieldOfRecords | lib/zabbix_manager/classes/hosts.rb:155 | an empty list gives nil, else the first record's field |
| Hosts.UnlinkedOf | lib/zabbix_manager/classes/hosts.rb:77 | unlink_templates answers false exactly for an empty result |
| Hosts.HostLookupsDiffer | lib/zabbix_manager/classes/hosts.rb:143-172 | get_host_id and get_hostid_by_name both query host.get, by different filters |
| Hosts.FoundRunOk | lib/zabbix_manager/classes/hosts.rb:197-215 | the update branch never raises and makes one to three calls |
| Hosts.HostCreateOrUpdateNeverRaises | lib/zabbix_manager/classes/hosts.rb:213-215 | create_or_update never raises |
| Hosts.HostUpdatesDiffer | lib/zabbix_manager/classes/hosts.rb:93-211 | the host methods involved are all different names |
| Hosts.ExistingHostIsUpdated | lib/zabbix_manager/classes/hosts.rb:197-207 | an existing host has its interfaces updated with the interfaceid found, then the host updated with the data minus interfaces and templates plus hostid |
| Hosts.MissingHostIsCreated | lib/zabbix_manager/classes/hosts.rb:208-211 | an absent host is looked up once, then created from the caller's data merged into the host defaults; the caller's hash is left unchanged |
| Hosts.MissingHostNotUpdated | lib/zabbix_manager/classes/hosts.rb:208-211 | on the way to creating an absent host no call is a host.update |
| Hosts.HostCreateCall | lib/zabbix_manager/classes/hosts.rb:211 | the create of a host is host.create of the data merged into the host defaults, and fails exactly when the merge fails |
| Hosts.Hosts.GetHostId | lib/zabbix_manager/classes/hosts.rb:143-156 | one host.get by host, answering nil or the first hostid |
| Hosts.Hosts.GetHostidByName | lib/zabbix_manager/classes/hosts.rb:159-172 | one host.get by name, answering nil or the first hostid |
| Hosts.Hosts.GetInterfaceId | lib/zabbix_manager/classes/hosts.rb:88-100 | one hostinterface.get, answering nil or the first interfaceid |
| Hosts.Hosts.UnlinkTemplates | lib/zabbix_manager/classes/hosts.rb:69-78 | one host.massRemove, answering whether the result is non-empty |
| Hosts.Hosts.UpdateExisting | lib/zabbix_manager/classes/hosts.rb:197-207 | the update branch makes its run: the interface look-up, then the two updates |
| Hosts.Hosts.UpdateFound | lib/zabbix_manager/classes/hosts.rb:199-207 | once the interface id is known, the branch makes the rest of its run and leaves the caller's hash without interfaces and templates |
| Hosts.Hosts.CreateOrUpdate | lib/zabbix_manager/classes/hosts.rb:190-216 | create_or_update makes its run and leaves the caller's hash as it says |
| Problems.OptionalParams | lib/zabbix_manager/classes/problems.rb:70-83 | every optional filter is sent, as its value or nil |
| Problems.FixedParams | lib/zabbix_manager/classes/problems.rb:67-87 | exactly the eight fixed keys, each with the value get_full_data gives it |
| Problems.FullDataParams | lib/zabbix_manager/classes/problems.rb:66-88 | the params hold every optional filter and every fixed field |
| Problems.ProblemDefaults | lib/zabbix_manager/classes/problems.rb:70-83 | falsy or absent values give recent false, sortfield ["eventid"] and sortorder "DESC", and falsy optional filters are sent as nil |
| Problems.ProblemFixedFields | lib/zabbix_manager/classes/problems.rb:67-87 | the filter is always {name: data[:name]} and output and the three selects are always "extend" |
| Problems.ExtendKeyValue | lib/zabbix_manager/classes/problems.rb:84-87 | each of output and the three selects is sent as "extend" |
| Problems.EventIdsFromRecords | lib/zabbix_manager/classes/problems.rb:111-113 | over hash records the loop collects each record's "eventid", in order |
| Problems.CollectEventIds | lib/zabbix_manager/classes/problems.rb:108-113 | the loop computes the collection of the records |
| Problems.AcknowledgesFetchedEvents | lib/zabbix_manager/classes/problems.rb:107-131 | remove_problem acknowledges exactly the fetched eventids in fetched order, with action 2, and answers that call's outcome |
| Problems.EventIdsOfRecords | lib/zabbix_manager/classes/problems.rb:111-113 | over hash records, the events collected are the records' "eventid"s, in order |
| Problems.RemoveProblemAcks | lib/zabbix_manager/classes/problems.rb:107-116 | once the events are collected, remove_problem's second and last call acknowledges them, and its outcome is the result |
| Problems.Problems.GetFullData | lib/zabbix_manager/classes/problems.rb:59-90 | get_full_data posts problem.get with the symbolized data's params |
| Problems.Problems.All | lib/zabbix_manager/classes/problems.rb:97-99 | all is get_full_data of the empty hash |
| Problems.Problems.AckEvent | lib/zabbix_manager/classes/problems.rb:119-131 | ack_event posts event.acknowledge and answers its result |
| Problems.Problems.RemoveProblem | lib/zabbix_manager/classes/problems.rb:101-117 | remove_problem makes its run: the fetch, then the acknowledgement |
| Usergroups.Rights | lib/zabbix_manager/classes/usergroups.rb:38 | one right per host group, in order, each exactly {permission, id} |
| Usergroups.RightsRoundTrip | lib/zabbix_manager/classes/usergroups.rb:38 | the ids read back from the rights are the host groups given |
| Usergroups.Permission | lib/zabbix_manager/classes/usergroups.rb:33 | the permission is the one given when truthy, or 2 when it is absent, nil or false |
| Usergroups.PermissionsCall | lib/zabbix_manager/classes/usergroups.rb:34-40 | permissions sends usergroup.update with exactly the group and its rights, and fails exactly when hostgroupids cannot be mapped |
| Usergroups.GroupIdOf | lib/zabbix_manager/classes/usergroups.rb:41 | a falsy result gives nil; otherwise usrgrpids[0].to_i, an integer |
| Usergroups.UpdateUsersCall | lib/zabbix_manager/classes/usergroups.rb:62-71 | one record per group, in order, each exactly {usrgrpid, userids} with the same users |
| Usergroups.UsergroupUpdatesDiffer | lib/zabbix_manager/classes/usergroups.rb:34-71 | both operations call usergroup.update, with bodies that never coincide |
| Usergroups.Usergroups.Permissions | lib/zabbix_manager/classes/usergroups.rb:32-42 | permissions makes its one call and answers the group id |
| Usergroups.Usergroups.UpdateUsers | lib/zabbix_manager/classes/usergroups.rb:61-73 | update_users makes its one call and answers the group id |
| Usergroups.Usergroups.AddUser | lib/zabbix_manager/classes/usergroups.rb:51-53 | add_user makes exactly update_users' run |
| Proxies.ProxyDeleteUnwrapped | lib/zabbix_manager/classes/proxies.rb:24 | proxy delete sends the data itself, while Basic's delete of the same data sends it wrapped |
| Proxies.DeletedIdOf | lib/zabbix_manager/classes/proxies.rb:25 | an empty result gives nil; otherwise proxyids[0].to_i, an integer; nil, numbers and booleans raise NoMethodError |
| Proxies.ProxyIdOfRecords | lib/zabbix_manager/classes/proxies.rb:54-65 | a named proxy is looked up by one proxy.get, answering nil for no match, else the first record's proxyid |
| Proxies.Proxies.Delete | lib/zabbix_manager/classes/proxies.rb:23-26 | delete makes its one call and answers the deleted id |
| Proxies.Proxies.IsReadable | lib/zabbix_manager/classes/proxies.rb:34-36 | isreadable passes the params through and answers the result as it is |
| Proxies.Proxies.IsWritable | lib/zabbix_manager/classes/proxies.rb:44-46 | iswritable passes the params through and answers the result as it is |
| Proxies.Proxies.GetProxyId | lib/zabbix_manager/classes/proxies.rb:49-66 | a nil name answers nil with no call; otherwise one proxy.get |

## Left out

- HTTP transport: the connection, TLS, basic authentication, the proxy taken from `ENV["http_proxy"]` and socket errors. A reply is either an HTTP answer with a code and a parsed body, or no answer.
- JSON text: envelopes and answers are structured values. The round trip turns symbol keys into strings (`Values.Wire`); `JSON.pretty_unparse` is modelled as the redacted hash itself.
- Protocol.Basic.All: the Hash `all` returns lists its names in the order each first appears in the answer, and a later record overwrites a name in place. Protocol.AllFromAt and Protocol.CollectAll build a `map`, which keeps no order, so the model states which names map to which keys but not the order of the names.
- Values.WireFields: when a hash holds both `:k` and `"k"`, `JSON.generate` writes both members and `JSON.parse` keeps the later one, so the survivor depends on insertion order; a `map` keeps no insertion order, and the model always keeps the value of the string key `"k"`.
- Randomness of the request id: any value in [0, 10000) may be drawn.
- The helpers of `basic_func.rb` are not part of this model. `merge_params`, `parse_keys`, `hash_equals?` and `symbolize_keys` are arbitrary functions that may raise. `Object#inspect` and the OID regular expression are arbitrary too.
- The real server: it is an oracle that answers each message given the messages before it; stored records are not modelled. The race between a look-up and a create is concurrency and is not modelled.
- Iteration over a non-empty Hash by `each`, `map` or `select`: the order and the pair elements are not modelled; it is the error `HashIteration`.
- ZabbixClient.Unwrap: only an answer whose body is a Hash is specified in detail; a body of another class raises the error `Index` gives.
- Logging and printing: `log`, `puts`, `p` and `ap`. Their only modelled effects are the values `p` and `puts` return.
- `debug?` and the debug messages of `initialize` and `http_request`: output only.
- All StandardError subclasses are one error type, so every `rescue StandardError` catches every modelled error. Out-of-memory and interrupts are not modelled.
- The `mojo_data`, `update_mojo`, `mojo_delete`, `update_host_to_serial` and `get_item_info` methods: hard-coded sample data and one-off scripts.
- `lib/zabbix_manager.rb` (memoised accessors, `query`, `logout`) and `server.rb` (the version query) are not part of this model.
- The aliases of `basic_alias.rb` are not part of this model.
- Problems.Problems.RemoveProblem: the window ends, 180 and 14 days ago at the start of the day, are ActiveSupport date arithmetic over the clock, so they are parameters.
- Triggers.ReplacePlaceholders: `gsub` inserts the rebuilt expression literally. A backslash sequence in it, which Ruby would read as a back-reference, is not interpreted.
- Values.ToI: `String#to_i` is modelled as leading blanks, an optional sign, an optional `0d`/`0D` prefix, then digits with single underscores between them. No other radix prefix is read, since base 10 accepts only `0d`.
- Items.SortItems: `sort_by` is not stable in Ruby. The model's insertion sort is one of the orders Ruby may produce, and so is the input order kept for all-equal keys. Unequal array keys count as incomparable, even where `Array#<=>` would order them element by element.
- Items.DnsItemLabel: the non-ASCII characters of the DNS item's label and report texts appear as the `?` characters of the source file, and so do the texts compared with them.
- Trigger and item data built with `with_indifferent_access`: a string key is taken before a symbol key of the same name, and collisions beyond that are not modelled.
- Hosts.Hosts.CreateOrUpdate: the mutation of the caller's interfaces hash is not modelled. In Ruby, `interfaces[:interfaceid] = interfaceid` (hosts.rb:200) sets the id inside the hash the caller passed as `:interfaces`, and a caller still holding that hash sees it. The model does not return that hash; the updated interfaces appear only as the params of the `hostinterface.update` request. Only the caller's top-level hash, without `:interfaces` and `:templates`, is returned as `after`.
- Hosts.Hosts.UpdateFound: the same gap. It returns the top-level hash only; the interfaces hash given `:interfaceid` in place is not returned.
- Subclassing: each resource class holds a `Protocol.Basic` for its kind instead of inheriting from it. An overriding method has its own member, and the kind selects the overridden descriptors.
