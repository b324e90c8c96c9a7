# Device discovery and user reconciliation, modelled in Dafny

The system watches an MQTT broker for payment devices of one company. When a device announces
itself on `{company}/{serial}/connected`, the discovery script publishes one
`{company}/{serial}/aboutdevice/request` to it at quality of service 2. It then reads the `users`
field of the first `aboutdevice/response` the device sends. A small MQTT helper wraps the broker
client. It learns a device's company code from the device's own `connected` topic. It hands each
incoming message to at most one callback. When no callback applies, it prints the message and
disconnects, or drops a device's own `connected` message.

A separate reconciliation job reads asset rows from a SQL Server stored procedure. For each row it
asks a directory API which employees are registered at the row's site, or at every site of the
row's site group. It then inserts one row comparing the number of serial numbers seen on the bus
with the number the API reported. An earlier draft of the same job is modelled as well, because it
behaves differently.

The model is organised as follows:

- `topic.dfy` (module `Topic`): Python's `str.split('/')` and `'/'.join`, proved inverse to each
  other, and MQTT topic-filter matching with `+` and `#` (MQTT 3.1.1, section 4.7).
- `mqtt_helper.dfy` (module `Mqtt`): the class `MqttHelper`.
  - Its `companyCode` field is updated in place.
  - What it asks of the broker client (subscribe, publish, disconnect) is recorded, in order, as a
    sequence of intents.
- `main.dfy` (module `Discovery`): the discovery script.
  - Its two module-level lists of serial numbers become the fields of the class `Dispatcher`.
  - `Step` is the pure specification of one `on_message` call.
  - `Run` folds `Step` over a sequence of messages.
- `api_handler.dfy` (module `Api`): the directory-API client as pure functions. The HTTP transport
  is a parameter: a function from request body to reply.
- `db_handler.dfy` (module `DbHandler`): the reconciliation job.
  - The class `DatabaseHandler` has the fields the row loop overwrites.
  - The stored procedures are parameters, and so is the connection's availability when saving.
- `db.dfy` (module `DbDraft`): the earlier draft of the job. It is modelled as the code behaves,
  including the ways it fails.
- `wrappers.dfy` and `json.dfy`: `Option`, `Result`, the Python exceptions that matter, and JSON
  values.

The model follows what the code does:

- Discovery de-duplicates on the serial number alone.
- A response is read even if no request was ever sent.
- A failed API call cannot be told apart from a site with no users.
- The inserted difference is the bus count minus the API count.

## Model

| member | source | states |
|---|---|---|
| Topic.Split | main.py:18 | splitting on '/' yields at least one level, and no level contains '/' |
| Topic.JoinSplit | mqtt_helper.py:70 | joining the levels of a split topic with '/' gives the topic back |
| Topic.SplitJoin | main.py:18-20 | splitting the join of one or more separator-free levels gives exactly those levels back |
| Topic.SingleLevel | main.py:18-20 | a topic without '/' splits into the single level itself |
| Topic.MatchesOneWildcardOfThree | main.py:12 | a filter `{a}/+/{b}` matches exactly the three-level topics whose first level is a and last level is b |
| Topic.MatchesOneWildcardOfFour | main.py:13 | a filter `{a}/+/{b}/{c}` matches exactly the four-level topics with those first, third and fourth levels |
| Mqtt.IsOwnConnected | mqtt_helper.py:71 | a topic is an own `connected` topic only if it has exactly three levels: a company, the helper's serial number, and `connected` |
| Mqtt.LearnedCompanyCode | mqtt_helper.py:70-72 | after an own `connected` message, the code is a single level which, joined with the serial number and `connected`, rebuilds the topic; any other message leaves the code unchanged |
| Mqtt.Routing | mqtt_helper.py:66-87 | which callback runs, stated as an if-and-only-if per outcome: the company-code callback (with company code and serial number) only for a decodable own `connected` topic; otherwise the message callback if set; otherwise print and disconnect; an undecodable payload raises; an own `connected` topic with neither callback is dropped |
| Mqtt.SubscribesOwnConnected | mqtt_helper.py:48 | the subscription is made exactly when the company-code callback is set and the serial number is absent (None) or non-empty |
| Mqtt.OwnConnectedFilter | mqtt_helper.py:49 | with no serial number the filter is `+/None/connected`; when the rendered serial number has no '/', the filter splits into `+`, the serial number and `connected` |
| Mqtt.OwnFilterMatchesOwnConnected | mqtt_helper.py:48-49 | the filter `+/{serial}/connected` matches a topic if and only if that topic is a three-level `connected` topic naming the helper's serial number |
| Mqtt.LearnsCompanyFromConnectedTopic | mqtt_helper.py:70-72 | a `{company}/{serial}/connected` message for the helper's own serial number sets the company code to its first level |
| Mqtt.OtherSerialKeepsCompanyCode | mqtt_helper.py:70-72 | a `connected` message naming another serial number leaves the company code unchanged |
| Mqtt.CompanyCodeIsLastTaught | mqtt_helper.py:102-103 | after any run of messages, the company code equals the one taught by the last own `connected` message, or the initial one if no message taught a code |
| Mqtt.MqttHelper.constructor | mqtt_helper.py:12-21 | the helper stores its serial number, company code and callbacks, and has asked nothing of the broker yet |
| Mqtt.MqttHelper.OnConnect | mqtt_helper.py:43-50 | the connect callback runs if it is set; exactly one subscription to `+/{serial}/connected` at quality of service 2 is added, only when the serial number is not '' and the company-code callback is set |
| Mqtt.MqttHelper.OnMessage | mqtt_helper.py:66-87 | the company code becomes the first level of an own `connected` topic and is otherwise kept; the route is `Routing`; a disconnect is recorded exactly when the message is printed |
| Mqtt.MqttHelper.Subscribe | mqtt_helper.py:89-91 | records one subscription with the given filter and quality of service |
| Mqtt.MqttHelper.Publish | mqtt_helper.py:93-97 | records one publication with the given topic, message and quality of service |
| Mqtt.MqttHelper.Disconnect | mqtt_helper.py:99-100 | records one disconnect |
| Mqtt.MqttHelper.GetCompanyCode | mqtt_helper.py:102-103 | returns the stored company code, which `CompanyCodeIsLastTaught` characterises |
| Discovery.UsersField | main.py:28 | a payload that is not JSON raises `JSONDecodeError`; a JSON value that is not an object raises `AttributeError` on `.get`; an object gives the value of its `users` field, or `Null` (Python's None) when the field is absent |
| Discovery.MissingUsersLooksLikeNull | main.py:28 | a missing `users` field reads the same as a `null` one, as Python's `.get` returns None for both |
| Discovery.RequestTopic | main.py:24 | the request topic is the '/'-join of the company, the serial number, `aboutdevice` and `request` |
| Discovery.Step | main.py:16-29 | a list changes only by gaining the topic's serial number, and only when it lacked it; a request or response changes only its own list; anything else changes neither list; the call raises exactly when the topic has fewer than two levels |
| Discovery.FirstConnectedRequests | main.py:22-24 | the first `connected` of a serial number appends it to the request list and requests it under the topic's company code |
| Discovery.RepeatedConnectedIsIgnored | main.py:22 | a `connected` for a serial number already listed changes neither list and publishes nothing |
| Discovery.DedupIgnoresCompanyCode | main.py:19-22 | after one `connected` for a serial number, a `connected` for the same serial number under any company code is ignored |
| Discovery.FirstResponseIsRead | main.py:26-28 | the first response of a serial number is listed and read even if that serial number was never requested; the request list is untouched |
| Discovery.MalformedResponseIsStillListed | main.py:27-28 | a response whose payload is not JSON still lists the serial number, then reports the decode error |
| Discovery.RepeatedResponseIsIgnored | main.py:26 | a second response for a serial number changes nothing |
| Discovery.OtherTopicsAreIgnored | main.py:22-29 | any topic of two or more levels that is neither shape changes nothing and publishes nothing |
| Discovery.SingleLevelTopicRaises | main.py:19-20 | a topic without '/' raises an index error and changes neither list |
| Discovery.RequestTopicAddressesDevice | main.py:24 | the request topic splits into company, serial number, `aboutdevice`, `request` |
| Discovery.Run | main.py:16-29 | successive calls give one report per message, and each list only grows: the lists before the run are prefixes of those after it |
| Discovery.StepKeepsListsDistinct | main.py:22-27 | one call keeps both lists free of repeated serial numbers |
| Discovery.RunKeepsListsDistinct | main.py:7-8 | over any run of messages, both lists stay free of repeated serial numbers |
| Discovery.RequestedAtMostOnce | main.py:22-24 | over any run of messages, a serial number is requested at most once, and not at all if it was already listed |
| Discovery.RespondedAtMostOnce | main.py:26-28 | over any run of messages, the response of a serial number is read at most once |
| Discovery.ConnectedFilter | main.py:12 | the filter is the '/'-join of the company, `+` and `connected` |
| Discovery.ResponseFilter | main.py:13 | the filter is the '/'-join of the company, `+`, `aboutdevice` and `response` |
| Discovery.ConnectedSubscriptionIsDispatched | main.py:12 | every topic delivered under the `{company}/+/connected` subscription is a `connected` topic of that company, and a new serial number on it is requested |
| Discovery.ResponseSubscriptionIsDispatched | main.py:13 | every topic delivered under the `{company}/+/aboutdevice/response` subscription is a response topic of that company, and a new serial number on it is read |
| Discovery.OnConnect | main.py:11-13 | subscribes to the company's `connected` filter and then to its response filter, both at quality of service 2, and to nothing else |
| Discovery.Dispatcher.constructor | main.py:7-8 | both lists start empty |
| Discovery.Dispatcher.OnMessage | main.py:16-29 | the lists and the report are as `Step` specifies; exactly one empty message is published, to `{company}/{serial}/aboutdevice/request` at quality of service 2, when and only when a serial number is requested |
| Discovery.EntryScriptRoutesEverythingToDispatcher | main.py:37 | with the entry script's settings (no serial number, no company-code callback), every decodable message reaches the dispatcher and the helper makes no subscription of its own |
| Api.NewApiHandler | api_handler.py:7-14 | construction succeeds exactly when both settings are present and non-empty, and otherwise fails with `ValueError` |
| Api.EmployerSiteList | api_handler.py:60-70 | one `{employerId, siteId}` object per site id, in order, each carrying the handler's employer id |
| Api.SiteListRoundTrip | api_handler.py:70 | reading the site ids back from the built list gives the input site ids |
| Api.RequestBody | api_handler.py:72-87 | the body has exactly the four fields; it asks about exactly the given site ids; `managerIdList` and `processId` are the fixed values |
| Api.PrepareRequestObject | api_handler.py:82-87 | the look-back window is -1, and the site list is built from the handler's employer id and the given site ids |
| Api.EmployeeIds | api_handler.py:55 | succeeds exactly when every entry has an `employeeId`, and then gives those ids in order, one per entry; otherwise a `KeyError` or `TypeError` |
| Api.FirstEntryWithoutIdDecides | api_handler.py:55 | the first entry without an id decides the exception: `KeyError` for an object, `TypeError` otherwise |
| Api.IdsOfEmployeeList | api_handler.py:55 | iterating a non-list fails only with `KeyError` or `TypeError` |
| Api.ExtractEmployeeIds | api_handler.py:42-58 | a body that is not JSON gives the empty list; a JSON body that is not an object raises `AttributeError`; the only exceptions that escape are `AttributeError` and `TypeError` |
| Api.MissingEmployeeListGivesNothing | api_handler.py:54 | a body without `data`, or without `data.employeeList`, gives the empty list |
| Api.IdsInOrder | api_handler.py:54-55 | for any reply whose `data.employeeList` is a list, whatever other keys it holds: when every employee has an id, the result is those ids in order, one per employee |
| Api.MissingIdGivesNothing | api_handler.py:55-58 | for any reply whose `data.employeeList` is a list: if the first entry without `employeeId` is an object, the whole result is the empty list |
| Api.NonDictEmployeeEscapes | api_handler.py:55-58 | for any reply whose `data.employeeList` is a list: if the first entry without `employeeId` is not an object, a `TypeError` escapes |
| Api.FetchDeviceSerialNumbers | api_handler.py:16-40 | a 200 reply gives the ids read from its body by `ExtractEmployeeIds`; a transport failure or any other status gives the empty list; only `AttributeError` and `TypeError` escape |
| Api.FailureLooksLikeNoUsers | api_handler.py:38-40 | a transport failure and a 200 reply with an empty employee list give the same result |
| DbHandler.SiteIds | db_handler.py:56-57 | one site id per row of the lookup, in order: the row's `siteid` |
| DbHandler.RowSites | db_handler.py:44-48 | a bare-site row gives the single site 0; any other row gives its group's sites; only a failed group lookup fails, and it fails with the database error |
| DbHandler.RowUsers | db_handler.py:36-48 | the exceptions a row can raise are the database error, `ValueError`, `AttributeError` and `TypeError` |
| DbHandler.BareSiteAsksForSiteZero | db_handler.py:44-45 | a row with site 0 and no site group asks the API about the single site 0 |
| DbHandler.OtherRowsUseSiteGroup | db_handler.py:44-48 | every other row, including a non-zero site without a group, asks about its group's sites, or fails with the lookup's database error |
| DbHandler.AfterRow | db_handler.py:40-48 | the asset id is always the row's; the API list becomes the row's answer when there is one, and otherwise keeps its previous value |
| DbHandler.ProcessRows | db_handler.py:26-34 | an empty result leaves both fields untouched; a loop that ends without an exception leaves the last row's asset id |
| DbHandler.LastRowWins | db_handler.py:29-30 | when every row gets an answer, only the last row's asset id and API list remain |
| DbHandler.FirstFailureEndsLoop | db_handler.py:29-34 | the first failing row ends the loop; its asset id is kept, the previous row's API list stays, and its exception is reported |
| DbHandler.Difference | db_handler.py:68 | the difference is positive exactly when the bus saw more serial numbers than the API reported, zero exactly when they agree, and API count plus difference equals the bus count |
| DbHandler.DatabaseHandler.constructor | db_handler.py:8-20 | the asset id starts at 0 and the API list empty |
| DbHandler.DatabaseHandler.GetSiteGroupSites | db_handler.py:50-58 | the `siteid` of every row of the group lookup, in order and one per row; a failed lookup raises the database error |
| DbHandler.DatabaseHandler.ProcessRow | db_handler.py:36-48 | the asset id is always overwritten; the API list is overwritten exactly when the row gets an answer, and otherwise the exception is reported |
| DbHandler.DatabaseHandler.ExecuteStoredProc | db_handler.py:22-34 | a failed asset query is reported and changes nothing; otherwise the fields and the report are those of `ProcessRows`; no exception propagates |
| DbHandler.DatabaseHandler.SaveToDb | db_handler.py:60-76 | the inserted row is (asset id, bus count, API count, difference) in column order, with the bus count equal to the API count plus the difference; a database failure is reported and never propagated |
| DbHandler.Reconcile | db_handler.py:93-95 | with no asset rows the insert records asset 0, API count 0 and the whole bus count as difference; when every row gets an answer it records the last row's asset and answer |
| DbDraft.PrepareEmployerSiteList | db.py:21-29 | one `{employerId, siteId}` object per site id, in order; a single number instead of a list raises `TypeError` |
| DbDraft.PrepareRequestObject | db.py:31-42 | the body asks about exactly the given site ids with look-back window 0; a single number raises `TypeError` |
| DbDraft.DraftAndHandlerAskForSameSites | db.py:31-42 | the draft and the handler ask about the same sites, and their look-back windows differ |
| DbDraft.SaveToDb | db.py:44-51 | a single number raises an uncaught `TypeError`; a transport failure is reported; success is never reported, because an integer status never equals the string "200" |
| DbDraft.DraftRun | db.py:5-19 | never more calls than rows, and exactly one call per row when nothing crashes |
| DbDraft.CollectGroupSites | db.py:16-18 | the list so far followed by the `siteid` of every row of the group lookup |
| DbDraft.ExecuteStoredProc | db.py:5-19 | a failed asset query raises; otherwise the calls made and the exception that ends the script are those of `DraftRun` |
| DbDraft.GroupListsOnlyGrow | db.py:8-19 | the list is never reset: each call's sites extend the previous call's sites |
| DbDraft.GroupSites | db.py:16-18 | the group sites of no rows are empty; the first row's group sites come first |
| DbDraft.CallsRepeatEarlierGroups | db.py:8-19 | with no bare-site row and no failed lookup, the k-th call asks about the sites of every group of rows 0 to k |
| DbDraft.BareSiteRowCrashes | db.py:13-14 | the first bare-site row ends the script with `TypeError` after one call per earlier row |
| DbDraft.NeverReportsSuccess | db.py:48-49 | no call ever reports a successful insert, whatever the API answers |

## Left out

- Connecting to the broker, TLS setup, the client's network loop, waiting for input and `sys.exit`
  (mqtt_helper.py:22-41). Waiting for publish acknowledgements (mqtt_helper.py:93-97). The broker is
  reduced to the recorded sequence of intents.
- `on_disconnect`, `on_subscribe` and `on_publish` of the helper. They only forward to optional
  callbacks or print.
- The product flavour. It selects the broker connection. The helper's constructor also calls
  `upper()` on it (mqtt_helper.py:15), which raises `AttributeError` when no flavour is given.
  Mqtt.MqttHelper.constructor takes no flavour and does not capture that error.
- Mqtt.MqttHelper.OnConnect: the callbacks are reduced to whether they are set, and their effects
  are not run. So the model does not show that the connect callback's own actions come before the
  helper's subscription (mqtt_helper.py:45-49). In the entry script those actions are the two
  subscriptions of main.py:12-13.
- Topics beginning with '$', which MQTT treats specially. The model matches filters level by level
  without that rule.
- Decoding: UTF-8 decoding of payloads, `json.loads` and `response.json()`. Their outcomes are
  inputs (`Mqtt.Text`, `Json.Document`). JSON numbers are integers; floating point is not modelled.
- Printing: what is printed (the `users` value, error messages, pretty-printed JSON) is not
  modelled. Only the choice that leads to printing is.
- The HTTP transport (`requests.post`). It is a function from request body to reply.
- The SQL Server connection and queries. They are functions and row sequences given as inputs.
- pymssql's single pending result set per connection. In the source, the site-group query runs on
  the connection whose asset rows are still being iterated. The model treats the asset rows as an
  independent sequence, so it does not capture any effect of the inner query on the outer loop.
- db.py's printing of each row, including its `SerialNo` column.
- The CSV handler that supplies the bus's serial numbers. The list is a constructor parameter.
- Environment variables and command-line arguments. They are parameters:
  - the settings check of db_handler.py:88-91 is not modelled;
  - the `int()` conversion of the employer id in db.py:61 is not modelled.
- The single-row script api_helper.py. It is a fixed one-off request with nothing to state.
- Uncaught exceptions in a callback: `IndexError` (main.py:20), `JSONDecodeError` or
  `AttributeError` (main.py:28) and `UnicodeDecodeError` (mqtt_helper.py:67). Nothing in the source
  catches them. The model returns them as values, and `Discovery.Run` goes on to the next message.
  What the broker client does with such an exception is not modelled.
- Concurrency: the broker client runs callbacks on its network thread, without locking. Callbacks
  are modelled as sequential calls.
- DbHandler.DatabaseHandler.SaveToDb: the database's availability is a boolean input, so the
  contract does not distinguish a failed connection from a failed insert or commit.
