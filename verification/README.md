# restartVM remediation webhook — a Dafny model

`restartVM` (in `v2_functions/index.js`) is a Cloud Function that a health monitor calls when
a machine stops answering. It checks the caller's secret and the reported health signal,
scans every zone of the project for the instance whose external address (the `natIP` of
its first access configuration on its first network interface) is the configured target,
reads that instance's status, resets it if it is running or starts it if it is terminated
or stopped, and answers 200, 403, 404 or 500.

The model replaces the compute API with plain data and turns the handler into one pure
function, `Workflow.RestartVM`, whose result is the reply together with the ordered list of
remote calls issued (`ListZones`, `ListInstances`, `GetInstance`, `ResetInstance`,
`StartInstance`). That makes gate-before-calls, first-match-wins, at-most-one-mutation and
the status-to-action mapping statements about a value.

- `wrappers.dfy` — `Option`, standing for JavaScript's `undefined`.
- `gate.dfy` — the request and the 403 condition: secret comparison on either channel and
  classification of `responseState`.
- `inventory.dfy` — zones, instances and the optional-chained address lookup.
- `locator.dfy` — the zone/instance scan as a recursive function (`Locate`), as the nested
  loops with `break`s (`ScanZones`), and a reference "first match" definition.
- `policy.dfy` — status to action.
- `workflow.dfy` — the service as data, the replies and the handler.
- `properties.dfy` — properties of the handler.

Behaviour kept as the code has it:

- A status other than `RUNNING`, `TERMINATED` or `STOPPED` (or no status at all) issues no
  mutating call and still replies 200 naming the instance.
- Secrets are compared as optional values, as `!==` does: when the configured secret is unset,
  a request lacking either the `x-custom-secret` header or the payload `secret` passes
  authentication (`Properties.UnsetSecretAdmitsMissingChannel`).
- The outer loop stops only on a truthy instance name. A matching instance with an empty name
  ends the scan of its own zone but not of the zone list, so later instances of that zone are
  never considered (`Locator.UnnamedMatchPassesZone`). With non-empty names, which the
  provider guarantees, the scan returns exactly the first match in zone order then instance
  order (`Locator.LocateFindsFirstHit`).
- A failing `get`, `reset` or `start` lands in the catch block ("Failed to perform operation
  on VM"); a `get` that resolves to nothing or to a response without `data` returns early
  ("Failed to fetch instance details"). Both are 500. A failing mutating call still counts
  as issued.

The five replies and their status codes (`Workflow.Reply.Code`) follow the source's
`res.status` calls: `Forbidden` is 403 (line 13), `FetchFailed` is 500 (line 62),
`Completed` is 200 (line 74), `OperationFailed` is 500 (line 77) and `NotFound` is 404
(line 80).

## Model

| member | source | states |
|---|---|---|
| Gate.Classify | v2_functions/index.js:12 | a `responseState` is accepted exactly when it starts with "Reporting Error" or equals "Not Responding" or "Request Timeout"; the accepted text is the rendering of the signal it is parsed into |
| Gate.ClassifyRender | v2_functions/index.js:12 | every signal's text is accepted and parsed back to the same signal, so the three accepted shapes never overlap |
| Gate.Authenticated | v2_functions/index.js:7-11 | with a configured secret, a request authenticates exactly when one of the secrets it carries equals it; with none configured, exactly when the header or the payload secret is missing |
| Gate.Admits | v2_functions/index.js:11-12 | a request gets past the gate exactly when a channel equals the configured secret and the signal is one of the three accepted texts |
| Inventory.NatIP | v2_functions/index.js:35 | the address is present exactly when a first interface, its first access config and that config's `natIP` all exist, and is then that `natIP` |
| Inventory.Matches | v2_functions/index.js:37 | an instance matches exactly when its whole address chain is present and ends in the target address |
| Locator.FirstMatch | v2_functions/index.js:33-42 | the inner loop breaks at the first instance of a zone whose address is the target; none before it matches, and no break means no instance of the zone matches |
| Locator.Settles | v2_functions/index.js:44 | a zone ends the outer loop exactly when its first matching instance has a non-empty name |
| Locator.Locate | v2_functions/index.js:29-47 | the scan yields an in-range, matching, named instance that is the first match of its zone, and every earlier zone has no named first match; it yields nothing exactly when no zone has one |
| Locator.ScanZones | v2_functions/index.js:26-47 | the nested loops with both `break`s leave a truthy instance name exactly when the scan finds one, holding that instance's name and zone, having listed the zones up to and including its zone, or all zones otherwise |
| Locator.LocateFindsFirstHit | v2_functions/index.js:29-47 | with non-empty names the scan returns the first matching instance in zone order then instance order, any such first match is what it returns, and it returns nothing exactly when no instance matches |
| Locator.FirstHitUnique | v2_functions/index.js:37-45 | at most one instance is the first match, so the instance acted on is determined by the inventory |
| Locator.UnnamedMatchPassesZone | v2_functions/index.js:38-46 | for any zone whose first match has an empty name, the scan from that zone equals the scan from the next zone, and the hit never lies in that zone |
| Locator.EmptyNameSkipsRestOfZone | v2_functions/index.js:38-46 | an example of the rule above: a named second match in the same zone is skipped and the scan lands on the next zone |
| Locator.AbsentAddressNeverMatches | v2_functions/index.js:35-37 | an instance missing its first network interface, its first access configuration or its `natIP` is a non-match |
| Locator.ZoneWithoutItemsNeverSettles | v2_functions/index.js:31 | a zone without `items` is an empty zone (via `Inventory.Items`) and never ends the scan |
| Workflow.ListCallsPrefix | v2_functions/index.js:29-45 | stopping the zone loop after `k` zones issues exactly the first `k` `instances.list` calls of the full scan, in zone order |
| Policy.Decide | v2_functions/index.js:67-71 | reset exactly for "RUNNING", start exactly for "TERMINATED" or "STOPPED", no action for every other or absent status |
| Workflow.Remediate | v2_functions/index.js:57-78 | the located instance is fetched first; a failed or data-less fetch is the only call; a reset follows only a "RUNNING" status and a start only "TERMINATED" or "STOPPED", both on that instance; the reply is 200 naming it or one of the two 500 replies |
| Workflow.RestartVM | v2_functions/index.js:11-81 | 403 exactly when the gate refuses, with no call issued; every admitted request starts by listing zones; 404 exactly when admitted and the scan finds nothing |
| Properties.RefusedBeforeAnyCall | v2_functions/index.js:11-14 | 403 exactly when neither channel carries the secret or the signal is none of the accepted texts, and then no remote call of any kind is made |
| Properties.EitherChannelAuthenticates | v2_functions/index.js:11 | with an accepted signal the request passes the gate exactly when the header or the payload secret equals the configured one |
| Properties.OnlyAcceptedSignalsPass | v2_functions/index.js:12-13 | with a matching secret the request is refused exactly when the signal is none of the three accepted shapes |
| Properties.UnsetSecretAdmitsMissingChannel | v2_functions/index.js:7-11 | with no configured secret, a request lacking the header or the payload secret, with an accepted signal, is never refused |
| Properties.NotFoundAfterFullScan | v2_functions/index.js:29-80 | when the scan finds nothing the reply is 404 after listing every zone, with no fetch and no mutation; with named instances 404 happens exactly when no instance has the target address |
| Properties.ActsOnFirstMatch | v2_functions/index.js:29-58 | with named instances the calls are the zone listing up to the first match's zone, then a fetch of that first match, and every mutation targets it |
| Properties.StatusDecidesMutation | v2_functions/index.js:65-74 | after a successful fetch: RUNNING gives exactly one reset, TERMINATED or STOPPED exactly one start, anything else none; the reply is 200 naming the instance unless the chosen call fails |
| Properties.FailedFetchNoMutation | v2_functions/index.js:58-62 | a fetch that fails or returns no data is followed by no reset or start, and the reply is 500 |
| Properties.MutationNeedsFreshStatus | v2_functions/index.js:57-71 | every reset or start targets the located instance of an admitted request, a reset only after its fetch returned "RUNNING", a start only after "TERMINATED" or "STOPPED" |
| Properties.ServerErrorCases | v2_functions/index.js:57-78 | the reply is 500 exactly when the instance was located and the fetch failed, returned no details, or the chosen reset or start failed |
| Properties.AtMostOneMutation | v2_functions/index.js:49-78 | every request issues at most one mutating call, and it comes immediately after a fetch of the same instance |
| Properties.RunningInstanceScenario | v2_functions/index.js:8-74 | a payload secret "S", no header, "Not Responding" and one running instance at the target give one reset and a 200 naming the instance |
| Properties.UnacceptedSignalScenario | v2_functions/index.js:11-14 | the same request with signal "ok" gives 403 and no remote call, whatever the inventory |

## Left out

- Client setup, credentials and the `auth` object (lines 1-2, 16-18): library calls with no logic.
- Logging and JSON stringification (lines 5, 59, 73, 76): output only.
- HTTP plumbing: the reply is modelled as its status code plus which of the five bodies it
  carries (the 200 body's instance name is kept).
- Failures of `zones.list` or `instances.list` and a missing `zonesResponse.data.items`
  (lines 23-24, 30): they are outside the `try` and crash the function, so the model's
  input cannot express them; the zone list is always a successful listing.
- An absent `responseState` with a passing secret would make `startsWith` throw (line 12);
  `responseState` is a required string.
- `async`/`await`: the flow is sequential and is modelled as function composition.
- The project id and the target address are hard-coded placeholders in the code (lines
  20-21); the target address is a configuration parameter here and the project id is dropped.
- A `get` for an instance absent from the service's detail table is treated as a failing
  call; the real provider answers such a request with an error.
- Concurrent reports for the same instance: each call of the handler is independent and
  nothing is shared between requests.
