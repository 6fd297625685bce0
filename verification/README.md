# k8s_api in Dafny

This project models `k8s_api`, a CoreDNS plugin that shares one set of
Kubernetes informers among several consumer plugins. It also models the two
example consumers that ship with it.

- **Registry** (`k8s_api/setup.go`, `k8s_api/controller.go`)
  - Every plugin in the server block that implements `APIWatcher` names the
    watches it wants.
  - The registry keeps the first factory declared for each name and builds
    one informer per name.
  - It hands every informer's lister to every consumer through
    `SetIndexer`, then gives each consumer a `HasSynced` predicate over the
    names that consumer declared itself.
  - The shared controller has a stop channel that closes at most once, and
    an aggregate sync gate polled by the startup hook.
  - The `k8s_api` configuration block (`endpoint`, `tls`, `kubeconfig`,
    `namespaces`) is parsed into a `KubeAPI`. A `namespaces` line panics,
    because `New` leaves the namespace map nil.
- **kubernetes example** (`examples/kubernetes`)
  - The DNS controller takes its listers by name and checks their kind.
  - It answers typed list and index queries from them.
  - It records a modification timestamp on add and delete. On update it
    records one only when the resource versions differ and, for Endpoints,
    when the subsets differ in a way DNS can see.
  - The example also declares its watches, the five index functions and the
    list options its watches send (pods are filtered by phase).
- **podnames example** (`examples/podnames`)
  - This consumer declares no watch and borrows the `pod` indexer.
  - It answers A and AAAA questions for `name.namespace.zone`, and reverse
    names with PTR records.
  - Its configuration is the zone list and a `ttl` between 0 and 3600.

Go's dynamically typed store values are the sum type `Objects.Item`.
A lister handle (`Store.Handle`) is described by the answers it gives to
`List`, `GetByKey` and `ByIndex`.

The following Go behaviours are made explicit:
- A Go panic is the `Panics` arm of `Wrappers.Run`.
- Go's random map iteration order is an explicit `order` input,
  constrained to list every key exactly once.
- The clock, the sync state of informer controllers, host normalisation
  and the DNS helper functions are all parameters.

`Registry` is generic in the consumer type. `Consumers` instantiates it
with the two example plugins.

The handler is modelled twice, because `examples/podnames/handler.go`
has two defects, both listed under Findings:
- `ServeDNSAsWritten` is the code as written. It cuts the zone at its first
  occurrence, and its reverse lookups select the value type `object.Pod`.
- `ServeDNS` is the corrected handler. It strips the zone as a suffix, and its
  reverse lookups select `*object.Pod`, the type the pod index holds.

Both share the routing (`RouteOf`) and everything after the zone strip
(`ForwardFrom`). Lemmas state where the two handlers differ.

## Model

| member | source | states |
|---|---|---|
| Registry.Merge | k8s_api/setup.go:55-69 | The merged names are exactly the names some watcher plugin declares. Each name maps to the factory of the first plugin that declares it, in the order `Handlers()` returns the plugins. |
| Registry.MergeSkipsNonWatchers | k8s_api/setup.go:58-59 | A plugin that does not implement APIWatcher contributes nothing to the merge. |
| Registry.OwnNamesMerged | k8s_api/setup.go:55-69 | Every watch name a consumer declares is among the merged names. So the sync closure never looks up an informer that was not built. |
| Registry.BuildInformers | k8s_api/setup.go:70-79 | One informer per merged name, built by that name's winning factory. |
| Registry.SetIndexers | k8s_api/setup.go:83-88 | SetIndexer is called for each informer in map order with that informer's lister. The first error stops the loop, and the failing call is the last one made. For a consumer whose watch names do not change, those names are unchanged afterwards. |
| Registry.Wire | k8s_api/setup.go:80-100 | On success there is one result per plugin, and it is a wired watcher exactly when the plugin is a watcher. |
| Registry.WireHandsSharedListers | k8s_api/setup.go:80-100 | Every SetIndexer call goes to a watcher plugin. It passes the lister of the informer it names. |
| Registry.WireSuccess | k8s_api/setup.go:80-100 | After successful wiring, every watcher was given every informer without failure. It then got a sync predicate over its own watch names. |
| Registry.WireAbortsOnError | k8s_api/setup.go:83-87 | A SetIndexer error ends the wiring: it is the last call made, and no earlier SetIndexer call failed. |
| Registry.GetAPIWatchers | k8s_api/setup.go:43-104 | A client error is returned before any call. On success, the controller is valid and not shut down, it holds one informer per merged name built by the first declarer's factory, and every plugin keeps its watcher status. |
| Registry.GetAPIWatchersSharesListers | k8s_api/setup.go:76-88 | Every SetIndexer call during setup passes the lister built for the name it carries. Consumers asking for the same watch share one informer and one handle. |
| Registry.GetAPIWatchersSuccess | k8s_api/setup.go:80-100 | On success, every watcher received every merged informer's lister and no call failed. For consumers whose watch names do not change, each got a sync predicate over exactly its own names, all of which were built. |
| Registry.GetAPIWatchersAborts | k8s_api/setup.go:80-88 | Whatever the map orders, setup fails exactly when some SetIndexer call failed. That failing call is the last call made. |
| Registry.SetIndexersSucceed | k8s_api/setup.go:83-88 | If every consumer accepts every informer's lister, the SetIndexer loop of one consumer succeeds. |
| Registry.WireSucceeds | k8s_api/setup.go:80-100 | If every consumer accepts every informer's lister, wiring all plugins succeeds. |
| Registry.GetAPIWatchersSucceeds | k8s_api/setup.go:43-104 | With a client, setup succeeds whenever every consumer accepts the lister built for every merged watch. |
| Registry.Startup | k8s_api/setup.go:107-129 | The startup hook returns setup's error, or nil. With a controller it reports ready exactly when some tick before the timeout saw every informer synced. |
| ApiControl.NewApiControl | k8s_api/setup.go:71-75 | A new controller holds the given informers, is not shut down, and its stop channel is open. |
| ApiControl.Stop | k8s_api/controller.go:38-51 | The first Stop closes the channel and returns nil. A later Stop returns "shutdown already in progress" and changes nothing. The informers are never touched. |
| ApiControl.StopOnlyOnce | k8s_api/controller.go:38-51 | Any number of Stop calls never panic by closing the channel twice. On a controller that is not shut down, exactly the first returns nil, and every later one reports shutdown in progress. |
| ApiControl.HasSynced | k8s_api/controller.go:61-69 | The result is true exactly when every informer's controller has synced, whatever the iteration order. It is true with no informers. |
| Watcher.Eval | k8s_api/setup.go:89-97 | A consumer's sync closure is true exactly when every watch it declared has synced. It is vacuously true for a consumer with no watches. |
| KubeController.SetLister | examples/kubernetes/controller.go:76-106 | The service, pod and endpoints listers must be Indexers ("expected Indexer"), and the namespace lister a Store ("expected Store"). An accepted lister replaces only its own field. Unknown names are accepted and ignored. |
| KubeController.IndexerAcceptedAsNamespaceStore | examples/kubernetes/controller.go:97-102 | An Indexer is accepted where a Store is asked for. |
| KubeController.HasSynced | examples/kubernetes/controller.go:112-118 | The result is false until a sync function is set. After that it is the function's answer. |
| KubeController.ServiceList | examples/kubernetes/controller.go:120-130 | The services listed are exactly the `*Service` items of the store. Other types are skipped. |
| KubeController.ServiceListKeepsOrder | examples/kubernetes/controller.go:120-130 | Listing preserves store order and multiplicity: a store made of two parts lists the first, then the second. |
| KubeController.EndpointsList | examples/kubernetes/controller.go:132-142 | The endpoints listed are exactly the `*Endpoints` items of the store. |
| KubeController.EndpointsListKeepsOrder | examples/kubernetes/controller.go:132-142 | Listing preserves store order and multiplicity: a store made of two parts lists the first, then the second. |
| KubeController.IndexedAsKeepsOrder | examples/kubernetes/controller.go:144-218 | All five index accessors share this shape. An index answer made of two runs yields the accepted items of the first run, then those of the second, so index order and duplicates are kept. |
| KubeController.PodIndexKeepsOrder | examples/kubernetes/controller.go:144-157 | The pods come out in index order, with duplicates kept. |
| KubeController.SvcIndexKeepsOrder | examples/kubernetes/controller.go:159-172 | The services come out in index order, with duplicates kept. |
| KubeController.SvcIndexReverseKeepsOrder | examples/kubernetes/controller.go:174-188 | The services come out in index order, with duplicates kept. |
| KubeController.EpIndexKeepsOrder | examples/kubernetes/controller.go:190-203 | The endpoints come out in index order, with duplicates kept. |
| KubeController.EpIndexReverseKeepsOrder | examples/kubernetes/controller.go:205-218 | The endpoints come out in index order, with duplicates kept. |
| KubeController.PodIndex | examples/kubernetes/controller.go:144-157 | A ByIndex error gives nil. Otherwise the result is exactly the `*Pod` items under that IP in the "PodIP" index. |
| KubeController.SvcIndex | examples/kubernetes/controller.go:159-172 | A ByIndex error gives nil. Otherwise the result is exactly the `*Service` items under the key in "NameNamespace". |
| KubeController.SvcIndexReverse | examples/kubernetes/controller.go:174-188 | A ByIndex error gives nil. Otherwise the result is exactly the `*Service` items under the IP in "ServiceIP". |
| KubeController.EpIndex | examples/kubernetes/controller.go:190-203 | A ByIndex error gives nil. Otherwise the result is exactly the `*Endpoints` items under the key in "EndpointNameNamespace". |
| KubeController.EpIndexReverse | examples/kubernetes/controller.go:205-218 | A ByIndex error gives nil. Otherwise the result is exactly the `*Endpoints` items under the IP in "EndpointsIP". |
| KubeController.GetNamespaceByName | examples/kubernetes/controller.go:220-233 | The result is the first namespace in list order with that name. The error "namespace not found" is returned exactly when no listed namespace has that name. |
| KubeController.DetectChanges | examples/kubernetes/controller.go:239-261 | A same-version pair is a resync and changes nothing. Only the timestamp can change, and only to now. Services and pods are always recorded. Endpoints are recorded exactly when not equivalent, and other kinds are ignored. It panics exactly on a non-meta.Object pair, or on Endpoints paired with nil or another type. |
| KubeController.AddDeleteRecordNow | examples/kubernetes/controller.go:235-236 | Add and Delete change only the timestamp, and Modified then reads the current time. |
| KubeController.ModifiedNotMonotone | examples/kubernetes/controller.go:334-338 | The timestamp is the clock reading, not a maximum: a clock that goes back moves it back. |
| KubeController.EndpointsResyncThenChange | examples/kubernetes/controller.go:239-261 | An Endpoints update with a new version but the same subsets records nothing. A changed address IP is then recorded. |
| Equivalence.SubsetsEquivalent | examples/kubernetes/controller.go:267-304 | Two subsets are equivalent exactly when their address (IP, hostname) lists and port (name, port, protocol) lists are equal position by position. |
| Equivalence.EndpointsEquivalent | examples/kubernetes/controller.go:306-327 | Two Endpoints are equivalent exactly when both are non-nil and their subset views are equal. It is false for nil, and false when the subset counts differ. |
| Equivalence.EndpointsEquivalentPairwise | examples/kubernetes/controller.go:320-326 | Equivalence is exactly equal subset counts with each pair of subsets equivalent. |
| Equivalence.EndpointsEquivalentIsEquivalence | examples/kubernetes/controller.go:306-327 | On non-nil Endpoints the relation is reflexive, symmetric and transitive. |
| Equivalence.OtherFieldsIgnored | examples/kubernetes/controller.go:267-304 | Node names, target references, version, name and index do not affect equivalence. |
| Equivalence.AddressChangeDetected | examples/kubernetes/controller.go:281-289 | A change of any one address IP breaks equivalence. |
| KubeApiWatcher.PodIPKeys | examples/kubernetes/apiwatcher.go:100-106 | Only a `*Pod` is accepted, with its IP as the single key. Anything else gives errObj. |
| KubeApiWatcher.SvcIPKeys | examples/kubernetes/apiwatcher.go:108-118 | Only a `*Service` is accepted. Its keys are the cluster IP followed by the external IPs in order. |
| KubeApiWatcher.SvcNameNamespaceKeys | examples/kubernetes/apiwatcher.go:120-126 | Only a `*Service` is accepted, with its namespace/name index as the single key. |
| KubeApiWatcher.EpNameNamespaceKeys | examples/kubernetes/apiwatcher.go:128-134 | Only an `*Endpoints` is accepted, with its namespace/name index as the single key. |
| KubeApiWatcher.EpIPKeys | examples/kubernetes/apiwatcher.go:136-142 | Only an `*Endpoints` is accepted, and its keys are its flattened address list. |
| KubeApiWatcher.IndexFuncsRejectWrongKind | examples/kubernetes/apiwatcher.go:100-142 | Every index function refuses namespaces, pod values and foreign types with errObj. |
| KubeApiWatcher.ServiceIPKeysGrowWithExternalIP | examples/kubernetes/apiwatcher.go:108-118 | Adding an external IP adds exactly that key to the service's IP keys. |
| KubeApiWatcher.Informers | examples/kubernetes/apiwatcher.go:16-90 | "service" and "namespace" are always declared, "pod" exactly with initPodCache and "endpoints" exactly with initEndpointsCache. The table fixes each watch's resource, selector, indexers, handlers and lister kind. |
| KubeApiWatcher.IndexersMatchResource | examples/kubernetes/apiwatcher.go:16-90 | Every index function installed on a watch accepts exactly that watch's object type. |
| KubeApiWatcher.PodFieldSelector | examples/kubernetes/apiwatcher.go:154-166 | The caller's field selector is kept as a prefix. A comma separates it from the phase filter only when it is non-empty, and the phase filter ends the result. |
| KubeApiWatcher.PodFieldSelectorRoundTrip | examples/kubernetes/apiwatcher.go:159-162 | The caller's field selector can be recovered from what is sent. |
| KubeApiWatcher.ListOptionsFor | examples/kubernetes/apiwatcher.go:144-186 | A non-nil selector replaces the label selector. Only pod watches change the field selector. |
| KubeApiWatcher.SetIndexer | examples/kubernetes/apiwatcher.go:92-94 | SetIndexer is SetLister on the controller, with its error passed through. |
| KubeApiWatcher.HasSyncedAfterSetHasSynced | examples/kubernetes/apiwatcher.go:96-98 | Once a sync function is set, the controller's HasSynced is exactly that function. Before, it is false. |
| KubeApiSetup.AddNamespaces | k8s_api/setup.go:186-194 | Writing to the nil map panics. An existing map gains exactly the arguments. |
| KubeApiSetup.ApplyDirective | k8s_api/setup.go:159-197 | `endpoint` needs 1 argument, `tls` 3 and `kubeconfig` 2, or the result is ArgErr. `namespaces` needs at least one. Any other name is an unknown property. |
| KubeApiSetup.ApplyDirectiveSucceeds | k8s_api/setup.go:159-197 | From New, one directive succeeds exactly when it is well formed, and `namespaces` never succeeds. |
| KubeApiSetup.ApplyBlockSucceeds | k8s_api/setup.go:157-200 | A stanza succeeds exactly when every directive in it is well formed. |
| KubeApiSetup.ApplyDirectiveFields | k8s_api/setup.go:161-185 | A successful directive sets only its own fields, from its arguments in order. |
| KubeApiSetup.LastEndpointWins | k8s_api/setup.go:161-167 | The API server is the argument of the last `endpoint` line, or unchanged when there is none. |
| KubeApiSetup.LastTlsWins | k8s_api/setup.go:168-174 | The certificate, key and CA come from the last `tls` line, in that order. |
| KubeApiSetup.LastKubeconfigWins | k8s_api/setup.go:175-185 | The client config takes its path and context from the last `kubeconfig` line. |
| KubeApiSetup.Parse | k8s_api/setup.go:136-154 | No stanza gives nil and no error. The first stanza's error is returned. A second stanza after a good one is ErrOnce. |
| Strconv.Atoi | examples/podnames/setup.go:83-86 | Success happens exactly for an optional sign followed by at least one digit whose signed decimal value fits in 64 bits. The result is that value. An error carries the input. |
| Strconv.AtoiAcceptsSignAndLeadingZeros | examples/podnames/setup.go:83-86 | `+5` reads as 5, `007` as 7 and `-0` as 0. |
| Strconv.AtoiItoa | examples/podnames/setup.go:83-86 | Every 64-bit integer written in decimal is read back. |
| Strconv.AtoiRejectsNonNumbers | examples/podnames/setup.go:83-86 | A bare sign, or any non-digit after the first character, is refused. |
| PodNamesPlugin.Informers | examples/podnames/api_watcher.go:10 | podnames declares no watch. |
| PodNamesPlugin.SetIndexer | examples/podnames/api_watcher.go:12-22 | Names other than "pod" are ignored. A pod lister that is not an Indexer is "unexpected lister type". Otherwise the handle becomes the pod indexer, and zones and ttl are kept. |
| PodNamesPlugin.LastPodIndexerKept | examples/podnames/api_watcher.go:12-22 | After any run of accepted SetIndexer calls, the pod indexer is the last handle given under "pod", or unchanged without one. |
| PodNamesSetup.Zones | examples/podnames/setup.go:60-72 | The zones are the stanza's arguments when it has any, else the server block keys, each normalised, in order. |
| PodNamesSetup.ApplyDirective | examples/podnames/setup.go:76-94 | `ttl` without an argument is ArgErr. A non-number gives the Atoi error. A value outside [0, 3600] is out of range. Any other name is an unknown property. Success keeps the zones and indexer. |
| PodNamesSetup.ApplyBlockSucceeds | examples/podnames/setup.go:76-94 | A block succeeds exactly when every line is a `ttl` with an in-range number. |
| PodNamesSetup.LastTtlWins | examples/podnames/setup.go:76-94 | After a successful block the ttl is the value of the last `ttl` line, or unchanged without one. |
| PodNamesSetup.ParsedTtlInRange | examples/podnames/setup.go:57-97 | Every accepted stanza has a ttl in [0, 3600], 5 when no `ttl` line is given, and no pod indexer yet. |
| PodNamesSetup.Parse | examples/podnames/setup.go:36-55 | No stanza gives nil. The first stanza's error is returned. A second stanza is ErrOnce. |
| GoStrings.Index | examples/podnames/handler.go:60 | `strings.Index` is the first position where the text occurs, or -1 exactly when it occurs nowhere. |
| GoStrings.Split | examples/podnames/handler.go:61 | `strings.Split` gives at least one piece, and no piece contains the separator. |
| GoStrings.JoinSplit | examples/podnames/handler.go:61 | Joining the pieces of a split gives back the input. |
| GoStrings.SplitJoin | examples/podnames/handler.go:61 | Splitting a join of separator-free pieces gives back the pieces. |
| GoStrings.SplitSingle | examples/podnames/handler.go:61-64 | A string splits into more than one piece exactly when it holds the separator. |
| PodNamesHandler.Write | examples/podnames/handler.go:103-109 | The reply is written. A write error gives SERVFAIL with that error, otherwise the result is success. |
| PodNamesHandler.ReversePodsAsWritten | examples/podnames/handler.go:37-41 | The code as written selects exactly the items stored as `object.Pod` values. |
| PodNamesHandler.ReverseAsWrittenMissesPointers | examples/podnames/handler.go:37-41 | On a store of `*object.Pod`, the selection as written is empty. |
| PodNamesHandler.ReversePods | examples/podnames/handler.go:37-41 | The corrected selection is exactly the items stored as `*object.Pod`. |
| PodNamesHandler.ReversePodsKeepsAll | examples/podnames/handler.go:37-49 | On a pod index every stored pod is selected, in index order. |
| PodNamesHandler.ReverseOnPodIndex | examples/podnames/handler.go:31-41 | On an index filled by the pod IP index function, ByIndex succeeds. The selection as written is empty, and every pod the corrected one selects has the queried IP. |
| PodNamesHandler.PtrRecords | examples/podnames/handler.go:42-49 | There is one PTR per pod, in order, each pointing at name.namespace.<first zone>. |
| PodNamesHandler.Reverse | examples/podnames/handler.go:28-57 | The address is extracted from the name as sent. A nil indexer panics. A ByIndex error gives SERVFAIL with that error. Every other outcome is an answer. A written reply is not authoritative and holds only PTR records for the question name with the plugin's ttl. The type assertion of line 38 is a parameter. |
| PodNamesHandler.SubdomainAsWritten | examples/podnames/handler.go:60 | The code as written keeps what precedes the character before the first occurrence of the zone text. It panics exactly when that occurrence is at position 0 or missing. |
| PodNamesHandler.FirstOccurrenceMisreadsName | examples/podnames/handler.go:60-64 | For pod `ab` in namespace `c` under zone `b.`, the code as written reads the empty name, and the lookup finds no key. The corrected stripping gives `ab.c` and key `c/ab`. |
| PodNamesHandler.RootZoneMisreadsName | examples/podnames/handler.go:60-64 | Under the root zone `.`, the code as written reads `web.ns.` as `we`, which has no key, so every forward question is NXDOMAIN. The corrected stripping gives `web.ns` and key `ns/web`. |
| PodNamesHandler.ZoneApexPanicsAsWritten | examples/podnames/handler.go:60 | A question for the zone apex panics in the code as written. |
| PodNamesHandler.Subdomain | examples/podnames/handler.go:60 | The corrected strip gives a prefix of the question name. For a non-empty zone it is shorter than the name, or empty. |
| PodNamesHandler.SubdomainStripsZone | examples/podnames/handler.go:60 | For `sub.zone`, the corrected stripping gives exactly `sub`. For the apex it gives the empty name. |
| PodNamesHandler.SubdomainStripsRoot | examples/podnames/handler.go:60 | Under the root zone `.`, `sub.` strips to exactly `sub` when `sub` has no trailing dot. |
| PodNamesHandler.LookupKey | examples/podnames/handler.go:61-65 | A key exists exactly when the name has a dot. |
| PodNamesHandler.LookupKeyOfPodName | examples/podnames/handler.go:61-65 | `name.namespace`, with or without further labels, looks up `namespace/name`. |
| PodNamesHandler.Answers | examples/podnames/handler.go:82-101 | There is at most one record, for the question name with the plugin's ttl and the pod's address. It is an A exactly for an IPv4 address on an A question. It is an AAAA exactly for any parsable address on an AAAA question. |
| PodNamesHandler.AaaaForIPv4Pod | examples/podnames/handler.go:92-101 | An AAAA question for an IPv4 pod is answered with an AAAA record holding that IPv4 address. |
| PodNamesHandler.ForwardFrom | examples/podnames/handler.go:61-110 | A name without two labels is NXDOMAIN, and a nil indexer then panics. A GetByKey error is SERVFAIL with that error, a missing key NXDOMAIN, and an item that is not `*object.Pod` SERVFAIL with "unexpected indexer item type". A written reply is authoritative. |
| PodNamesHandler.Forward | examples/podnames/handler.go:59-110 | With the corrected strip: a name without two labels is NXDOMAIN and a nil indexer then panics. A lookup error is SERVFAIL with that error, a missing key NXDOMAIN, and a non-pod item SERVFAIL with "unexpected indexer item type". A written reply is authoritative. |
| PodNamesHandler.ForwardAsWritten | examples/podnames/handler.go:59-64 | With the slice of line 60: no occurrence of the zone text, or one at position 0, panics. A remaining name without two labels is NXDOMAIN. |
| PodNamesHandler.ForwardAsWrittenAgreesOnSuffix | examples/podnames/handler.go:59-60 | When the zone text first occurs as the suffix of a name below the apex, after a dot, both forward branches give the same result. |
| PodNamesHandler.RouteOf | examples/podnames/handler.go:19-28 | A question goes to the next plugin exactly when it is not A/AAAA or matches no zone. Otherwise reverse names go to the reverse branch, and all other names go to the forward branch under the matched zone. |
| PodNamesHandler.ServeDNS | examples/podnames/handler.go:17-110 | The corrected handler. Exactly non-A/AAAA questions (PTR included) and names outside the zones go to the next plugin. A success was written, with no error. |
| PodNamesHandler.ServeDNSAsWritten | examples/podnames/handler.go:17-110 | The handler as written delegates exactly the questions the corrected one delegates. A success was written, with no error. |
| PodNamesHandler.ApexQuestionPanicsAsWritten | examples/podnames/handler.go:59-64 | A forward A/AAAA question for the zone apex panics as written. The corrected handler answers NXDOMAIN. |
| PodNamesHandler.ReverseAsWrittenAnswersNothing | examples/podnames/handler.go:28-57 | On the pod index the kubernetes consumer installs, every reverse question gets an empty successful reply as written. |
| PodNamesHandler.ForwardAnswersStoredPod | examples/podnames/handler.go:59-110 | A question for `name.namespace.zone` (`name.namespace.` under the root zone) is answered from the entry stored under `namespace/name`. A failed lookup is SERVFAIL with its error, a missing entry NXDOMAIN, an entry of another type SERVFAIL, and a pod gets its address records. |
| PodNamesHandler.ReverseAnswersIndexedPods | examples/podnames/handler.go:28-57 | A reverse question answered by the pod index gets one PTR per indexed pod, in order, pointing at name.namespace.<first zone>. |
| Consumers.ConsumersStable | k8s_api/setup.go:89-97 | Handing either example consumer a lister never changes the watches it declares. So the sync closure, which asks again, sees the same names. |
| Consumers.ConsumersAcceptListers | examples/kubernetes/controller.go:76-106 | When each informer builds the lister kind its watch declares, both consumers accept every merged lister. |
| Consumers.PodNamesBorrowsPodIndexer | examples/podnames/api_watcher.go:12-22 | With kubernetes (pod cache on) and podnames in one server block, setup succeeds. Both consumers are handed the one pod Indexer built from the kubernetes pod watch. |

## Findings

| source | as written | input that shows it | evidently intended | confidence | as-written member | corrected member |
|---|---|---|---|---|---|---|
| examples/podnames/handler.go:60 | The zone is cut at its first occurrence, `qname[0 : strings.Index(qname, zone)-1]`. | Pod `ab` in namespace `c`, zone `b.`: the name `ab.c.b.` reads as the empty name and answers NXDOMAIN. The apex `b.` itself panics (slice bound -1). Under the root zone `.`, `web.ns.` reads as `we`, so every forward question is NXDOMAIN. | Strip the matched zone suffix and its separating dot, so `ab.c.b.` looks up `c/ab`, `web.ns.` under `.` looks up `ns/web`, and the apex is NXDOMAIN. | medium, not executed | PodNamesHandler.SubdomainAsWritten, used by PodNamesHandler.ServeDNSAsWritten (PodNamesHandler.FirstOccurrenceMisreadsName, PodNamesHandler.RootZoneMisreadsName, PodNamesHandler.ApexQuestionPanicsAsWritten) | PodNamesHandler.Subdomain, used by PodNamesHandler.ServeDNS (PodNamesHandler.SubdomainStripsZone, PodNamesHandler.SubdomainStripsRoot, PodNamesHandler.ForwardAnswersStoredPod) |
| examples/podnames/handler.go:38 | Reverse answers assert the value type `object.Pod`. | Any reverse question: the "PodIP" index holds only `*object.Pod` (its index function refuses anything else), so the answer is always empty. | Assert `*object.Pod`, as the forward path does at line 72. | high, not executed | PodNamesHandler.ReversePodsAsWritten, used by PodNamesHandler.ServeDNSAsWritten (PodNamesHandler.ReverseAsWrittenAnswersNothing) | PodNamesHandler.ReversePods, used by PodNamesHandler.ServeDNS (PodNamesHandler.ReverseAnswersIndexedPods) |

## Left out

- `k8s_api/kubeapi.go` (client configuration, `InitKubeCache`) is context, not core. `New` is modelled only as a KubeAPI with zero fields and a nil namespace map.
- The client-go informer machinery is outside the repository: listing, watching, resync and the contents of the stores. A lister is an arbitrary `Store.Handle`, and informer construction is the parameter `build`.
- Goroutines, the stop-lock mutex, the atomic load and store of `modified`, and `apiControl.Run` are not modelled. Each operation is one atomic step.
- The startup ticker and the 5-second timeout are reduced to a finite sequence of sync observations.
- The DNS wire format is reduced to the question and the answer section. `SetReply`, header fields and the packing of addresses are not modelled.
- The following CoreDNS, miekg/dns and net package functions are parameters: zone matching, `IsReverse`, `ExtractAddressFromReverse`, `ParseIP` (seen through `To4` and `To16`), and `WriteMsg`.
- What the next plugin does with a delegated query is not modelled, including `NextOrFailure` when no next plugin exists.
- Caddy's token dispenser is not modelled: plugin registration, `plugin.Error` wrapping, the `Errf`/`ArgErr` message text, and arguments on the `k8s_api` line itself. A stanza is its arguments and block directives.
- The metrics call in the endpoints processor (`recordDNSProgrammingLatency`) and the object conversion (`object.To*`) are not modelled.
- Strconv.Atoi: does not separate Go's syntax error from its range error; both are an error carrying the input.
- KubeController.DetectChanges: assumes that an `object.Pod` value does not implement `meta.Object`, because its accessors have pointer receivers. The object package is not part of this model.
- KubeController.AddDeleteRecordNow: `modified` is an unbounded integer; the int64 width of Unix seconds is not modelled.
- PodNamesSetup.ApplyDirective: the ttl is kept as an integer. The uint32 conversion is lossless for the accepted range [0, 3600].
- GoStrings.Split: only single-character separators are modelled, which is the only form the handler uses.
- PodNamesHandler.ServeDNS: composes the corrected zone strip and the corrected reverse selection (see Findings). The code as written is `PodNamesHandler.ServeDNSAsWritten`.
- PodNamesHandler.Forward: uses the corrected suffix strip. The slice of line 60 as written is `PodNamesHandler.ForwardAsWritten`.
- KubeController.SetLister: the error text stops at "expected Indexer" or "expected Store". The `, got %v` rendering of the refused handle is not modelled, because Go's formatting of a lister value is outside the repository.
- KubeController.ServiceList, EndpointsList, PodIndex, SvcIndex, SvcIndexReverse, EpIndex, EpIndexReverse and GetNamespaceByName require their lister to be set. Calling one on a nil lister is a nil dereference panic in Go, and that case is not modelled.
