# Infoblox BloxOne Ansible collection — a Dafny model

This project models the core of the `infoblox.bloxone` Ansible collection.
That core is the part that decides what an Ansible task does with BloxOne DDI
objects:

- **`_is_changed`**: the change detector that decides whether an existing
  object differs from the desired one;
- **the read-only guard**: refuses an update that would alter an immutable
  field;
- **the client cache** on `BloxoneAnsibleModule`;
- **the legacy REST helper** (`Request`, `Utilities`): status classification,
  `normalize_ip`, `flatten_dict_object`, `dhcp_options`, `hostaddresses`,
  `get_router_ip` and `normalize_address`;
- **the `bloxone` lookup plugin** and its filter-URL builder;
- **the legacy modules** `b1_ipam_ipv4_reservation`,
  `b1_ipam_ipv4_reservation_gather` and `b1_ipam_host_gather`;
- **the generated CRUD modules**: `dns_view`, `ipam_ip_space`, `ipam_subnet`,
  `ipam_address_block`, `dns_auth_zone`, `dns_auth_nsg`, `ipam_address`,
  `ipam_host`, `dns_forward_zone`, `dns_delegation` and `infra_join_token`.
  They share one `find` / `create` / `update` / `delete` / `run_command`
  skeleton, with per-resource differences;
- **the `*_info` modules** and their offset/limit paging loop;
- **the three `ipam_next_available_*_info` modules**.

Values are a JSON-like datatype (`Json.Json`). A Python dict is an ordered
association list (`Json.Dict`), because iteration order shows up in the
URLs and filter strings that the source builds.

A Python exception is an explicit outcome (`Outcome.Raises`) or a
`ModuleResult.Crash`, never a precondition. `fail_json` is `ModuleResult.Fail`
and `exit_json` is `ModuleResult.Exit`.

Everything outside the core is a function-typed parameter of the model:

- the HTTP library;
- the vendor SDK's API classes (`Reconciler.Service`, `Info.InfoApi`,
  `NextAvailable.Server`);
- `ipaddress.ip_address`, `ipaddress.ip_network` and `json.loads`.

Each parameter may give any answer its type allows. For the HTTP library
that is any status, any raw content, and a body that may or may not decode
as JSON (`HttpResponse.body` is `None` when it does not).

Two modules are imperative in the source, and are modelled imperatively:

- **Reconciler** (`reconciler.dfy`): `Reconciler.ResourceModule` is a class
  with the module object's mutable state (`existing`, the payload model
  object). Its methods are proved equal to the pure specification
  `Reconciler.RunSpec`.
- **Info** (`info.dfy`): the paging loop in `Info.InfoModule.ListAll` is
  proved equal to `Paging.Collect`.

The other loops follow the same pattern: `ModuleUtils.IsChanged`,
`B1ddi.FlattenDictObject`, `B1ddi.Collect`, `Filters.BuildEndpoint`,
`Reservation.BuildPayload` and `NextAvailable.NextAvailableModule.Find`. Each
is a method with loop invariants, proved against a function. Lemmas then
state what the source promises about that function.

## Model

| member | source | states |
|---|---|---|
| ModuleUtils.IsChanged | plugins/module_utils/modules.py:103-133 | the nested loops with their early break compute exactly the recursive change verdict `Changes` (unchanged / changed / the exception raised on `len` or indexing of a scalar) |
| ModuleUtils.ChangesMatchesDiffers | plugins/module_utils/modules.py:103-133 | on well-shaped inputs the detector never raises, and reports a change iff some non-None payload field is missing from the existing object or differs from it (lists: length or any element; dicts: recursively; scalars: Python equality) |
| ModuleUtils.FieldsMatch | plugins/module_utils/modules.py:114-131 | the loop over payload fields from position j reports a change iff a later field differs |
| ModuleUtils.FieldMatches | plugins/module_utils/modules.py:115-129 | one payload field is a change iff it is not None and differs from the existing value |
| ModuleUtils.ElemsMatch | plugins/module_utils/modules.py:118-125 | element-wise list comparison reports a change iff some pair of elements differs |
| ModuleUtils.NullPayloadUnchanged | plugins/module_utils/modules.py:115 | a payload whose fields are all None never reports a change |
| ModuleUtils.MissingKeyChanged | plugins/module_utils/modules.py:116-117 | a non-None payload key absent from the existing object is a change once earlier keys are unchanged |
| ModuleUtils.OnlyPayloadKeysMatter | plugins/module_utils/modules.py:103-133 | existing fields the payload does not name cannot affect the verdict |
| ModuleUtils.FirstChangeWins | plugins/module_utils/modules.py:130-131 | once a change is found, later payload fields cannot undo it (the break) |
| ModuleUtils.StringListsRaise | plugins/module_utils/modules.py:118-125 | comparing two equal-length lists of strings recurses on strings and raises (a `str` has no `.items()`/keys) |
| ModuleUtils.ReorderedListChanged | plugins/module_utils/modules.py:118-125 | lists are compared by position, so swapping two differing elements is a change |
| ModuleUtils.Changes | plugins/module_utils/modules.py:103-133 | the recursive change verdict; it has no contract of its own: `ModuleUtils.IsChanged` computes it and `ModuleUtils.ChangesMatchesDiffers` ties it to `Differs` |
| ModuleUtils.Differs | plugins/module_utils/modules.py:103-133 | the independent reference definition of a change (a non-None payload field missing or differing); `ModuleUtils.ChangesMatchesDiffers` proves the detector agrees with it on well-shaped inputs |
| ModuleUtils.Guard | plugins/module_utils/modules.py:55-61 | a rejection names a listed field; a cleared body has the body's keys plus the listed fields, every listed field None, and every other key as in the body |
| ModuleUtils.GuardSpec | plugins/module_utils/modules.py:55-61 | the read-only guard clears the body iff every listed field equals the existing value; a cleared body has exactly those fields set to None and the rest unchanged; a rejection names a listed field that differs |
| ModuleUtils.ValidateReadonlyOnUpdate | plugins/module_utils/modules.py:55-61 | the in-place guard either reports the rejected field or rewrites the body object's attributes to the cleared body |
| ModuleUtils.ClientConfig | plugins/module_utils/modules.py:84-100 | the configuration carries client name "ansible", debug on, and the CSP URL and API key with empty strings turned into None |
| ModuleUtils.BloxoneModule.Client | plugins/module_utils/modules.py:45-50 | the client property builds the client from the configuration once and returns the cached one afterwards |
| ModuleUtils.CommonArgumentSpec | plugins/module_utils/modules.py:64-75 | the shared options are exactly `api_key` (no_log, env BLOXONE_API_KEY) and `csp_url` (default https://csp.infoblox.com, env BLOXONE_CSP_URL) |
| ModuleUtils.FullArgumentSpec | plugins/module_utils/modules.py:24-31 | a module's own argument spec is merged over the shared one: its keys win, the shared keys it does not redefine are kept; a None spec leaves the shared one; a missing `argument_spec` keyword raises KeyError |
| B1ddi.Classify | plugins/module_utils/b1ddi.py:44-50 | 200/201/204 return the decoded body as a success; 401 returns the raw content as an error; any other status returns {status, response} as an error; never "changed"; outside 401 a body that is not JSON raises the JSON decoding error, and nothing else raises |
| B1ddi.Request.Issue | plugins/module_utils/b1ddi.py:35-117 | every request goes to base URL + endpoint with header "Token <key>"; a DELETE carries no data, every other verb carries exactly the data it was given |
| B1ddi.BindGet | plugins/module_utils/b1ddi.py:35 | a `get` call binds only with exactly an endpoint and a data argument; with the endpoint alone it raises the TypeError for the missing `data` |
| B1ddi.Request.Call | plugins/module_utils/b1ddi.py:35-124 | a transport exception becomes "API request failed", and only a transport exception does; otherwise the response is classified, so a body that is not JSON raises the decoding error out of the call |
| B1ddi.NormalizeIp | plugins/module_utils/b1ddi.py:134-146 | the address part, when not empty, is the text before the first "/" and is a valid IP; the prefix is a string unless an explicit cidr is returned |
| B1ddi.NormalizeIpRejects | plugins/module_utils/b1ddi.py:136-140 | an invalid address yields ("", "") |
| B1ddi.NormalizeIpExplicitCidr | plugins/module_utils/b1ddi.py:141-146 | an explicit cidr below 32 is returned as is; 32 or more falls back to the unprefixed behaviour |
| B1ddi.NormalizeIpSplits | plugins/module_utils/b1ddi.py:143-144 | "a/b" with a valid `a` is split into address a and prefix b |
| B1ddi.NormalizeIpPlain | plugins/module_utils/b1ddi.py:145-146 | an address without "/" gets the empty prefix |
| B1ddi.NormalizeIpManySlashes | plugins/module_utils/b1ddi.py:143-146 | two or more slashes keep the head and drop the prefix |
| B1ddi.NormalizeIpRejoins | plugins/module_utils/b1ddi.py:134-146 | whenever a prefix is produced, address + "/" + prefix is the input (round trip) |
| B1ddi.FlattenDictObject | plugins/module_utils/b1ddi.py:148-154 | the merging loop computes `Flattened`, raising KeyError / TypeError like Python for a missing key or a non-iterable |
| B1ddi.FlattenLastWins | plugins/module_utils/b1ddi.py:148-154 | in the flattened dict each key holds the value from the last dict that defines it |
| B1ddi.MergeAllLastWins | plugins/module_utils/b1ddi.py:151-153 | merging a sequence of dicts lets the last definition of each key win over earlier ones and the accumulator |
| B1ddi.GetPutAll | plugins/module_utils/b1ddi.py:152-153 | `dict.update` with unique keys overrides exactly the keys it names |
| B1ddi.NormalizeAddress | plugins/module_utils/b1ddi.py:194-212 | an address without "next"/"new" is returned unchanged; one with them whose quote-swapped text is not JSON raises |
| B1ddi.NormalizeAddressOrder | plugins/module_utils/b1ddi.py:198-208 | for a JSON object without next_available_subnet: old_address wins, then new_address, else None |
| B1ddi.Host | plugins/module_utils/b1ddi.py:184-186 | a host number is representable as an IPv4 address iff it lies in 0..2^32-1 |
| B1ddi.DottedQuadSplits | plugins/module_utils/b1ddi.py:184-186 | the text of an IPv4 address splits on "." into its four octets |
| B1ddi.OctetsRebuild | plugins/module_utils/b1ddi.py:184-186 | the four octets are bytes and rebuild the address in base 256 |
| B1ddi.GetRouterIp | plugins/module_utils/b1ddi.py:177-192 | a missing address gives None; a command other than "first"/"last" gives None |
| B1ddi.RouterIpPlain | plugins/module_utils/b1ddi.py:180-188 | for a plain subnet address the router is computed from the parsed network |
| B1ddi.RouterLastOutsideSubnet | plugins/module_utils/b1ddi.py:185-186 | as written, "last" yields network − 2, which lies outside the subnet, or raises below 0.0.0.2 |
| B1ddi.RouterLastValue | plugins/module_utils/b1ddi.py:185-186 | as written, "last" is exactly the host network − 2 |
| B1ddi.RouterLastExample | plugins/module_utils/b1ddi.py:185-186 | for 10.0.0.0/24, "last" is 9.255.255.254 |
| B1ddi.GetRouterIpCorrected | plugins/module_utils/b1ddi.py:177-192 | the corrected router keeps the None cases of the original |
| B1ddi.RouterIp | plugins/module_utils/b1ddi.py:177-192 | a missing address gives None; a success with a command other than "first"/"last" is None; a non-None router is an address string and the command was "first" or "last" |
| B1ddi.RouterCorrectedInSubnet | plugins/module_utils/b1ddi.py:183-186 | corrected: "first" is network + 1 and "last" is broadcast − 1, both strictly inside the subnet |
| B1ddi.UsableRouterInSubnet | plugins/module_utils/b1ddi.py:183-186 | the usable router of a /30 or larger network lies between network and broadcast |
| B1ddi.FindId | plugins/module_utils/b1ddi.py:162-165 | the name lookup finds an id iff some row carries that name, and then returns the id of the first such row |
| B1ddi.Collect | plugins/module_utils/b1ddi.py:156-175 | the nested loops compute `Collected` with the id variable carried over between keys, as written |
| B1ddi.HostAddresses | plugins/module_utils/b1ddi.py:214-229 | host addresses are built by the shared as-written loop |
| B1ddi.HostAddressesStaleId | plugins/module_utils/b1ddi.py:217-227 | as written, an unknown space name reuses the previous key's id |
| B1ddi.UnknownFirstNameRaises | plugins/module_utils/b1ddi.py:217-227 | as written, an unknown name on the first key raises UnboundLocalError (the id local is read before it is assigned) |
| B1ddi.HostAddressesCorrected | plugins/module_utils/b1ddi.py:214-229 | corrected: the output is exactly one {space, address} per key whose space name is known and whose id is truthy, in order |
| B1ddi.HostAddressesCorrectedExample | plugins/module_utils/b1ddi.py:214-229 | corrected: the unknown name is skipped |
| B1ddi.FieldsStepKnown | plugins/module_utils/b1ddi.py:159-173 | over one mapping whose names are all known, the as-written key loop and the corrected one agree |
| B1ddi.EntriesStepKnown | plugins/module_utils/b1ddi.py:158-173 | over mappings whose names are all known, the as-written outer loop and the corrected one agree |
| B1ddi.CollectedKnown | plugins/module_utils/b1ddi.py:156-175 | when every name is in the table, the as-written collection equals the corrected one: the stale id and the UnboundLocalError need an unknown name |
| B1ddi.HostAddressesKnown | plugins/module_utils/b1ddi.py:214-229 | as written, with every IP space name known, the output is exactly one {space, address} per item whose space id is truthy, in order |
| B1ddi.CollectedCorrected | plugins/module_utils/b1ddi.py:156-175 | the corrected collection returns `Expected`: one built item per known, truthy id, in key order |
| B1ddi.EntriesStepCorrected | plugins/module_utils/b1ddi.py:159-174 | the corrected loop over entries appends exactly the expected items |
| B1ddi.FieldsStepCorrected | plugins/module_utils/b1ddi.py:160-174 | the corrected loop over one entry's fields appends exactly the expected items |
| B1ddi.KeyStepCorrected | plugins/module_utils/b1ddi.py:160-174 | the corrected step for one key appends its item iff the name is known |
| B1ddi.ExpectedAppend | plugins/module_utils/b1ddi.py:156-175 | the expected output distributes over concatenated inputs |
| B1ddi.DhcpOptions | plugins/module_utils/b1ddi.py:156-175 | DHCP options are built by the shared as-written loop with the as-written router |
| B1ddi.DhcpOptionValue | plugins/module_utils/b1ddi.py:166-173 | an option carries its value as given unless it is a "first"/"last" router, which carries the computed router address and fails exactly when that computation fails |
| B1ddi.DhcpBuild | plugins/module_utils/b1ddi.py:166-173 | the element builder of `dhcp_options`; no contract of its own: `B1ddi.DhcpOptionValue` and `B1ddi.DhcpBuildsOk` state what it builds and when it fails |
| B1ddi.DhcpBuildsOk | plugins/module_utils/b1ddi.py:166-173 | building options fails only on a router whose address cannot be computed: without router items, or with resolvable routers, every item builds |
| B1ddi.DhcpRouterInSubnet | plugins/module_utils/b1ddi.py:166-173 | corrected: a "first"/"last" router of a subnet with at least two hosts is emitted as an address strictly between its network and broadcast addresses |
| B1ddi.RoutersResolveInSubnet | plugins/module_utils/b1ddi.py:177-192 | corrected: a subnet with at least two hosts resolves both routers |
| B1ddi.DhcpOptionsKnown | plugins/module_utils/b1ddi.py:156-175 | as written, with every option name known and every item building, the output is exactly one option per item whose code is truthy, in order |
| B1ddi.DhcpOptionsCorrected | plugins/module_utils/b1ddi.py:156-175 | corrected: whenever every item builds (in particular when the routers resolve), one {option_code, option_value, type "option"} per known code, in order, routers included |
| Ansible.Finish | plugins/modules/b1_ipam_ipv4_reservation.py:393-396 | an error becomes fail_json "Operation failed", otherwise exit_json with the handler's changed flag; the result is stored under "meta" |
| Filters.ClauseRoundTrip | plugins/lookup/bloxone.py:86-90 | a filter clause starts with "k==" and its value reads back; it is unquoted exactly when the value is a digit string |
| Filters.QuotedClauseRoundTrip | plugins/modules/infra_join_token_info.py:102-103 | a quoted clause starts with "k==" and its quoted value reads back |
| Filters.Clause | plugins/lookup/bloxone.py:86-90 | every clause starts with "k==" (its value is read back by `Filters.ClauseRoundTrip`) |
| Filters.Clauses | plugins/lookup/bloxone.py:86-91 | one clause per filter, in dict order |
| Filters.RenderClauses | plugins/lookup/bloxone.py:85-91 | the rendering loop produces exactly `Clauses` |
| Filters.FilterText | plugins/lookup/bloxone.py:91 | the clauses joined with " and "; no contract of its own: `Filters.FilterTextOne` and `Filters.FilterTextTwo` state it |
| Filters.FilterTextOne | plugins/lookup/bloxone.py:86-91 | a single filter renders as its clause alone |
| Filters.FilterTextTwo | plugins/modules/infra_join_token_info.py:102-103 | two filters are joined by " and " |
| Filters.FieldNames | plugins/lookup/bloxone.py:79-81 | the field list is accepted iff every element is a string, and then yields those strings in order |
| Filters.Endpoint | plugins/lookup/bloxone.py:77-108 | the endpoint starts with the base; with no fields and no non-empty filter it is the base |
| Filters.BuildEndpoint | plugins/lookup/bloxone.py:77-108 | the flag-driven building code produces exactly `Endpoint` |
| Filters.AppendFilter | plugins/lookup/bloxone.py:92-108 | each filter block adds "?" or "&" depending on the fields flag, then the clause text |
| Filters.FilterPart | plugins/lookup/bloxone.py:92-95 | a filter block is empty iff the filter does not contribute; otherwise it starts with "&" after an earlier query parameter and "?" before any, followed by "name=" |
| Filters.EndpointOk | plugins/lookup/bloxone.py:77-108 | the endpoint is base + fields part + filter part + tag-filter part |
| Filters.EndpointWithoutFields | plugins/lookup/bloxone.py:84-108 | without fields both filter blocks are appended with the "after query" flag off |
| Filters.EndpointDoubleQuestionMark | plugins/lookup/bloxone.py:92-108 | as written, filters plus tag filters without fields put two "?" into the URL |
| Filters.EndpointCorrected | plugins/lookup/bloxone.py:77-108 | corrected: fails exactly when the original fails, and agrees with it whenever fields are given or at most one filter block contributes |
| Filters.EndpointCorrectedOneQuestionMark | plugins/lookup/bloxone.py:77-108 | corrected: the URL has one "?" exactly when it has any query part |
| Filters.FilterPartCount | plugins/lookup/bloxone.py:86-108 | a filter block adds one "?" iff it contributes and comes first |
| Filters.FieldsPartCount | plugins/lookup/bloxone.py:79-82 | the fields block adds exactly one "?" when fields are given |
| Lookup.LookupRequest | plugins/lookup/bloxone.py:110-114 | the lookup sends a body-less GET |
| Lookup.GetObject | plugins/lookup/bloxone.py:62-76 | a provider that is not a dict raises; one without both host and api_key gives the "Invalid Syntax for provider" error with status "400" |
| Lookup.GetObjectCall | plugins/lookup/bloxone.py:62-124 | the imperative lookup equals `GetObject` |
| Lookup.MissingCredentialsSendNothing | plugins/lookup/bloxone.py:64-76 | without api_key the HTTP library is never consulted |
| Lookup.GetObjectSends | plugins/lookup/bloxone.py:77-124 | with credentials the request URL is host + "/api/ddi/v1/" + object type + query, and the reply is "API request failed" on a transport exception, otherwise the classified response (which raises on a body that is not JSON) |
| Lookup.Run | plugins/lookup/bloxone.py:133-136 | no terms raises "the object_type must be specified" |
| Lookup.RunWithoutProvider | plugins/lookup/bloxone.py:138-143 | a missing provider keyword gives the provider error with an empty provider |
| Lookup.RunFilterExample | plugins/lookup/bloxone.py:133-143 | a concrete run sends GET host + "/api/ddi/v1/ipam/subnet?_filter=..." with "Token k" |
| Lookup.FilterEndpointExample | plugins/lookup/bloxone.py:86-95 | a name filter is quoted and a digit-only cidr is not |
| Gather.GatherEndpoint | plugins/modules/b1_ipam_ipv4_reservation_gather.py:85-109 | the gather URL starts with the base and is the base when nothing is requested |
| Gather.Gathered | plugins/modules/b1_ipam_host_gather.py:72-102 | a malformed field list raises before any request |
| Gather.GatheredAsWritten | plugins/modules/b1_ipam_host_gather.py:98-101 | as written, every gather raises: the one-argument `get` fails to bind and the handler re-raises with the endpoint text |
| Gather.GatherObjects | plugins/modules/b1_ipam_ipv4_reservation_gather.py:85-115 | the imperative gather equals `Gathered` |
| Gather.GatherMain | plugins/modules/b1_ipam_ipv4_reservation_gather.py:117-138 | any state other than "gather" (including the default "present") finds no handler and crashes calling None |
| Gather.GatherMainOutcome | plugins/modules/b1_ipam_host_gather.py:104-125 | in state "gather", fail iff the reply is an error; never changed; the reply is stored under "meta" |
| Gather.GatherPlain | plugins/modules/b1_ipam_host_gather.py:72-102 | without fields or filters a single GET of the base URL is classified; an error raised by classification (a body that is not JSON) is re-raised with the endpoint text |
| Gather.DefaultStateHasNoHandler | plugins/modules/b1_ipam_host_gather.py:104-125 | the default state crashes both gather modules |
| Gather.ReservationEndpointExample | plugins/modules/b1_ipam_ipv4_reservation_gather.py:93-109 | fields then filters render as "?_fields=address,id&_filter=name=='r1'" |
| Reservation.Bad | plugins/modules/b1_ipam_ipv4_reservation.py:131-177 | an error reply is unchanged and carries the message under "response" |
| Reservation.FirstResult | plugins/modules/b1_ipam_ipv4_reservation.py:138-139 | a reply without "results" has no first result |
| Reservation.FirstOf | plugins/modules/b1_ipam_ipv4_reservation.py:138-139 | a field of the first result exists only when a first result exists |
| Reservation.GetReservation | plugins/modules/b1_ipam_ipv4_reservation.py:131-177 | without a space: a non-single-host address is "Invalid Address", no address lists all; with a space that cannot be found: "Error in fetching IP Space" |
| Reservation.AsCalled | plugins/modules/b1_ipam_ipv4_reservation.py:137 | the connector as the module calls it: every GET raises the missing-`data` TypeError, the other verbs reach the service |
| Reservation.GetReservationAsWritten | plugins/modules/b1_ipam_ipv4_reservation.py:131-177 | as written, a lookup is either a local "Invalid Address" or the arity TypeError; it never reaches the service |
| Reservation.RunAsWrittenIgnoresService | plugins/modules/b1_ipam_ipv4_reservation.py:131-360 | as written, every run has the same outcome whatever the service answers, so no run creates, updates or deletes |
| Reservation.InvalidAddressInSpace | plugins/modules/b1_ipam_ipv4_reservation.py:138-149 | inside a found space a non-single-host address is "Invalid Address" |
| Reservation.PrefixedAddressRefused | plugins/modules/b1_ipam_ipv4_reservation.py:164-173 | an address with a prefix is refused |
| Reservation.PlainAddressQueried | plugins/modules/b1_ipam_ipv4_reservation.py:164-174 | a plain address is looked up with `?_filter=address=='a'` |
| Reservation.Payload | plugins/modules/b1_ipam_ipv4_reservation.py:296-319 | the payload holds the address, a single user name, the comment, the space when known and the tags, and no other key; it fails exactly when the tags do |
| Reservation.PayloadLookups | plugins/modules/b1_ipam_ipv4_reservation.py:314-318 | each payload key reads back its own value |
| Reservation.BuildPayload | plugins/modules/b1_ipam_ipv4_reservation.py:296-319 | the imperative payload build equals `Payload` |
| Reservation.UpdateWith | plugins/modules/b1_ipam_ipv4_reservation.py:198-218 | an update with no existing reservation is "IPv4 address reservation not found"; a found one is PATCHed at /api/ddi/v1/<id> with the payload for the new address; a failing lookup or payload raises |
| Reservation.UpdateReservation | plugins/modules/b1_ipam_ipv4_reservation.py:179-218 | no address raises; a rename text that is not JSON is "Invalid Syntax"; a plain address updates in place |
| Reservation.UpdateRenames | plugins/modules/b1_ipam_ipv4_reservation.py:183-194 | a rename looks up the old address and writes the new one |
| Reservation.NextAvailable | plugins/modules/b1_ipam_ipv4_reservation.py:226-289 | an unparsable next_available_ip request is "Invalid Syntax"; every early stop is an error |
| Reservation.NextAvailableNeedsPrefix | plugins/modules/b1_ipam_ipv4_reservation.py:251-262 | a subnet without a prefix is refused with the "a.b.c.d/e" message |
| Reservation.SubnetParts | plugins/modules/b1_ipam_ipv4_reservation.py:229-230 | text that is not JSON gives no subnet; a subnet's address part is empty or a valid IP, and its prefix is a string |
| Reservation.CreateReservation | plugins/modules/b1_ipam_ipv4_reservation.py:221-330 | without address or space: "Address or IP Space not defined" |
| Reservation.CreateUpdatesExisting | plugins/modules/b1_ipam_ipv4_reservation.py:291-298 | when the reservation already exists, create is update |
| Reservation.CreatePostsNew | plugins/modules/b1_ipam_ipv4_reservation.py:294-319 | otherwise a payload with the space id and normalized address is POSTed |
| Reservation.Upsert | plugins/modules/b1_ipam_ipv4_reservation.py:291-325 | the present path with space and address; no contract of its own: `Reservation.CreateUpdatesExisting` and `Reservation.CreatePostsNew` state its two branches |
| Reservation.DeleteReservation | plugins/modules/b1_ipam_ipv4_reservation.py:332-369 | the three error messages of delete: undefined, incorrect address, not found |
| Reservation.DeleteById | plugins/modules/b1_ipam_ipv4_reservation.py:348-352 | a found reservation is deleted at "/api/ddi/v1/" + its id |
| Reservation.ReservationMain | plugins/modules/b1_ipam_ipv4_reservation.py:371-396 | the module crashes iff its handler raises, fails iff the handler reports an error, and otherwise reports the handler's changed flag |
| Reservation.Handle | plugins/modules/b1_ipam_ipv4_reservation.py:384-390 | the `choice_map` dispatch on state; no contract of its own: `Reservation.ReservationMain` and `Reservation.MissingSpaceFails` state the outcome |
| Reservation.MissingSpaceFails | plugins/modules/b1_ipam_ipv4_reservation.py:371-396 | present/absent without a space fail with "Operation failed" and the undefined message in meta |
| Reconciler.ClearDhcpConfig | plugins/modules/ipam_address_block.py:2365-2368 | the payload object's dhcp_config loses its three abandoned/echo fields in place |
| Reconciler.ResourceModule.constructor | plugins/modules/dns_view.py:3785-3791 | payload parameters are the non-None parameters outside the exclude list, and nothing has been found yet |
| Reconciler.ResourceModule.Find | plugins/modules/dns_view.py:3816-3833 | the imperative find equals `FindSpec` |
| Reconciler.ResourceModule.PayloadChanged | plugins/modules/dns_view.py:3809-3814 | nothing existing means changed; otherwise the change detector on the existing object and payload parameters |
| Reconciler.ResourceModule.Create | plugins/modules/dns_view.py:3835-3840 | in check mode nothing is sent; otherwise the create body is sent |
| Reconciler.ResourceModule.Update | plugins/modules/dns_auth_zone.py:2034-2042 | in check mode nothing is sent; otherwise the read-only guard runs and a cleared body is sent to the existing id |
| Reconciler.ResourceModule.Delete | plugins/modules/dns_view.py:3849-3853 | in check mode nothing is sent; otherwise the existing id is deleted |
| Reconciler.ResourceModule.Act | plugins/modules/dns_view.py:3862-3878 | the decision among create, update, delete and no-op equals `ActSpec` |
| Reconciler.ResourceModule.RunCommand | plugins/modules/dns_view.py:3855-3892 | run_command equals `RunSpec`: the result dict, check-mode early exit, diff, object, id and the "Failed to execute command" message |
| Reconciler.RunModule | plugins/modules/ipam_address_block.py:2485-2790 | the module entry point (address splitting, then run_command) equals `Reconcile` |
| Reconciler.Reconcile | plugins/modules/ipam_address_block.py:2348-2370 | every resource except the address block runs `RunSpec` on its parameters unchanged; an address block whose address cannot be split crashes with the constructor's ValueError |
| Reconciler.SplitAddress | plugins/modules/ipam_address_block.py:2354-2357 | a None address or one without "/" leaves the parameters alone; a split address holds no "/"; no key other than address and cidr changes; a failure is the unpacking ValueError or the `int` ValueError |
| Reconciler.IdentityFilter | plugins/modules/ipam_address_block.py:2405-2408 | there is no filter exactly for an address block without an address; otherwise the filter starts with the quoted clause on the resource's identity key (address, fqdn or name) |
| Reconciler.ReadonlyFields | plugins/modules/ipam_address_block.py:2434 | no read-only field is one of the parameters excluded from the payload |
| Reconciler.PayloadParams | plugins/modules/dns_view.py:3788-3789 | every payload parameter is a parameter with a non-None value outside the exclude list, and there are no more of them than parameters |
| Reconciler.FindSpec | plugins/modules/dns_view.py:3816-3833 | with an id, find either locates or fails; it locates nothing by id only when removing; an ambiguous listing has more than one result; only a non-join-token null page crashes, on `len` |
| Reconciler.ActSpec | plugins/modules/dns_view.py:3835-3878 | check mode never fails, is never rejected and reports no object; a change always has a message; a rejection names a read-only field; a crash is the change detector's; a state neither present nor removing does nothing |
| Reconciler.RunSpec | plugins/modules/dns_view.py:3855-3892 | a crash is `len` of a null page or the change detector's; a find that does not locate never exits successfully; a changed exit carries "msg" |
| ReconcilerLemmas.InitialResultFields | plugins/modules/dns_view.py:3856 | the result starts as changed False, object {}, id None, without msg or diff |
| ReconcilerLemmas.StatusFields | plugins/modules/dns_view.py:3862-3875 | the status part of the result records changed and msg exactly |
| ReconcilerLemmas.ReportedFields | plugins/modules/dns_view.py:3881-3888 | outside check mode the result holds diff {before, after}, object and the existing or created id |
| ReconcilerLemmas.CheckReportedFields | plugins/modules/dns_view.py:3877-3879 | in check mode the result keeps object {} and id None and has no diff |
| ReconcilerLemmas.TailPuts | plugins/modules/dns_view.py:3881-3888 | writing diff, object and id leaves changed and msg alone |
| ReconcilerLemmas.NotFoundOnlyWhenRemoving | plugins/modules/dns_view.py:3817-3824 | a read by id that fails is "not found" only when removing; any other failure fails the run with its status, reason and body |
| ReconcilerLemmas.MatchCounts | plugins/modules/dns_view.py:3825-3833 | a list by identity filter finds one, none, or fails with "Found multiple ..." |
| ReconcilerLemmas.NullPage | plugins/modules/infra_join_token.py:115-137 | a null result list counts as empty for join tokens and crashes `len` for the other resources |
| ReconcilerLemmas.FindIgnoresWrites | plugins/modules/dns_view.py:3816-3833 | find never writes |
| ReconcilerLemmas.PresentMissingCreates | plugins/modules/dns_view.py:3862-3865 | present and missing: created, changed, "<Kind> created", object and id from the answer |
| ReconcilerLemmas.UnchangedWritesNothing | plugins/modules/dns_view.py:3866-3870 | present and unchanged: no write is made, not changed, no msg |
| ReconcilerLemmas.ChangedUpdates | plugins/modules/dns_view.py:3866-3870 | present and changed: updated at the existing id with the guarded body, "<Kind> updated" |
| ReconcilerLemmas.RemovingDeletes | plugins/modules/infra_join_token.py:179-182 | removing an existing object deletes it ("<Kind> deleted", or "JoinToken Revoked") |
| ReconcilerLemmas.RemovingMissingIsNoop | plugins/modules/dns_view.py:3871-3874 | removing a missing object writes nothing and is unchanged |
| ReconcilerLemmas.RevokedTokenKept | plugins/modules/infra_join_token.py:183-185 | revoking an already revoked token writes nothing, is unchanged, and still says "JoinToken Revoked" |
| ReconcilerLemmas.CheckModeWritesNothing | plugins/modules/dns_view.py:3835-3879 | check mode never writes and reports neither diff nor object nor id |
| ReconcilerLemmas.ActCheckAgrees | plugins/modules/dns_view.py:3835-3875 | the decision in check mode has the same changed flag as the real one |
| ReconcilerLemmas.CheckModePredictsChanged | plugins/modules/dns_view.py:3855-3892 | a check-mode run predicts the changed flag of a real successful run |
| ReconcilerLemmas.ReadonlyDistinct | plugins/modules/ipam_address_block.py:2434 | every resource's read-only list is duplicate-free |
| ReconcilerLemmas.ReadonlyChangeRejected | plugins/modules/ipam_address_block.py:2429-2437 | changing a read-only field fails with "<field> cannot be updated" and writes nothing |
| ReconcilerLemmas.RejectedUpdate | plugins/modules/dns_auth_zone.py:2034-2042 | a guard rejection stops the update |
| ReconcilerLemmas.GuardedBody | plugins/modules/dns_auth_zone.py:2038-2039 | with read-only fields unchanged, the update body has them set to None and keeps every other field |
| ReconcilerLemmas.PayloadParamsSpec | plugins/modules/dns_view.py:3788-3789 | payload parameters keep exactly the non-None parameters outside the exclude list |
| ReconcilerLemmas.PayloadParamsGet | plugins/modules/dns_view.py:3788-3789 | one key of the payload parameters reads back per that rule |
| ReconcilerLemmas.UnchangedAgreesOnScalars | plugins/module_utils/modules.py:103-133 | an unchanged verdict means every scalar payload value equals the existing one |
| ReconcilerLemmas.DefaultsAreCompared | plugins/modules/ipam_ip_space.py:2499 | a default-valued parameter is compared like any other, so a differing server value is reported changed |
| ReconcilerLemmas.ChangedActs | plugins/modules/dns_view.py:3866-3870 | a changed or raising verdict never yields an unchanged success |
| ReconcilerLemmas.IpSpaceDefaultExample | plugins/modules/ipam_ip_space.py:2499 | the ddns_client_update default "client" against a server "server" is a change |
| ReconcilerLemmas.CidrQuoting | plugins/modules/ipam_subnet.py:2470 | the subnet filter quotes the cidr, the address-block filter does not |
| ReconcilerLemmas.SubnetWithoutCidr | plugins/modules/ipam_subnet.py:2470 | a subnet without cidr filters on cidr=='None' |
| ReconcilerLemmas.AddressSpaceHead | plugins/modules/ipam_subnet.py:2470 | the identity filter head reads address=='a' and space=='s' |
| ReconcilerLemmas.DelegationIgnoresView | plugins/modules/dns_delegation.py:233-287 | the delegation filter uses only the fqdn, not the view |
| ReconcilerLemmas.DelegationViewsCollide | plugins/modules/dns_delegation.py:233-287 | two delegations with the same fqdn in different views make the run fail with "Found multiple" |
| ReconcilerLemmas.DigitsRoundTrip | plugins/modules/ipam_address_block.py:2355-2358 | the decimal text of a number has that number as its digit value |
| ReconcilerLemmas.SplitAddressSlash | plugins/modules/ipam_address_block.py:2355-2358 | "a/t" with t the decimal text of n is split into address a and integer cidr n |
| ReconcilerLemmas.SplitAddressTwoSlashes | plugins/modules/ipam_address_block.py:2355-2358 | an address with two slashes raises on unpacking |
| ReconcilerLemmas.SplitAddressText | plugins/modules/ipam_address_block.py:2355-2357 | "a/t" becomes address a and cidr `int(t)`, or raises the `int` ValueError when `int` rejects t |
| ReconcilerLemmas.ParseIntDigits | plugins/modules/ipam_address_block.py:2357 | `int` reads a digit string as its decimal value |
| ReconcilerLemmas.SignedDigits | plugins/modules/ipam_address_block.py:2357 | a sign followed by digits reads as the digits' value, negated after "-" |
| ReconcilerLemmas.ParseIntRoundTrip | plugins/modules/ipam_address_block.py:2357 | `int(str(i)) == i` for every integer, negative ones included |
| ReconcilerLemmas.ParseIntSpace | plugins/modules/ipam_address_block.py:2357 | whitespace before or after the text does not change what `int` reads |
| ReconcilerLemmas.ParseIntPlus | plugins/modules/ipam_address_block.py:2357 | "+24" reads as 24 |
| ReconcilerLemmas.ParseIntSpaced | plugins/modules/ipam_address_block.py:2357 | " 24" reads as 24 |
| ReconcilerLemmas.ParseIntMinus | plugins/modules/ipam_address_block.py:2357 | "-8" reads as -8 |
| ReconcilerLemmas.Grouped | plugins/modules/ipam_address_block.py:2357 | "1_6" reads as 16 |
| ReconcilerLemmas.Ungroupable | plugins/modules/ipam_address_block.py:2357 | "1__6", "_16" and the empty text are rejected |
| ReconcilerLemmas.NegativeCidr | plugins/modules/ipam_address_block.py:2354-2357 | "10.0.0.0/-8" passes the constructor with cidr -8: nothing in the module refuses a negative prefix |
| ReconcilerLemmas.DhcpCleared | plugins/modules/ipam_address_block.py:2365-2368 | clearing sets exactly the three dhcp_config fields to None and touches no other key |
| ReconcilerLemmas.NextAvailableBlockCreated | plugins/modules/ipam_address_block.py:2417-2427 | with next_available_id and no address, the address block is created at "<id>/nextavailableaddressblock" |
| Paging.Collect | plugins/modules/dns_view_info.py:2651-2684 | a paging crash happens only when null pages are not empty; a paging failure is the error of some page |
| Paging.CollectBoundIrrelevant | plugins/modules/dns_view_info.py:2670-2681 | the result does not depend on which ending page bounds the loop |
| Paging.CollectStopsAtEnd | plugins/modules/dns_view_info.py:2677-2678 | pages after the first short page are never looked at |
| Paging.CollectStore | plugins/modules/dns_view_info.py:2670-2681 | when the server pages through a store in windows of 1000, the loop returns every object, in order, once |
| Paging.Window | plugins/modules/dns_view_info.py:2670-2681 | a page has at most the limit of 1000 objects |
| Info.PageQuery | plugins/modules/dns_view_info.py:2671-2674 | page k asks for offset k·1000 and limit 1000 |
| Info.InfoModule.ListAll | plugins/modules/infra_join_token_info.py:104-122 | the paging loop equals `Collect` (null pages empty only for join tokens) |
| Info.InfoModule.Find | plugins/modules/dns_view_info.py:2644-2684 | the imperative find equals `InfoFind` |
| Info.InfoModule.RunCommand | plugins/modules/dns_view_info.py:2686-2700 | run_command equals `InfoRun` |
| Info.RunInfoModule | plugins/modules/dns_view_info.py:2702-2720 | the module entry point equals `InfoRun` |
| Info.InfoRun | plugins/modules/dns_view_info.py:2686-2700 | success is never changed and holds only "objects"; a failure carries the page error; check mode returns an empty list |
| Info.DumpsSnoc | plugins/modules/dns_view_info.py:2692-2698 | dumping objects one by one builds the list in order |
| Info.ItemsFilter | plugins/modules/dns_view_info.py:2657 | the filter text exists iff the filters are a dict; an empty dict gives the empty text |
| Info.FixedFilter | plugins/modules/ipam_subnet_info.py:1703-1708 | the fixed filter exists iff the filters are a dict with address, space and cidr, and then starts with "address=='" |
| Info.FilterString | plugins/modules/dns_view_info.py:2655-2659 | without filters the filter string never raises; there is no filter string iff both filters and filter_query are None |
| Info.InfoFind | plugins/modules/dns_view_info.py:2644-2684 | nothing is found by id only when an id is given; with an id, find never fails on a page and lists exactly one object |
| Info.InfoRunCorrected | plugins/modules/dns_view_info.py:2644-2700 | a success is unchanged and holds only "objects"; it differs from the run as written only where that run crashes iterating None; a missing id exits |
| InfoLemmas.RunBoundIrrelevant | plugins/modules/dns_view_info.py:2686-2700 | the run does not depend on the bound of the paging proof |
| InfoLemmas.FindBoundIrrelevant | plugins/modules/dns_view_info.py:2651-2684 | find does not depend on that bound either |
| InfoLemmas.ReadById | plugins/modules/dns_view_info.py:2644-2650 | with an id the run is bounded whatever the listing replies, and the single read decides the result: the object, a not-found read that leaves None for the run to iterate, or the API error |
| InfoLemmas.CorrectedMissingId | plugins/modules/dns_view_info.py:2644-2700 | corrected: a missing id reports an empty object list, for every api; otherwise the corrected run agrees with the run as written |
| InfoLemmas.StoreListing | plugins/modules/dns_view_info.py:2651-2700 | without an id, the run lists every object of the store in order |
| InfoLemmas.NullPage | plugins/modules/infra_join_token_info.py:112-113 | a null first page is an empty listing for join tokens and crashes the other modules |
| InfoLemmas.InheritIgnored | plugins/modules/dns_view_info.py:2644-2700 | the inherit parameter never changes the run |
| InfoLemmas.SameRun | plugins/modules/dns_view_info.py:2651-2700 | two parameter sets with the same id and filter strings give the same run |
| InfoLemmas.CidrUnquoted | plugins/modules/ipam_subnet_info.py:1691-1730 | the subnet and address-block filters leave cidr unquoted, unlike the generic filter |
| InfoLemmas.FixedFilterString | plugins/modules/ipam_address_block_info.py:1657-1696 | those two modules use the fixed address/space/cidr filter |
| InfoLemmas.ViewsFilter | plugins/modules/dns_view_info.py:2651-2669 | the generic filter quotes every value and joins with " and " |
| InfoLemmas.FilterKeys | plugins/modules/ipam_subnet_info.py:1691-1730 | the fixed filter succeeds iff address, space and cidr are all given; other modules join every filter |
| InfoLemmas.FilterQuery | plugins/modules/dns_view_info.py:2657-2662 | without filters the filter_query text is used |
| InfoLemmas.AcceptedFilters | plugins/modules/dns_view_info.py:2716-2719 | under `mutually_exclusive`, a given filter_query or tag_filter_query is used as the filter text, and with an id neither filter string exists |
| NextAvailable.LastSlash | plugins/modules/ipam_next_available_ip_info.py:298-314 | the last "/" found has no "/" after it |
| NextAvailable.LastSlashOf | plugins/modules/ipam_next_available_ip_info.py:298-314 | rsplit on the last "/" returns the head |
| NextAvailable.RSplitHead | plugins/modules/ipam_next_available_ip_info.py:299 | the head of the split is a prefix of the id, and the whole id when it has no "/" |
| NextAvailable.IpEndpoint | plugins/modules/ipam_next_available_ip_info.py:299-312 | an endpoint is chosen only for an id under "ipam/", and it is the address-block, subnet or range next-IP call |
| NextAvailable.RequestOf | plugins/modules/ipam_next_available_ip_info.py:297-314 | the request carries the id and count parameters and the contiguous (IPs) or cidr (blocks, subnets) parameter; only the IP module raises, and for a string id it raises exactly when no endpoint matches, with the unbound-`resp` UnboundLocalError |
| NextAvailable.IpDispatch | plugins/modules/ipam_next_available_ip_info.py:298-314 | an id under address_block, subnet or range picks that API call; any other leaves the response unbound |
| NextAvailable.Output | plugins/modules/ipam_next_available_address_block_info.py:113-119 | address blocks are reported by their address field; the others as whole objects |
| NextAvailable.NextRun | plugins/modules/ipam_next_available_subnet_info.py:1685-1699 | success is never changed and holds only "objects"; check mode returns an empty list |
| NextAvailable.NextAvailableModule.Find | plugins/modules/ipam_next_available_address_block_info.py:86-103 | the loop sends `RequestOf(params)` in every round (`Rounds(server, req)(k) == server(req, k)`: the offset it advances is never sent) and its result equals `Collect` over those rounds; a request that cannot be built raises |
| NextAvailable.NextAvailableModule.RunCommand | plugins/modules/ipam_next_available_address_block_info.py:105-121 | run_command equals `NextRun` |
| NextAvailable.FullAnswerNeverEnds | plugins/modules/ipam_next_available_subnet_info.py:1667-1681 | a server that answers the same full page never lets the loop end |
| NextAvailable.FullThenShort | plugins/modules/ipam_next_available_ip_info.py:294-320 | a full page and then a short one are concatenated |
| NextAvailable.NextRunCorrected | plugins/modules/ipam_next_available_subnet_info.py:1665-1699 | corrected: a single request; success is unchanged and holds only "objects" |
| NextAvailable.CorrectedOneRequest | plugins/modules/ipam_next_available_subnet_info.py:1665-1699 | corrected: the first answer is the output, and it agrees with the original whenever the original ends at once |
| NextAvailable.BlockAddresses | plugins/modules/ipam_next_available_address_block_info.py:105-121 | a short page of blocks is reported as their addresses |
| Json.Get | plugins/module_utils/modules.py:116-117 | dict lookup finds a value iff the key is present |
| Json.Split | plugins/module_utils/b1ddi.py:136 | split yields at least one part and no part contains the separator |
| Json.SplitJoin | plugins/module_utils/b1ddi.py:136-144 | joining the parts of a split with the separator gives back the text |

## Left out

- HTTP transport, TLS, proxies and the vendor SDK's serialization are not modelled. They are parameters (`http`, `Service`, `InfoApi`, `Server`) that may return any answer.
- `ipaddress.ip_address`, `ipaddress.ip_network` and `json.loads` are oracle parameters (`isIp`, `ipNetwork`, `jsonLoads`). Their parsing rules are not modelled. `get_router_ip` is modelled for IPv4 networks only.
- `Request.get` takes an endpoint and a `data` argument. The two gather modules (b1_ipam_host_gather.py:99, b1_ipam_ipv4_reservation_gather.py:112) and the reservation module (b1_ipam_ipv4_reservation.py:137, 152, 174, 176, 238, 263, 277, 301) call it with the endpoint alone. That call raises TypeError, so as written every gather run and every reservation lookup fails before any request (see Findings). The lookup plugin is not affected: it calls the HTTP library itself (plugins/lookup/bloxone.py:114). The rest of the model follows the evident intent: a GET without data.
- Json.IsDigitString: ASCII digits only. Python's `str.isdigit()` also accepts other Unicode digits (superscripts, digits of other scripts), which the model reads as non-digits.
- Reconciler.ParseInt: models Python's `int(text)` over ASCII only: ASCII digits, ASCII whitespace, an optional sign and single underscores between digits. `int` also accepts other Unicode digits and whitespace, which the model rejects.
- ModuleUtils.GuardSpec: compares values with the datatype's structural equality. Python's `!=` also equates numbers of different types (1 == 1.0 == True), which the model does not, since floats are not represented.
- The Python repr of lists and dicts is not modelled. `PyStr` renders a container as "[...]" or "{...}". This affects the text of "Found multiple ..." and filters whose values are containers.
- Ansible's own argument validation (`required_if`, `mutually_exclusive`, `choices`, type coercion) runs before the module code. The model states it only as the predicates `ReconcilerLemmas.Accepted` and `Info.Accepted` (the latter used by `InfoLemmas.AcceptedFilters`), and as the `requires` on `Reservation.ReservationMain` (the `choices` of `state`).
- Documentation strings, `EXAMPLES` and `RETURN`, the doc fragments, and `model_dump` formatting options (`by_alias`, `exclude_none`) are not modelled. Objects are dicts throughout.
- Info.InfoRun: a listing run (no id) terminates only when some page ends the loop. The ghost `last` argument names such a page, and `InfoLemmas.RunBoundIrrelevant` shows the result does not depend on it. A server that never sends a short page is not covered for listing runs. A run by id never lists, so `Bounded` holds for it whatever the replies (`InfoLemmas.ReadById`).
- NextAvailable.NextRun: has the same ghost bound. `NextAvailable.FullAnswerNeverEnds` shows that the loop as written has none when the first answer is full.
- B1ddi.NormalizeAddress: its own contract covers the plain and unparsable cases. The JSON cases are stated in `B1ddi.NormalizeAddressOrder`, and the `next_available_subnet` branch only through its definition.
- Ansible.Finish: models only how the legacy modules turn (is_error, changed, result) into exit_json/fail_json. It does not model Ansible's JSON output.
- Float- and dict-valued module options of the generated modules are not enumerated. Only the fields that the code reads by name are modelled.
- Concurrency and repeated runs against a changing server are not modelled. Each run sees one fixed `Service`.

## Findings

| source | as written | input that shows it | evidently intended | confidence | as-written member | corrected member |
|---|---|---|---|---|---|---|
| plugins/lookup/bloxone.py:92-108 | `_filter` and `_tfilter` each start with "?" unless fields were given | filters {"name": "x"} and tfilters {"env": "y"} without fields give `...?_filter=name=='x'?_tfilter=env=='y'` | the second block starts with "&" | not executed | Filters.EndpointDoubleQuestionMark | Filters.EndpointCorrectedOneQuestionMark |
| plugins/module_utils/b1ddi.py:185-186 | the "last" router is `network_address - 2` | 10.0.0.0/24 gives 9.255.255.254, outside the subnet | `broadcast_address - 1` (10.0.0.254) | not executed | B1ddi.RouterLastExample | B1ddi.RouterCorrectedInSubnet |
| plugins/module_utils/b1ddi.py:217-227 | an unknown name keeps the id found for the previous key | addresses [{"a": "x", "b": "y"}] with only space "a" known puts "y" into space a | skip keys whose name is unknown | not executed | B1ddi.HostAddressesStaleId | B1ddi.HostAddressesCorrectedExample |
| plugins/module_utils/b1ddi.py:159-173 | the same loop in `dhcp_options` reuses a stale option code, or raises UnboundLocalError on the first unknown key | an unknown first option name | skip unknown option names | not executed | B1ddi.UnknownFirstNameRaises | B1ddi.DhcpOptionsCorrected |
| plugins/modules/ipam_next_available_subnet_info.py:1667-1681 | the offset grows but is never sent, so every round repeats the same request | a server answering 1000 results loops forever | one request (the API has no paging here) | not executed | NextAvailable.FullAnswerNeverEnds | NextAvailable.CorrectedOneRequest |
| plugins/modules/b1_ipam_ipv4_reservation.py:137 | `connector.get(endpoint)` passes one argument to `Request.get(self, endpoint, data)` (plugins/module_utils/b1ddi.py:35); the gather modules do the same (b1_ipam_host_gather.py:99) | any gather run, or a reservation lookup with a space | a GET with no data | not executed | Reservation.RunAsWrittenIgnoresService | Reservation.PlainAddressQueried |
| plugins/modules/dns_view_info.py:2644-2650 | a missing id makes find return None, which run_command then iterates | id of a deleted view gives "TypeError: 'NoneType' object is not iterable" | an empty object list | not executed | InfoLemmas.ReadById | InfoLemmas.CorrectedMissingId |
