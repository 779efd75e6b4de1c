# TiTaN: what the panel promises, proved

TiTaN is a proxy panel written in Python (FastAPI). This project models the parts of it whose
behaviour is decided by code alone, and proves what they promise. `dafny verify dfyconfig.toml`
checks everything.

**Links and client files.** The panel spells a user's connection as a share link (`links.dfy`), and
reads links back to write client files (`parser.dfy`). Percent-encoding (`percent.dfy`, RFC 3986
section 2.1), base64 (`base64.dfy`, RFC 4648 sections 4 and 5) and UTF-8 (`utf8.dfy`, RFC 3629) are
modelled with Python's own leniencies. `linkreading.dfy`, `vlesslinks.dfy`, `trojanlinks.dfy`,
`vmesslinks.dfy` and `shadowsockslinks.dfy` prove that each link is read back as the connection it was
built from; `linktexts.dfy` spells links letter by letter, and `foreignlinks.dfy` says what the reader
makes of links the panel did not write. `clientlinks.dfy` treats lists of links and shows what a Hysteria2
link loses.
`tags.dfy` proves the name minting of client files. `yaml.dfy` is the hand-written YAML emitter,
`yamlreader.dfy` a reader written from the grammar (YAML 1.2.2 sections 7.3 and 8.2) for any schema,
`yamlroundtrip.dfy`, `yamlblocks.dfy` and `yamldocuments.dfy` prove exactly which documents survive, and
`yamlschemas.dfy` does so for two readers: the core schema of YAML 1.2 and PyYAML's `safe_load`.

**Two compilers that must agree.** `inbounds.dfy` is the server configuration, `agreement.dfy` the
normalisation and the ports, `serving.dfy`, `realityserving.dfy` and `ssagreement.dfy` the contract of
`app/links.py`, "every link matches an inbound", with the route a client takes: straight to a public
socket, through nginx, or through the single-port fallback. `inboundtags.dfy` keeps the tags apart. `presence.dfy` says who is in the configuration at all,
`routing.dfy` which machine a link dials and which one serves the user.

**Accounting.** `counters.dfy` (resettable counters into deltas), `usage.dfy` (deltas on their way from
the nodes to the main panel), `traffic.dfy` (the hourly index and the daily roll-up).

**Protocols and bounded state.** `reload.dfy` (coalesced reloads), `reconcile.dfy` and `nodesync.dfy`
(full-state pushes with a hash skip), `rotation.dfy` (the short-id grace window), `overlay.dfy` (the
overlay-IP allocator), `subscription.dfy` (subscription bodies and groups).

Code of the original that changes state is a class whose methods are proved equal to a specification
function of the old state; runs are sequences of events over those functions. SHA-256, the JSON codec,
clocks, random ids, key pairs, network outcomes and the order of a set are parameters.

## What turned out not to hold

Each of these is a lemma with its exact condition or a concrete run.

- With a certificate and a fallback port, all WebSocket inbounds wait for a PROXY header, which nginx does
  not send. A WebSocket link then works exactly when the public port is the fallback's, the link says TLS,
  and some user is on raw VLESS with TLS, so that the fallback is there. Any other
  link behind nginx needs the port of the settings to be the one nginx is reached at, and Xray not to take
  that port for itself (`Serving.EntryServed`, with `Serving.OwnedExactly` and `Agreement.NormalPort`).
- No Shadowsocks link reaches its inbound: those inbounds listen on the loopback address, and neither nginx
  nor a fallback hands anyone on to them (`SsAgreement.SsOutOfReach`). On port, method and key a legacy link
  agrees with its inbound exactly when its method is spelled as the list spells it, and all 2022 links agree
  exactly when their users ask for one method (`SsAgreement.LegacySsAgreement`,
  `SsAgreement.AllModernSsAgreement`).
- A link dials a machine that serves the user exactly under a condition on the node rows. It fails for an
  "auto" user while no remote node has been measured or the fastest one cannot be pushed to, and for a user
  assigned to a node that is disabled or has no credential (`Routing.RoutingAgrees`,
  `Routing.UnmeasuredNodeMisroutes`, `Routing.DisabledNodeMisroutes`).
- `reality_sid` can be changed alone through the settings (app/main.py:818-863), and a user can carry a short
  id of their own. Such a link is accepted exactly when the id is one the panel still honours, and without a
  configured Reality name exactly when what stands in for it is the default or an older one
  (`RealityServing.RealityLinkAccepted`).
- A client-file name collides with a fixed name of the file exactly when some entry's cleaned name is
  that name; a link without a name is called `TiTaN` and so shadows the Clash group of that name
  (`Tags.SingboxSelectorResolves`, `Tags.ClashGroupsResolve`, `Tags.UnnamedEntryCollides`).
- The docstring of `dump_yaml` promises that `yaml.safe_load` gives back every document. For every document
  and every reader, it does exactly when no text holds a line break or another character the reader
  refuses, no scalar is one that the reader resolves to something else, no unquoted value ends in `:`, and
  no empty container stands in a list (`YamlDocuments.DumpRoundTrip`). Among texts that start with a letter,
  `safe_load` changes exactly `Yes`, `No`, `On`, `Off`, `True`, `False`, `Null` and these in capitals, and a
  reader of YAML 1.2 exactly the last three words (`YamlSchemas.SafeLetterTexts`,
  `YamlSchemas.CoreLetterTexts`). Dates and clock times are changed by `safe_load` only, `0o7` by YAML 1.2
  only (`YamlSchemas.DatesDiffer`, `YamlSchemas.ClockTimesDiffer`, `YamlSchemas.OctalsDiffer`). A float
  printed without a dot, such as `1e+16`, comes back from `safe_load` as something else
  (`YamlSchemas.SafeFloatsKept`).
- A value written into a query without quoting is read back exactly when it holds no `&`, no `#` and no
  percent escape (`LinkReading.RawValueExactly`); the builders write fingerprints so on raw-TCP links.
- Disabling a raw-TCP user does not take the user out of the configuration (`Presence.DisabledUsers`).
- Whenever a request comes while an earlier loop is there that has not set the flag, the run can go on
  without any failure to a stale file with no loop left (`Reload.OneLoopExactly`,
  `Reload.UnguardedCanGoStale`, and the shortest run in `Reload.OverlapLeavesStaleFile`).
- The hash skip is wrong after a push whose reply is lost, or a manual push, that is followed by an edit
  back: the node keeps the users of the other list (`NodeSync.RevertedEditIsSkipped`). No automatic push
  carries a new Reality key while the users stay the same; after a skip the node has the current key
  exactly if the acknowledged push carried it (`NodeSync.RotationIsSkipped`, `NodeSync.KeyArrivedExactly`).
- As long as every uuid belongs to one user, as with the uuids the panel mints, no synchronisation ever
  fails (`Reconcile.OwnedRunsSucceed`). A payload made otherwise, which gives a stored user's uuid to
  another one, is refused however often it is sent (`Reconcile.StaleRowBlocksForEver`). A name over 64
  characters makes the second of two equal pushes differ from the first (`Reconcile.SyncTwice`).
- The docstring of `_group_members` says "not expired", but the code looks at existence and the enabled flag
  only. A group publishes what the docstring says exactly as long as no enabled member is past its time
  (`Subscription.ExpiryExactly`); the housekeeping pass restores that (`Subscription.SweepKeepsPromise`).
- A day in a report of more than seven days is exact if and only if nothing was flushed in those of its
  hours that have been purged (`Traffic.DayExactly`).
- A Hysteria2 link is read back with port 443 and without its obfuscation password
  (`ClientLinks.Hy2LosesPort`).

## Model

| member | source | states |
|---|---|---|
| `Utf8.DecodeEncode` | app/subfmt.py:54-75 | decoding a text's UTF-8 bytes gives the text back, for every text and either error mode used |
| `Percent.UnquoteQuote` | app/links.py:65-91 | `unquote(quote(s, safe)) == s` for every Unicode text and every safe set the program passes |
| `Percent.UnquoteExactly` | app/subfmt.py:92 | `unquote` leaves a text as it is exactly when the text holds no `%` with two hex digits behind it |
| `Percent.ParseParams` | app/subfmt.py:44-51 | the loop over the query computes the parameter map, later keys winning |
| `Percent.ParamsWith` | app/subfmt.py:44-51 | appending `key=value` to a query sets exactly that parameter |
| `Decimal.ParsePrint` | app/subfmt.py:160-166 | `int(str(i)) == i` |
| `Keys.FieldsUpdate` | app/subfmt.py:132-150 | setting one parameter changes the one field the reader takes from it, and no other |
| `Base64.DecodeEncode64` | app/links.py:271-272 | CPython's lenient base64 decoder inverts the encoder on all bytes |
| `Base64.DecodeUrlNoPad` | app/subfmt.py:70-75 | a url-safe encoding without padding is read back once re-padded |
| `Base64.RegroupNumber` | app/links.py:271-272 | three bytes and their four 6-bit values are the same number, first byte first |
| `SsKeys.SameKey` | app/sskeys.py:12-31 | the link key and the inbound key are the same bytes for 2022 methods and the same text otherwise |
| `SsKeys.PskExactly` | app/sskeys.py:12-18 | the key bytes: 16 or 32 bytes of the digest for each 2022 method by name, the first 16 of the uuid for each legacy one |
| `SsKeys.PskLinkNotEmpty` | app/sskeys.py:12-23 | a link key is empty exactly when no key bytes are derived; for legacy methods, when the uuid is empty |
| `Links.HostParamsText` | app/links.py:65-84 | the list of parts, grown in order and joined, is the parameter text of the specification |
| `Links.AddPart` | app/links.py:65-84 | appending a part to the list is appending a parameter to the joined query |
| `Links.HostParamsExtend` | app/links.py:118-121 | that text behind a query is the query extended parameter by parameter |
| `Links.VmessDict` | app/links.py:139-172 | patching the path into the record for three transports gives the specified record |
| `LinkReading.ReadUri` | app/subfmt.py:78-101 | a URI is taken apart into scheme, credential, host, port, query and name as it was put together |
| `LinkReading.ReadLocation` | app/subfmt.py:156-166 | `host:port` gives back host and port |
| `LinkReading.ReadHostParams` | app/links.py:65-84 | the reader sees exactly transport, host, path, sni, fp, alpn and a pinned mode |
| `LinkReading.ReadRealityTail` | app/links.py:114-119 | the reader sees fingerprint, raw TCP and the flow, and fragment parameters change nothing |
| `LinkReading.ReadAlpnList` | app/subfmt.py:141 | a comma-separated protocol list is read back as the list |
| `LinkReading.RawValueExactly` | app/links.py:111-119 | a value written without quoting at the end of a query is read back exactly when it holds no `&`, no `#` and no percent escape |
| `LinkTexts.VlessXhttpText` | app/links.py:65-136 | the query of an XHTTP link with all its options, parameter names spelled out in order |
| `LinkTexts.VlessRealityText` | app/links.py:103-119 | the query of a Reality link, with Vision exactly if the settings say so |
| `LinkTexts.VlessGrpcText` | app/links.py:122-124 | the query of a gRPC link |
| `LinkTexts.TrojanWsText` | app/links.py:189-193 | the query of a Trojan link over WebSocket |
| `LinkTexts.HysteriaText` | app/links.py:226-234 | the query of a Hysteria2 link, obfuscation password included |
| `ForeignLinks.ReadsAnyParams` | app/subfmt.py:131-153 | for any parameters: which name each property comes from, which second name stands in, and every default |
| `ForeignLinks.ReadsAnyRecord` | app/subfmt.py:101-117 | the same for any vmess record |
| `ForeignLinks.QuotedSsPassword` | app/subfmt.py:121-129 | a percent-encoded Shadowsocks password may be any text |
| `ForeignLinks.NamelessUri` | app/subfmt.py:92 | a URI without a fragment is called `TiTaN` |
| `ForeignLinks.RefusedExactly` | app/subfmt.py:85-153 | which links give no entry, scheme by scheme |
| `ForeignLinks.SpacesIgnored` | app/subfmt.py:80 | spaces around a link do not matter |
| `ForeignLinks.AnyCase` | app/subfmt.py:81-83 | nor does the case of the scheme, and `ss` means Shadowsocks |
| `ForeignLinks.OddLocations` | app/subfmt.py:156-157 | with several colons the host ends at the first one, and without any it is the whole location |
| `VlessLinks.VlessRoundTrip` | app/links.py:94-136 | reading a built VLESS link gives the user's connection, for every transport, security and Unicode name |
| `TrojanLinks.TrojanRoundTrip` | app/links.py:175-193 | the same for Trojan, for any password |
| `VmessLinks.VmessRoundTrip` | app/links.py:139-172 | the same for VMess, for any host, given an invertible JSON codec; the gRPC service travels as the path |
| `VmessLinks.UrlRecord` | app/subfmt.py:54-67 | a record in the URL alphabet without padding is read too, unless its text as it stands decodes to one |
| `ShadowsocksLinks.SsRoundTrip` | app/links.py:196-211 | both Shadowsocks forms give back method and key; a link is refused exactly when its key is empty |
| `ClientLinks.ParseLinks` | app/subfmt.py:175-187 | the loop yields exactly the usable entries and the reasons for the rest |
| `ClientLinks.EveryLinkAccounted` | app/subfmt.py:175-187 | each non-empty link leaves exactly one entry and no skipped line, or exactly one skipped line, with its name and the stated reason, and no entry, in the place its position gives it; an empty link leaves neither |
| `ClientLinks.StatusLinkSkipped` | app/links.py:256-267 | the panel's status link never becomes an outbound, whatever its remark |
| `ClientLinks.Hy2LosesPort` | app/links.py:226-234 | a Hysteria2 link gives back host and password, but port 443 and no obfuscation password |
| `Tags.CandidateInjective` | app/subfmt.py:194-196 | different counters give different candidate names |
| `Tags.TakenBound` | app/subfmt.py:195-197 | no more candidates can be taken than names are in use |
| `Tags.Try` | app/subfmt.py:194-197 | the loop stops at the first free candidate, after at most one try more than names in use |
| `Tags.Minter.Mint` | app/subfmt.py:191-199 | `_tag` returns that candidate and adds exactly it to the used names |
| `Tags.MintAll` | app/subfmt.py:323-328 | the loop over the entries mints one tag per entry, in order |
| `Tags.TagsDistinct` | app/subfmt.py:323-328 | the tags of one file are pairwise distinct |
| `Tags.TagShape` | app/subfmt.py:191-199 | each tag is its own clean name with a counter no larger than its position plus one |
| `Tags.TagsText` | app/subfmt.py:191-199 | no tag holds a special character or a space |
| `Tags.CleanDashes` | app/subfmt.py:192-193 | a name without special characters keeps its first 48 characters, each space turned into a dash |
| `Tags.WithoutSpecialParts` | app/subfmt.py:192 | special characters are dropped part by part, and all else keeps its order |
| `Tags.CleanKeeps` | app/subfmt.py:192-193 | a name that is already clean is kept |
| `Tags.TwinTags` | app/subfmt.py:194-197 | of two links of one name the first keeps it and the second gets `-2` |
| `Tags.Collides` | app/subfmt.py:191-199 | a fixed name is minted exactly when some entry's clean name is that name |
| `Tags.SingboxTags` | app/subfmt.py:323-397 | the selector lists the entry tags in order, and the outbounds are called by the same tags |
| `Tags.SingboxSelectorResolves` | app/subfmt.py:397-416 | every tag in the selector names exactly one outbound, unless an entry is called like a fixed one |
| `Tags.ClashNames` | app/subfmt.py:433-441 | proxies, group members and the last rule's group refer to the entry tags in order |
| `Tags.ClashGroupsResolve` | app/subfmt.py:514-518 | every group member names exactly one proxy, group or policy, unless a proxy repeats a fixed name |
| `Tags.UnnamedEntryCollides` | app/subfmt.py:92 | a nameless link shadows the select group |
| `Yaml.DumpYaml` | app/subfmt.py:580-615 | the loops over entries and items emit the specified text, for every document and indentation |
| `YamlRoundTrip.ScalarShape` | app/subfmt.py:561-577 | every scalar is written on one line, quoted, or as a plain scalar of characters every reader accepts |
| `YamlRoundTrip.ReadEscaped` | app/subfmt.py:575-576 | a quoted text is read back, whatever follows it |
| `YamlRoundTrip.ScalarLine` | app/subfmt.py:561-577 | a scalar alone on its line is neither blank nor an item, and a key exactly when it is unquoted and ends in `:` |
| `YamlRoundTrip.KeyLine` | app/subfmt.py:590-599 | a key is split off at the writer's colon |
| `YamlBlocks.DumpLines` | app/subfmt.py:580-615 | the emitted text, split into lines, is the list of lines of the block, indentation included |
| `YamlDocuments.ReadBlock` | app/subfmt.py:580-615 | a reader of the grammar, with any schema, sees the document with the stated replacements |
| `YamlDocuments.DumpRoundTrip` | app/subfmt.py:580-585 | for every document and every schema: it is read back unchanged exactly when its texts are accepted by the reader, no scalar is ambiguous there, no unquoted value ends in `:`, and no empty container is hidden |
| `YamlSchemas.ValuesKept` | app/subfmt.py:562-567 | both readers give back null, booleans and every integer |
| `YamlSchemas.NumberTextsKept` | app/subfmt.py:571-576 | a text of digits, with or without sign and fraction, stays a text for every reader |
| `YamlSchemas.CoreLetterTexts` | app/subfmt.py:568-577 | among texts that start with a letter, a YAML 1.2 reader changes exactly the stated six words |
| `YamlSchemas.SafeLetterTexts` | app/subfmt.py:568-577 | among texts that start with a letter, `safe_load` changes exactly the stated fourteen words |
| `YamlSchemas.CoreFloatsKept` | app/subfmt.py:566-567 | a YAML 1.2 reader gives back every finite float |
| `YamlSchemas.SafeFloatsKept` | app/subfmt.py:566-567 | `safe_load` gives a finite float back exactly when it was printed with a dot |
| `YamlSchemas.DatesDiffer` | app/subfmt.py:566-577 | every text of the form `2024-01-01` is changed by `safe_load` and kept by a YAML 1.2 reader |
| `YamlSchemas.ClockTimesDiffer` | app/subfmt.py:566-577 | every text of the form `12:30` or `12:30:00` is changed by `safe_load` and kept by a YAML 1.2 reader |
| `YamlSchemas.OctalsDiffer` | app/subfmt.py:566-577 | every text of the form `0o7` is changed by a YAML 1.2 reader and kept by `safe_load` |
| `Inbounds.GenerateInbounds` | app/xray.py:60-437 | the stepwise appends give exactly the specified inbounds, PROXY-protocol flags and fallbacks included, for all users and settings |
| `Inbounds.ApplyToInbounds` | app/tuning.py:331-345 | in place, every inbound gains socket options and sniffing at most, and nothing else changes |
| `Inbounds.TunedExactly` | app/tuning.py:331-345 | which inbounds gain socket options and which gain sniffing, each only if asked for |
| `Inbounds.GenerateConfig` | app/xray.py:437-438 | the finished list, tuned in place, is the specified list with every element tuned |
| `InboundTags.TagsApart` | app/xray.py:60-437 | no two inbounds of the configuration share a tag |
| `Agreement.NormalizeIdempotent` | app/main.py:1271-1295 | normalising twice is normalising once, for all protocols, transports and securities |
| `Agreement.NormalizeKeeps` | app/main.py:1271-1295 | normalising changes nothing exactly when transport and security can be served as they are |
| `Agreement.NormalizeExactly` | app/main.py:1271-1295 | for every input: the transport asked for if it is offered, else WebSocket; "none" only if asked for, Reality only if asked for over raw TCP on neither trojan nor vmess, TLS otherwise |
| `Agreement.NormalFields` | app/links.py:27-36 | the link builders read a normalised user's transport and security as stored, and both are served |
| `Agreement.AdvertisedExactly` | app/links.py:27-36 | the transport and security a link advertises for any user, normalised or not |
| `Agreement.NormalPort` | app/main.py:251-331 | a normalised user off raw TCP dials the port of the settings, or 443 where it is no port; on raw TCP the port of protocol and security |
| `Agreement.OtherPorts` | app/main.py:316-325 | the ports of WireGuard, Hysteria2 and Shadowsocks users |
| `Serving.VlessAgreement` | app/links.py:4 | what the parser reads from a VLESS link reaches an inbound with that protocol, transport, path or service, port and credential, where everyone has the link's flow, exactly when the stated condition on ports, certificate and fallback holds |
| `Serving.TrojanAgreement` | app/links.py:4 | the same for Trojan |
| `Serving.VmessAgreement` | app/links.py:4 | the same for VMess |
| `Serving.EntryServed` | app/xray.py:60-437 | any link that says what a normalised, enabled user's link says is served by the configuration exactly when it is reachable |
| `Serving.OwnedExactly` | app/xray.py:286-394 | the TCP ports Xray takes for itself, for any users, certificate, fallback and keys |
| `Serving.TunedServed` | app/xray.py:438 | tuning the finished list changes nothing about which links are served |
| `Serving.RealityServed` | app/xray.py:369-394 | a Reality user is on the Reality inbound with exactly the link's flow |
| `Serving.HysteriaAgreement` | app/xray.py:396-436 | an enabled Hysteria2 user is known at the port the link names exactly if there is a certificate |
| `RealityServing.RealityLinkAccepted` | app/reality.py:67-88 | a Reality link is served, and its short id and its server name are each accepted there exactly under the stated conditions, after any rotations or none |
| `RealityServing.PublishedIdHonoured` | app/reality.py:91-108 | the published id is honoured before the first rotation and after any number of them |
| `SsAgreement.LegacySsAgreement` | app/xray.py:220-247 | what the parser reads from a legacy link agrees on port, method and key exactly when its method is a known one as spelled |
| `SsAgreement.ModernSsAgreement` | app/xray.py:248-266 | what the parser reads from a 2022 link agrees on port, method and key exactly when the user's method is the one picked |
| `SsAgreement.AllModernSsAgreement` | app/xray.py:248-266 | all 2022 links agree exactly when their users ask for one method |
| `SsAgreement.SsOutOfReach` | app/xray.py:230-266 | every Shadowsocks inbound is a loopback one that nothing hands a caller on to; a public socket stands at the link's port exactly when the fallback was put there |
| `Presence.MentionedUsers` | app/xray.py:60-438 | the configuration has entries for exactly the stated users |
| `Presence.DisabledUsers` | app/xray.py:269-284 | a disabled user is out of the configuration exactly when not on raw TCP |
| `Routing.AutoNode` | app/main.py:1378-1391 | the loop picks the specified node |
| `Routing.AutoIsFastest` | app/main.py:1378-1391 | that node is a fastest measured remote one, the first among equals; none exactly when none is measured |
| `Routing.RoutingAgrees` | app/nodes.py:45-71 | a link dials a machine that serves the user, this panel or a node the user is pushed to, exactly under the stated condition on the node rows |
| `Routing.ServedOnOneSide` | app/nodes.py:154-169 | no user is both served here and pushed to a remote node, and exactly the stated users are one of the two, credentials included |
| `Routing.UnmeasuredNodeMisroutes` | app/main.py:278-316 | an unmeasured remote node leaves an auto user's link at a panel that does not serve the user |
| `Routing.DisabledNodeMisroutes` | app/nodes.py:162-166 | a user assigned to a disabled node gets a link to it, and nobody serves the user |
| `Counters.Stats.GetStats` | app/xray.py:495-548 | per user and direction the deltas are the growth since the last reply, and the reply becomes the new base; a failure changes nothing |
| `Counters.Collect` | app/xray.py:521-533 | the loop adds up each user's counters |
| `Counters.CurrentExactly` | app/xray.py:521-533 | upward bytes are what the items named `user>>>uid>>>traffic>>>uplink` add up to, downward bytes those of `downlink` |
| `Counters.GetStatsIsPoll` | app/xray.py:521-548 | on a reply that lists a world's counters, the deltas of `GetStats` are what a poll of that world reports, and the bases agree again |
| `Counters.DeltasAccount` | app/xray.py:535-548 | over any run of traffic, restarts, polls and failures, reported + unreported + lost = moved, with the loss spelled out |
| `Counters.NeverOverReported` | app/xray.py:535-548 | deltas never add up to more than was moved |
| `Counters.Telescopes` | app/xray.py:535-548 | without a restart they add up to exactly the last polled counter |
| `Usage.NodeProcess.Flush` | app/tasks.py:28-43 | a flush adds the deltas to the pending map, user by user |
| `Usage.NodeProcess.Swap` | app/tasks.py:231 | the swap takes the whole map and leaves an empty one |
| `Usage.MainPanel.AddUserUsage` | app/db.py:416-423 | a row grows by the amounts, and a uid without a row changes nothing |
| `Usage.MainPanel.ApiNodeUsage` | app/main.py:1729-1745 | each existing row grows by the positive amounts reported for it and by nothing else, and the users with a non-zero amount are counted |
| `Usage.UsageConserved` | app/tasks.py:229-232 | over any interleaving, credited + unmatched + dropped + pending + on the wire = measured, per user and direction |
| `Usage.DeliverIsApiNodeUsage` | app/main.py:1729-1745 | a delivered report of measured amounts leaves the columns as merging the clamped report does |
| `Usage.NothingTwice` | app/nodes.py:184-196 | reports never credit more than the nodes measured |
| `Traffic.TrafficTable.AddTraffic` | app/db.py:706-715 | upsert, then delete outside the window, is the specified table |
| `Traffic.IndexAnyClock` | app/db.py:706-715 | with any clock a row holds exactly the flushes of its hour since it was last deleted |
| `Traffic.IndexRefinesHistory` | app/tasks.py:46 | with a clock that never goes back the rows are exactly the flushed hours in the window, each with everything flushed in it |
| `Traffic.DailyTotals` | app/main.py:1644-1655 | the nested loops compute, for each day up to today, the sum of its 24 hourly rows, and the report adds up to the sum over its days |
| `Traffic.DayRow` | app/main.py:1649-1654 | the inner loop sums the 24 cells of one day |
| `Traffic.DailyPartition` | app/main.py:1644-1655 | the daily totals add up to the sum of the rows in the reported stretch, each row counted once, for every number of days |
| `Traffic.DayExactly` | app/main.py:1644-1655 | for every report of 1 to 30 days, a daily total and what was flushed in the purged hours of that day are together what was flushed that day; so the total is exact if and only if the latter is nothing |
| `Traffic.WeekIsExact` | app/main.py:1644-1655 | in reports of up to seven days every daily total is exact |
| `Reload.Reloader.ReloadXray` | app/main.py:1330-1348 | a request counts, and spawns a loop exactly when there is an event loop and no flag |
| `Reload.Reloader.CheckWanted` | app/main.py:1354-1356 | the loop condition takes all wanted work, or ends the loop and clears the flag |
| `Reload.Reloader.FirstStep` | app/main.py:1350-1356 | a loop's first step sets the flag and checks |
| `Reload.Reloader.AfterReload` | app/main.py:1357-1360 | after a reload the loop sleeps if there is work, and ends otherwise |
| `Reload.Reloader.WriteConfig` | app/main.py:1315-1327 | the reload thread leaves the version it read, or, when it fails, the old file |
| `Reload.StepKeepsInv` | app/main.py:1330-1362 | every atomic step keeps the protocol invariant, overlapping loops included |
| `Reload.NoLostReload` | app/main.py:1330-1362 | wanted work always has a loop, and once no loop is left a reload started after the latest request has run to its end |
| `Reload.NextRequestTakesOver` | app/main.py:1338-1345 | work counted outside the event loop is taken up by the next request inside it |
| `Reload.ReloadsBounded` | app/main.py:1354-1356 | reloads plus wanted work never exceed the requests |
| `Reload.StepDecreases` | app/main.py:1350-1360 | every step that is no request brings the loops closer to their end |
| `Reload.QuietRunsEnd` | app/main.py:1350-1360 | without requests every run ends within a bound, and as long as a loop is left it can go on |
| `Reload.OneLoopExactly` | app/main.py:1347-1362 | at most one loop ever exists exactly when every request comes with the flag set or no loop left |
| `Reload.OrderlyRunWritesNewest` | app/main.py:1347-1362 | then, if no reload fails, the file left behind is the newest version asked for |
| `Reload.UnguardedCanGoStale` | app/main.py:1347-1360 | after any run, if a request comes with a loop there and the flag not set, some continuation without failures ends with a stale file and no loop |
| `Reload.OverlapLeavesStaleFile` | app/main.py:1347-1360 | a run of two overlapping reloads that ends with a stale file and no loop |
| `Reconcile.NodeDatabase.Upsert` | app/db.py:329-404 | a row is created or updated as specified, or refused because another row has the uuid |
| `Reconcile.NodeDatabase.WriteUsers` | app/main.py:1700-1717 | the loop over the payload leaves the specified table, also when it fails midway |
| `Reconcile.NodeDatabase.DropUnseen` | app/main.py:1718-1722 | the second loop keeps exactly the users of the payload |
| `Reconcile.NodeDatabase.ApiNodeSync` | app/main.py:1692-1725 | the whole request is the specified reconciliation |
| `Reconcile.SyncedUids` | app/main.py:1700-1723 | after a success the node's uids are exactly the stripped non-empty uids of the entries that have a uuid |
| `Reconcile.SyncedRow` | app/main.py:1706-1717 | non-null fields are the payload's (the flag as 1 or 0, a new name cut to 64), null ones keep their value or get the written-out default, usage and other columns of surviving users are untouched |
| `Reconcile.SucceedsExactly` | app/db.py:44-48 | a request with distinct entries succeeds exactly when no row not yet rewritten holds another entry's uuid |
| `Reconcile.OwnedRunsSucceed` | app/main.py:1700-1723 | over any run of payloads in which every uuid belongs to one user, every request succeeds |
| `Reconcile.StaleRowBlocksForEver` | app/main.py:1706-1723 | payloads that give a stored user's uuid to another user fail every time, and the stored row stays |
| `Reconcile.SyncTwice` | app/db.py:329-404 | applying a payload twice is applying it once exactly when no user with a name over 64 characters is created |
| `NodeSync.HashStore.SyncAll` | app/nodes.py:154-181 | exactly the eligible nodes whose hash differs are pushed to, and exactly the successful pushes store their hash |
| `NodeSync.PushesCarryCurrent` | app/nodes.py:132-147 | a push that starts carries the current list and the current key |
| `NodeSync.AppliedNotOlder` | app/nodes.py:162-180 | with pushes that do not overlap, the list a node processed last is the acknowledged one or a later one |
| `NodeSync.SkipIsSound` | app/nodes.py:112-117 | when nothing was pushed since, a skip means the node holds what a complete reconciliation with the current list leaves |
| `NodeSync.RevertedEditIsSkipped` | app/main.py:1605-1620 | after a lost reply or a manual push, an edit back is skipped although the node holds the users of the other list, not those a reconciliation with the current one leaves |
| `NodeSync.RotationIsSkipped` | app/nodes.py:112-129 | over any run of rotations and automatic pushes while a push would be skipped, nothing is pushed and the node keeps its Reality key |
| `NodeSync.KeyArrivedExactly` | app/nodes.py:112-129 | after a skip with nothing pushed since, the node has the current Reality key exactly if the acknowledged push carried it |
| `Rotation.Reality.AcceptedShortIds` | app/reality.py:67-77 | the loop yields the stored ids without repetitions, never an empty list |
| `Rotation.Reality.RotateShortId` | app/reality.py:91-108 | a rotation stores the last twelve of the kept and minted ids and publishes the first minted one |
| `Rotation.OtherIds` | app/reality.py:105 | the kept ids are all but the new one, in order |
| `Rotation.AcceptedDistinct` | app/reality.py:67-77 | the accepted ids never repeat and contain the stored id and the grace list |
| `Rotation.DedupedGrows` | app/reality.py:67-77 | accepted ids stand in order of first appearance |
| `Rotation.GraceWindow` | app/reality.py:63-77 | over any rotations with fresh ids the accepted list is the last twelve of the history, without repetitions, and contains the published id |
| `Rotation.AcceptedExactly` | app/reality.py:63-77 | an id of the history is accepted exactly when it is one of the last twelve |
| `Rotation.PublishedLifetime` | app/reality.py:91-108 | an id published by a batch of n is accepted exactly as long as at most 12 - n ids were minted since |
| `Overlay.DottedInjective` | app/wg.py:95-98 | different addresses are written differently |
| `Overlay.AddressDotted` | app/wg.py:95-98 | an address is written as four numbers below 256, highest first, that give it back |
| `Overlay.Panel.AllocateIp` | app/wg.py:91-102 | the loop returns the specified address |
| `Overlay.AllocatedIsLeastFree` | app/wg.py:91-102 | read as a number, it is the least free address from the third of the subnet to the last but one, and empty exactly when none is free |
| `Overlay.RoomLeft` | app/wg.py:91-102 | with fewer taken addresses than the subnet has, one is found |
| `Overlay.Panel.EnsureUserKeys` | app/wg.py:105-119 | a missing key or public key brings a new pair, a missing address an allocated one, and the rest is kept |
| `Overlay.AddressesStayApart` | app/wg.py:91-119 | over any run no two users share an address, and every address, read as a number, is in the client range |
| `Overlay.FillTwice` | app/wg.py:105-119 | filling in twice is filling in once |
| `Subscription.BodyRoundTrip` | app/links.py:271-272 | decoding and splitting a body gives the published list exactly when it is not empty and no link runs over a line |
| `Subscription.GroupPayload` | app/main.py:1796-1834 | the loops collect the usable members' links and info links as specified |
| `Subscription.AddMember` | app/main.py:1822-1826 | the inner loop, with its set of seen lines, adds the new non-empty lines |
| `Subscription.GroupLinks` | app/main.py:1822-1826 | no link is empty, repeated or missing, and they stand in order of first appearance |
| `Subscription.GroupBody` | app/main.py:1974-1978 | a client reads from a group's body the info lines and then the non-empty lines of exactly the existing enabled members, none repeated, in the order in which the members bring them, exactly when there is a line and none runs over |
| `Subscription.OneMoreMember` | app/main.py:1816-1826 | one more member leaves the lines of the others in place and puts what is new behind them |
| `Subscription.ExpiryExactly` | app/main.py:1796-1804 | a group publishes the members its docstring promises exactly as long as no enabled member is past its time |
| `Subscription.SweepKeepsPromise` | app/tasks.py:70-74 | after a housekeeping pass every group publishes its existing, enabled, unexpired members |

## Left out

- Lower and upper casing outside ASCII, and non-ASCII digits and underscores that Python's `int()` and
  regular expressions accept.
- The JSON codec is a parameter that is assumed to invert itself on flat records of strings; SHA-256 is a
  parameter about which nothing is assumed, except that the payload hash of the skip has no collisions and
  that a key derivation does not yield nothing.
- VlessLinks.VlessRoundTrip: the uuid must not contain `@`, `?`, `#` or a percent escape, and on raw-TCP
  links the fingerprint must not contain `&`, `#` or a percent escape, because the builder writes both
  without quoting.
- TrojanLinks.TrojanRoundTrip: the same restriction for the fingerprint.
- YamlDocuments.DumpRoundTrip: the reader knows no comments, anchors, flow collections other than `{}` and
  `[]`, multi-line scalars or document markers (a document that is only the text `...`), accepts repeated keys
  and has no limit on the length of a key. Where `safe_load` would fold a text at U+0085, U+2028 or U+2029, the
  modelled reader refuses it. Numbers `safe_load` knows in other notations, dates, `<<` and `=` are values
  known by their spelling only.
- Serving.VlessAgreement: the security of a link behind nginx is terminated at the edge and not compared with
  the inbound. Users on other machines are not served here; see `Routing.RoutingAgrees`. Two public sockets
  configured at one port, of which only one can come up, are not told apart.
- Routing.RoutingAgrees: cutting scheme, path and port off a node's address is not modelled; the host that is
  left is part of the node row.
- NodeSync.SkipIsSound: a push that reaches the node after its caller has given up counts as overlapping.
- Reload.NoLostReload: tasks are not cancelled and the thread pool does not fail. A reload that fails counts as
  done, because the code swallows its errors and does not try again. Three routes write the same file outside
  the protocol: saving settings (app/main.py:866), applying a tuning profile (app/main.py:2124) and rotating
  Reality (app/main.py:2168).
- Reconcile.SyncedRow: payload values have the types the main panel's own rows have.
- Operator profiles enter as the resolved settings they lead to (fragment values, pinned mode, Vision).
- Links for WireGuard. For Hysteria2 the agreement is about port, certificate and credential only; the
  obfuscation password is not part of the inbound modelled.
- Users whose transport and security were not normalised, and distinctness of ports: the code provides neither.
- The other contents of client files (dns, rules, transports of outbounds) and of the server configuration.
- HTTP routes, sessions, the login throttle, probes, geolocation, backups, templates and scripts: no part of
  this model.
