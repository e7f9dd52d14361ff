# OpenProxifier core: a verified model

OpenProxifier captures outbound packets, decides per process whether each flow goes direct, is blocked
or is proxied, redirects proxied TCP flows to a local proxy, and tunnels them through a SOCKS5 or HTTP
proxy server. This project models the engine in `core/`, the second SOCKS5 client in `hookdll/` and the
command-line notation in `cli/`, and proves what they promise.

The arrays, linked lists and buffers that the engine changes in place are real heap objects here. Every
method on them is proved equal to a function on values, and the theorems about whole runs are lemmas
about those functions.

| file | content |
|---|---|
| `CTypes.dfy`, `CStrings.dfy`, `Lists.dfy` | machine integers, the proxy record, `atoi`, `strtok` and the other text functions, shapes of linked lists |
| `ProbeTables.dfy` | the open-addressed caches with bounded probing and expiry |
| `ConnectionTracker.dfy`, `RuleEngine.dfy`, `RulePatterns.dfy` | the two linked lists, and the pattern languages of a rule |
| `RuleMeaning.dfy` | what a list of rule texts means, and that the engine computes it |
| `PacketPipeline.dfy`, `PacketProcessor.dfy` | one packet with and without caches, and the processor object |
| `PacketRuns.dfy`, `PacketLaws.dfy` | whole runs: caching is invisible, redirection and its reply; what becomes of a packet, said of its header fields |
| `CacheHistory.dfy`, `CacheLimits.dfy` | where cache entries come from, how long they outlive a change, and how many there can be |
| `Sockets.dfy`, `Socks5.dfy`, `HttpConnect.dfy` | a socket against an arbitrary peer, both SOCKS5 clients, the protocol monitor, the HTTP client |
| `LocalProxy.dfy`, `Tunnels.dfy`, `EndToEnd.dfy` | accepting, serving and relaying, the two relay threads under any schedule, and the path from packet to proxy request |
| `UdpRelay.dfy`, `SessionLife.dfy` | ownership and lifetime of the relay's sessions |
| `ProxyEngine.dfy`, `Cli.dfy` | start and stop, the command-line notation |

Operating-system answers (process tables, process names, ticks, socket calls, thread creation,
allocation) are parameters without constraints, so every statement holds for all of them. One packet
sees one tick value. The caches work on 32-bit ticks; runs carry unbounded time.

## What turned out differently

- A decision is cached even when the system knows no owner for the socket, so "a fast-path packet was
  decided for a nonzero process id" is false. `CacheHistory.FastPathOnUnknownOwner` is a two-packet run
  that shows it. `CacheHistory.FastPathWasDecidedDirect` says exactly when it holds: as the deciding
  packet arrived, the system knew the owner of its socket or the table of process ids held a live answer.
- A decision may rest on a process id that is itself 29999 ticks old, so lifetimes add up: after a rule
  or an owner changes, packets can meet the old one for 89998 ticks and, until ages wrap, no longer.
  `CacheHistory.OldConfigurationLingers` and `CacheHistory.ConfigurationTakesEffect` are the two sides.
- Wrapped tick subtraction measures age modulo 2^32, so an entry untouched for 49.7 days looks new:
  `ProbeTables.AncientEntryAnswers`. An entry that looks fresh is fresh exactly when its true age is
  below 2^32 (`ProbeTables.FreshUnlessAncient`).
- A UDP session that is idle for 120001 ticks is closed by the next sweep only until its age wraps; for
  120000 ticks from 2^32 on it outlives sweeps again (`SessionLife.AncientSessionStays`).
- The hash of a socket does not depend on its port, which is shifted out of the bits that are kept
  (`CacheLimits.PortsCollide`). So the table of 512 process ids holds at most eight sockets of one address
  and protocol, and a ninth is not remembered (`CacheLimits.EightSocketsPerAddress`,
  `CacheLimits.NinthSocketIsDropped`). Decisions are not affected: `PacketRuns.CachingIsInvisible`.
- The hook's SOCKS5 client sends credentials it has not offered when a username is configured without
  requiring authentication and the server assigns that method all the same.
  `Socks5.HookKeepsToProtocol` says that it keeps to the protocol exactly in all other configurations;
  hookdll/HookManager.cpp:226-230 sets a username only where authentication is required.
- The 512-byte buffer of the core SOCKS5 client is too small exactly for a username and a password of
  255 bytes each (`Socks5.BufferSuffices`, `Socks5.LongestCredentialsOverflow`). The code writes past it
  when, in addition, the server assigns method 2 (`Socks5.Undefined`); nothing is promised of that
  conversation. The 63-byte fields of a proxy record never meet the case. The HTTP client cuts its
  credentials text at 511 bytes instead.
- The IPv4 hook client refuses a reply of 4 to 9 bytes that the core client accepts, as
  `Socks5.ShortReplyDivides` shows on one server. `Socks5.ClientsAgreeOnIPv4` says that the two agree on
  everything else.
- The project's introduction names TCP port 34010 for the local proxy. The code uses 34020 and the nine
  even ports after it, and for UDP 34021 and the nine odd ports after it; the model follows the code.

## Model

| member | source | states |
|---|---|---|
| ProbeTables.Placement | core/PacketProcessor.c:185-191 | no key is valid twice, and every entry lies within the probe window after its hash |
| ProbeTables.GetRefines | core/PacketProcessor.c:177-205 | a lookup removes its own key when that entry has expired and changes no other key |
| ProbeTables.SetRefines | core/PacketProcessor.c:207-243 | a set binds its key exactly when the window has a free slot or holds the key, otherwise the key stays absent; no other key changes |
| ProbeTables.FullProbeDropsOnlyWhenFull | core/PacketProcessor.c:143-174 | the table probed over all its slots drops a set only when every slot holds another key |
| ProbeTables.HitIsMostRecentSet | core/PacketProcessor.c:245-317 | over every history from an empty table, a hit returns the value of the most recent set of the full key, and only while fresh |
| ProbeTables.AcceptedSetSurvives | core/PacketProcessor.c:277-317 | an accepted set stays readable until its key is set again or looked up stale, whatever is done to other keys |
| ProbeTables.ProbeTable.Get | core/PacketProcessor.c:245-275 | the probing loop over the array returns the map's answer and frees exactly the expired entry |
| ProbeTables.ProbeTable.Set | core/PacketProcessor.c:277-317 | the probing loop updates in place, fills the first hole, or drops |
| ProbeTables.ProbeTable.Clear | core/PacketProcessor.c:99-106 | every slot is the zero slot |
| CTypes.TickAgeIsTrueAge | core/PacketProcessor.c:193-193 | wrapped subtraction of ticks is the true age modulo 2^32, and the true age below that |
| CTypes.OctetsOf | core/PacketProcessor.c:319-355 | the octets of the address a.b.c.d are a, b, c and d |
| ProbeTables.FreshUnlessAncient | core/PacketProcessor.c:193-193 | an entry that looks fresh is fresh exactly when its true age is below 2^32 ticks |
| ProbeTables.AncientEntryAnswers | core/PacketProcessor.c:193-193 | in every table an entry of age exactly 2^32 answers as if just stored |
| PacketPipeline.BypassedBlocks | core/PacketProcessor.c:319-362 | the octet tests are exactly the private, loopback, link-local and multicast blocks and the addresses ending in 255 |
| PacketLaws.OthersPass | core/PacketProcessor.c:489-551 | a packet that is not outbound IPv4 to a destination outside those blocks touches no cache, system table or rule and passes unchanged, but for a reply of the local proxy, which leaves under the address and port its client dialled |
| PacketLaws.OnlyOwnSocketIsQueried | core/PacketProcessor.c:562-573 | the system is asked only for the owner of the packet's own source address, source port and protocol |
| PacketLaws.TcpPacketMeetsItsFate | core/PacketProcessor.c:553-641 | at every point of every run under one configuration, exactly which notice, record and packets a TCP packet leaves behind, spelled out in its header fields, by the rule chosen for the program that owns its own socket and for its own destination |
| PacketLaws.DatagramMeetsItsFate | core/PacketProcessor.c:553-658 | the same for a datagram, with the session asked for and the port it goes to |
| PacketLaws.OtherPacketMeetsItsFate | core/PacketProcessor.c:526-658 | the same for a packet with neither header, which no proxy takes |
| PacketLaws.FileNameIsExtracted | core/PacketProcessor.c:455-461 | the notice names what follows the last backslash of the path, without one the last slash, else the whole path |
| PacketLaws.BlockedProgramIsSilent | core/PacketProcessor.c:553-630 | when the texts of the rules block a program, no TCP packet of its sockets leaves, at any point of any run |
| PacketLaws.ProxiedProgramIsRedirected | core/PacketProcessor.c:553-641 | when they send it through a proxy, each such packet goes to the local proxy alone, with that proxy and its destination on record |
| PacketPipeline.DecisionIsDocumented | core/PacketProcessor.c:589-610 | for every rule list, a flow is proxied or blocked exactly when the documented rule choice says so, with DNS bypass, and through the rule's own proxy before the global one |
| PacketPipeline.PidStepCoherent | core/PacketProcessor.c:563-573 | with a coherent cache the process id found is the system's, and the cache stays coherent |
| PacketPipeline.NameStepCoherent | core/PacketProcessor.c:581-587 | with a coherent cache the process name found is the system's, and the cache stays coherent |
| PacketPipeline.SlowPathFollows | core/PacketProcessor.c:562-659 | a slow path whose lookups answer right emits what the pipeline without caches emits and decides what the rules decide, whatever else the caches hold |
| PacketPipeline.StepFollows | core/PacketProcessor.c:474-663 | the same for a whole turn, fast path included |
| PacketPipeline.StepIsUncached | core/PacketProcessor.c:474-663 | one cached turn, fast path included, emits what the pipeline without caches emits and keeps every cache entry equal to the function it caches |
| PacketPipeline.TrackedAct | core/PacketProcessor.c:628-659 | carrying out a decision changes the tracker only by redirecting a TCP packet |
| PacketRuns.CachingIsInvisible | core/PacketProcessor.c:553-658 | with the configuration fixed, for every sequence of events and every clock, packets, callbacks, session requests and tracker are those of the pipeline without caches |
| CacheHistory.FastPathWasDecidedDirect | core/PacketProcessor.c:555-615 | across rule edits and cache restarts, a fast-path packet was decided DIRECT for the same flow under 60000 ticks earlier on a process id read under 30000 ticks before that, which is nonzero exactly when, as the deciding packet arrived, the system knew the owner or the table held a live answer |
| CacheHistory.FastPathOnUnknownOwner | core/PacketProcessor.c:562-615 | a concrete run in which the fast path rests on process id 0 |
| CacheHistory.SecondPacketIsFast | core/PacketProcessor.c:555-560 | once a flow is decided DIRECT and the table has room for it, its next packet within 60000 ticks is forwarded with no lookup and no rule scan, whatever the configuration has become |
| CacheHistory.PidIsReused | core/PacketProcessor.c:563-573 | a process id read from the system, for a socket never seen or whose entry went stale, is not asked for again within 30000 ticks when the table had room for it |
| CacheHistory.OwnerIsKept | core/PacketProcessor.c:563-573 | a concrete pair of lookups: an owner that changed is still reported at 29999 ticks and asked for again at 30000 |
| CacheHistory.DecisionIsBacked | core/PacketProcessor.c:562-615 | over every run, each decision was made on a process id the system gave under 30000 ticks before |
| CacheHistory.CachesStaySourced | core/PacketProcessor.c:99-317 | over every run from empty caches, each entry of each of the three tables was stored by an earlier event at the tick it is stamped with, from the answer of that event |
| CacheHistory.ConfigurationTakesEffect | core/PacketProcessor.c:555-658 | from 89999 ticks after rules, proxy, owners or names last changed, every packet of every run is handled as by the pipeline without caches under the new configuration, while true ages stay below 2^32 |
| CacheHistory.OldConfigurationLingers | core/PacketProcessor.c:555-658 | one tick earlier that fails: a concrete three-packet run in which a blocked process still passes at 89998 ticks |
| CacheLimits.WindowBounds | core/PacketProcessor.c:185-191 | a table never holds more keys of one hash than its window has slots |
| CacheLimits.WindowFills | core/PacketProcessor.c:207-243 | stored into an empty table, that many keys of one hash are all held |
| CacheLimits.PortsCollide | core/PacketProcessor.c:185-185 | sockets of one address and protocol have one hash, whatever their ports |
| CacheLimits.EightSocketsPerAddress | core/PacketProcessor.c:177-243 | at no point of any run are the process ids of more than eight sockets of one address and protocol remembered |
| CacheLimits.NinthSocketIsDropped | core/PacketProcessor.c:207-243 | eight can be, and a ninth changes nothing |
| CacheLimits.EightVerdictsPerHash | core/PacketProcessor.c:245-317 | at no point of any run are more than eight verdicts remembered whose addresses, ports and protocol number have the same exclusive or in the low ten bits |
| CacheLimits.FirstOwnerSlot | core/PacketProcessor.c:207-243 | the first process id stored goes to the slot that address, shifted port and protocol, mixed, name modulo 512 |
| CacheLimits.FirstVerdictSlot | core/PacketProcessor.c:277-317 | the first verdict stored goes to the slot that both addresses, both ports and the protocol, mixed, name modulo 1024 |
| CacheLimits.FirstNameSlot | core/PacketProcessor.c:143-174 | the first name stored goes to the slot that the process id names modulo 256 |
| CacheLimits.UnreadyCachesAreUntouched | core/PacketProcessor.c:108-112 | while the caches are not ready they neither answer nor change, and packets are handled as without them |
| CacheLimits.StaleVerdictIsFreed | core/PacketProcessor.c:264-268 | a verdict found stale frees its slot, even when the packet turns out to be the engine's own |
| CacheLimits.NameIsBacked | core/PacketProcessor.c:114-174 | over every run, the name a process goes by is one the system gave for it under 5000 ticks before |
| CacheLimits.NameIsKept | core/PacketProcessor.c:581-587 | a name just read is used for 4999 ticks and asked for again at 5000 |
| CacheLimits.NothingUnknownIsKept | core/PacketProcessor.c:563-587 | over every run, no process id 0 and no empty name is remembered |
| PacketRuns.EntryPersists | core/ConnectionTracker.c:23-65 | an entry of the tracker survives any run that neither removes nor rewrites its port |
| PacketRuns.TrackOnlyByRedirect | core/PacketProcessor.c:600-640 | the only addition a packet makes is the one of its own redirect, with its own addresses and a usable proxy |
| PacketRuns.RedirectRecords | core/PacketProcessor.c:633-640 | a redirected packet is the only one sent; it is outbound from its source address to the same address, from its source port to the local proxy's port, with all else unchanged; its destination is in the tracker, also when its port was tracked before and no memory is left; the capture filter takes it again exactly when it came from the proxy's own port |
| PacketRuns.ReplyRestoresFlow | core/PacketProcessor.c:495-517 | over interleaved runs, an answer to the packet that a redirect sent, addresses and ports swapped, leaves with exactly the reverse of the original four-tuple while the port's entry stands |
| PacketRuns.CapturedPackets | core/PacketProcessor.c:690-694 | the filter takes all outbound datagrams but those to the relay's port, and all outbound TCP but what others than the local proxy send to its port |
| PacketRuns.EntriesAreProxied | core/PacketProcessor.c:600-636 | every entry the pipeline makes carries a usable proxy and an IPv4 destination |
| PacketProcessor.Processor.InitCaches | core/PacketProcessor.c:99-106 | the first call zero-fills the three arrays, later ones keep them |
| PacketProcessor.Processor.CleanupCaches | core/PacketProcessor.c:108-112 | the caches become unavailable, their content is not touched |
| PacketProcessor.Processor.Start | core/PacketProcessor.c:682-719 | starting succeeds exactly when the capture handle and the thread can be had, and holds no handle otherwise |
| PacketProcessor.Processor.Stop | core/PacketProcessor.c:721-738 | stopping releases the handle and the thread |
| PacketProcessor.Processor.LookupPid | core/PacketProcessor.c:563-573 | the cached lookup on the array equals the value-level step |
| PacketProcessor.Processor.LookupName | core/PacketProcessor.c:581-587 | the cached name lookup on the array equals the value-level step |
| PacketProcessor.Processor.Judge | core/PacketProcessor.c:589-610 | the verdict of the rule list object, with DNS bypass and the global proxy as fallback |
| PacketProcessor.AskedAct | core/PacketProcessor.c:642-644 | only a proxied datagram asks for a session, for its own flow and through its own proxy |
| PacketProcessor.DatagramRequestsItsSession | core/PacketProcessor.c:642-644 | a proxied datagram changes the relay's table by the request for its own sender, destination and proxy, and gets the relay's answer to it |
| PacketProcessor.Processor.Resolve | core/PacketProcessor.c:562-615 | process id, name, decision and the three cache arrays after them |
| PacketProcessor.Processor.RouteOf | core/PacketProcessor.c:474-553 | reading the packet and the tracker's list classifies the packet as the value-level function does |
| PacketProcessor.Processor.Execute | core/PacketProcessor.c:617-658 | the outputs of a decision, the linked list of the tracker after it (untouched while uninitialised), and the session a proxied datagram opens in the relay, whose answer is the port the datagram leaves toward |
| PacketProcessor.Processor.Inspect | core/PacketProcessor.c:562-658 | the slow path over the real arrays, lists and relay sessions equals the value-level slow path with the relay's own answer |
| PacketProcessor.Processor.ProcessPacket | core/PacketProcessor.c:474-663 | one turn of the loop over the real arrays, lists and relay sessions equals the value-level step |
| ConnectionTracker.Tracker.Init | core/ConnectionTracker.c:9-14 | the table is usable and unchanged if it was already |
| ConnectionTracker.Tracker.Cleanup | core/ConnectionTracker.c:16-21 | the table is empty and unusable |
| ConnectionTracker.Tracker.Add | core/ConnectionTracker.c:23-65 | the acyclic list holds one node per port and the map gains exactly this IPv4 entry, replacing an IPv6 one; a failed allocation adds nothing |
| ConnectionTracker.Tracker.AddIPv6 | core/ConnectionTracker.c:67-110 | the same for an IPv6 entry, replacing an IPv4 one |
| ConnectionTracker.Tracker.Get | core/ConnectionTracker.c:112-131 | destination of the port's IPv4 entry; an IPv6 entry is hidden |
| ConnectionTracker.Tracker.GetFull | core/ConnectionTracker.c:134-155 | source and destination of the port's IPv4 entry; an IPv6 entry is hidden |
| ConnectionTracker.Tracker.GetEx | core/ConnectionTracker.c:157-182 | destination of the port's entry of either kind |
| ConnectionTracker.Tracker.GetProxy | core/ConnectionTracker.c:184-202 | proxy of the port's entry of either kind |
| ConnectionTracker.Tracker.IsTracked | core/ConnectionTracker.c:204-221 | true exactly for the ports in the map |
| ConnectionTracker.Tracker.Remove | core/ConnectionTracker.c:223-240 | the map loses exactly this port |
| ConnectionTracker.Tracker.Clear | core/ConnectionTracker.c:242-254 | the map is empty |
| CStrings.TokensOfJoin | core/RuleEngine.c:257-273 | tokenising a joined list of tokens gives the tokens back |
| CStrings.LowerFolds | core/RuleEngine.c:151-182 | two characters compare alike exactly when they are the same or one letter in both cases |
| CStrings.TrimmedPads | core/RuleEngine.c:259-266 | skipping and trimming take the blanks around a token off, and no more |
| CStrings.StrTok.Next | core/RuleEngine.c:315-323 | in-place tokenising: the token starts where the result says, is cut by a terminator, and the rest of the text is what remains to be tokenised |
| RulePatterns.LiteralPatternIsGlob | core/RuleEngine.c:135-183 | a pattern without a star matches as a glob does, on the file name or on the full path |
| RulePatterns.OneStarPatternIsGlob | core/RuleEngine.c:135-183 | for every pattern with exactly one star, the prefix, suffix and middle branches are glob matching up to case |
| RulePatterns.ProcessListIsGlobUnion | core/RuleEngine.c:246-277 | a list of such patterns, with blanks around them and commas or semicolons between them, matches exactly the union of their globs |
| RulePatterns.MatchProcessList | core/RuleEngine.c:246-277 | the tokenising loop answers whether some trimmed token matches |
| RulePatterns.MatchIp | core/RuleEngine.c:185-228 | the field-collecting loop compares the first four dotted fields with the octets |
| RulePatterns.CollectOctets | core/RuleEngine.c:196-213 | the character loop collects the first four dotted fields, each cut to 15 characters |
| RulePatterns.MatchIpList | core/RuleEngine.c:279-302 | the tokenising loop answers whether some token matches the address |
| RulePatterns.MatchPortList | core/RuleEngine.c:304-327 | the tokenising loop answers whether some token matches the port |
| RulePatterns.PrintedIpsDecideUnion | core/RuleEngine.c:185-302 | printing octet patterns, with blanks before them, and matching the list decides membership in their union, for every address |
| RulePatterns.LongPatternIsCut | core/RuleEngine.c:196-198 | only the first 255 characters of an address pattern count |
| RulePatterns.LongOctetIsCut | core/RuleEngine.c:200-213 | only the first 15 characters of an octet count; leading zeros are harmless up to there |
| RulePatterns.FourthOctetIsCut | core/RuleEngine.c:196-213 | the last octet counts in a pattern of 255 characters and is 0 where it is cut off |
| RulePatterns.PrintedPortsDecideUnion | core/RuleEngine.c:230-327 | printing ports and ranges, with blanks before them and commas or semicolons between them, and matching the list decides membership in their union, for every port |
| RuleEngine.VerdictIsDocumentedChoice | core/RuleEngine.c:329-411 | for every list, the one-pass scan returns the newest applicable rule, the one nearest the front, else the newest compatible fully wildcard rule, else none, and no other answer fits |
| RuleEngine.NewestHasHighestId | core/RuleEngine.c:26-70 | while ids have not wrapped, the newest of any such rules is the one with the highest id |
| RuleEngine.AddChangesOnlyToNew | core/RuleEngine.c:26-70 | adding a rule changes a verdict only if the new rule becomes the chosen one |
| RuleMeaning.RulesMeanWhatTheySay | core/RuleEngine.c:26-411 | rules added as texts decide every packet as the texts say: the answer is that of the latest rule whose names, addresses, ports and protocol the packet meets, a rule for everything giving way to all others, and DIRECT if there is none; no other answer fits |
| RuleMeaning.StoredRuleMeets | core/RuleEngine.c:40-66 | a rule as stored decides exactly the packets that its texts and its protocol mean, with its action and proxy |
| RuleMeaning.NameMeetsTarget | core/RuleEngine.c:127-148 | a pattern with a separator is compared with the whole path, any other with what follows the last separator |
| RuleMeaning.TcpRuleSparesDatagrams | core/RuleEngine.c:347-356 | a TCP rule that blocks a program by name blocks its TCP packets, whatever its directory, and leaves its datagrams alone |
| RuleEngine.OtherProtocolIsAbsent | core/RuleEngine.c:347-356 | dropping every rule for the other protocol, from any list, changes no verdict |
| RuleEngine.FieldsAreCut | core/RuleEngine.c:38-66 | a new rule is enabled and keeps its action, protocol and proxy; its texts are cut to 255, 1023 and 255 characters, and missing hosts or ports are a star |
| RuleEngine.IdsStayOrdered | core/RuleEngine.c:26-124 | over any history of fewer than 2^32 - 1 adds, ids are unique, nonzero, below the next id and strictly decreasing along the list |
| RuleEngine.DisabledIsAbsent | core/RuleEngine.c:341-345 | for matching, a disabled rule at any position is as good as absent |
| RuleEngine.DisableMatchesRemove | core/RuleEngine.c:72-110 | disabling a rule gives every packet the verdict that removing it gives |
| RuleEngine.EditsReachOneRule | core/RuleEngine.c:72-110 | while ids are in order, removing takes away exactly the rule with the id, and switching changes its flag alone |
| RuleEngine.ReEnableRestores | core/RuleEngine.c:93-110 | disabling and re-enabling an enabled rule restores the list |
| RuleEngine.Engine.AddRule | core/RuleEngine.c:26-70 | the linked list gains the clipped rule in front under the next id; nothing happens for an empty process or without memory |
| RuleEngine.Engine.RemoveRule | core/RuleEngine.c:72-91 | the linked list loses exactly the rule with this id |
| RuleEngine.Engine.EnableRule | core/RuleEngine.c:93-110 | only the flag of the rule with this id changes, in place |
| RuleEngine.Engine.ClearRules | core/RuleEngine.c:112-124 | the list is empty, the next id is kept |
| RuleEngine.Engine.Match | core/RuleEngine.c:329-411 | the pointer walk with the deferred wildcard rule returns the verdict of the list |
| RuleEngine.RuleNode.Weigh | core/RuleEngine.c:336-400 | a node decides at once exactly when its rule applies, and is deferred exactly when it is compatible and fully wildcard |
| Socks5.RequestNamesDestination | core/Socks5.c:134-149 | a server decoding the IPv4 request reads the destination address and port |
| Socks5.Request6NamesDestination | core/Socks5.c:345-351 | a server decoding the IPv6 request reads the destination address and port |
| Socks5.CredentialsRoundTrip | core/Socks5.c:108-114 | a server decoding the username/password message reads back both, the empty password included |
| Socks5.Connect | core/Socks5.c:57-178 | the conversation through the reused 512-byte buffer equals the value-level one, with every write inside the buffer, for every server and all credentials but the pair that overruns it |
| Socks5.ConnectIPv6 | core/Socks5.c:268-385 | the same for an IPv6 destination |
| Socks5.Negotiate | core/Socks5.c:63-132 | greeting, method selection and authentication through the buffer, with the same exception |
| Socks5.Authenticate | core/Socks5.c:100-125 | the credentials written into the buffer, and the status judged, unless they do not fit |
| Socks5.ProxyCredentialsFit | core/ProxyEngine.h:36-48 | the credentials of every proxy record fit the buffer |
| Socks5.BufferSuffices | core/Socks5.c:102-116 | a credentials message fits the 512-byte buffer exactly unless both credentials are 255 bytes long |
| Socks5.LongestCredentialsOverflow | core/Socks5.c:102-116 | the message that does not fit: 513 bytes |
| Socks5.UndefinedMeans | core/Socks5.c:93-116 | the excepted case is exactly two 255-byte credentials and a server that took the offer of method 2 whole and assigned it |
| Socks5.CoreFollowsProtocol | core/Socks5.c:57-178 | against any server bytes and any receive lengths the client stays inside the protocol and succeeds exactly when method, authentication if chosen, and request were accepted |
| Socks5.CredentialsOnlyWhenAssigned | core/Socks5.c:93-119 | credentials are sent only after method 2 was offered and assigned |
| Socks5.WillingServerIsUsed | core/Socks5.c:57-178 | against a server that grants what it is asked, the whole conversation byte by byte, with authentication exactly for clients with a username, and success |
| Socks5.HookClient.DoHandshake | hookdll/Socks5Client.cpp:110-177 | the second client's handshake |
| Socks5.HookClient.DoAuthentication | hookdll/Socks5Client.cpp:179-231 | the second client's authentication |
| Socks5.HookClient.DoConnect | hookdll/Socks5Client.cpp:233-285 | the second client's IPv4 request, which insists on a reply of 10 bytes |
| Socks5.HookClient.DoConnectV6 | hookdll/Socks5Client.cpp:287-338 | the second client's IPv6 request |
| Socks5.ClientsAgreeOnIPv6 | hookdll/Socks5Client.cpp:366-387 | on IPv6 both clients send identical bytes and return the same verdict against every peer |
| Socks5.ClientsAgreeOnIPv4 | hookdll/Socks5Client.cpp:340-364 | on IPv4 both send identical bytes, and the hook accepts exactly when the core accepts a 10-byte reply |
| Socks5.ShortReplyDivides | hookdll/Socks5Client.cpp:252-261 | a server whose granting reply arrives as 4 bytes: the core accepts, the hook refuses, for every IPv4 request |
| Socks5.HookKeepsToProtocol | hookdll/Socks5Client.cpp:110-177 | the second client keeps to the protocol against every server exactly when it requires authentication or has no username it could send |
| HttpConnect.DecodeEncode | core/Socks5.c:181-197 | Base64 decoding returns every encoded input |
| HttpConnect.Base64Encode | core/Socks5.c:181-197 | the encoder writes the encoding and its terminator inside a buffer of at least 4 characters, and the whole input exactly when it fits |
| HttpConnect.RequestNamesTarget | core/Socks5.c:206-233 | a proxy parsing the CONNECT line reads the destination octets and port |
| HttpConnect.RequestIsOneHead | core/Socks5.c:206-233 | the request is one head: request line, host, credentials only if there is a username, connection header, one blank line, and nothing after it |
| HttpConnect.AuthorizationCarriesCredentials | core/Socks5.c:206-233 | a username adds exactly one header to the request; its Base64 text decodes to a prefix of username, colon and password, to all of it exactly when they fit 511 bytes |
| HttpConnect.RequestFits | core/Socks5.c:201-222 | with any credentials all three text buffers suffice |
| HttpConnect.StatusDecides | core/Socks5.c:247-263 | the status check on a reply with a status line accepts exactly code 200 |
| HttpConnect.SuccessIsDecidedByTheReply | core/Socks5.c:235-266 | for every line, success is exactly that the request was taken whole and the bytes of the one reply read begin with `HTTP/1.` and have after their first space a number of value 200; all replies are covered by one grammar |
| HttpConnect.CodeDecides | core/Socks5.c:247-263 | a reply that ends in a three-digit code grants the request exactly when the code is 200 |
| HttpConnect.Connect | core/Socks5.c:199-266 | the HTTP conversation through the fixed buffers equals the value-level one |
| LocalProxy.PushIsFaithful | core/LocalProxy.c:60-69 | the inner loop, with any partial sends, keeps delivered bytes a prefix and leaves nothing behind when it completes |
| LocalProxy.PushEnds | core/LocalProxy.c:60-69 | against a peer that takes at least one byte a time the inner loop sends at most once for each byte |
| LocalProxy.RelayPreservesStream | core/LocalProxy.c:43-73 | at every moment the delivered bytes are a prefix of the received ones, at most 8192 behind, and equal when the source ends |
| LocalProxy.TransferPreservesStream | core/LocalProxy.c:43-73 | from the first byte on, the sink's peer takes what the source gave, in order, and all of it unless a send failed |
| LocalProxy.WholeStreamArrives | core/LocalProxy.c:53-70 | between peers whose calls neither fail nor stall, the whole stream arrives |
| LocalProxy.TransferEndsForAReason | core/LocalProxy.c:53-70 | a transfer ends only because a receive of 8192 bytes yielded none, or a send failed |
| LocalProxy.TransferThread | core/LocalProxy.c:43-73 | the two nested loops over the buffer are that relay, they terminate, and each end shuts down the right directions |
| LocalProxy.SendAll | core/LocalProxy.c:59-69 | the inner loop over the buffer is the value-level push |
| Tunnels.EveryScheduleIsFaithful | core/LocalProxy.c:135-168 | under every interleaving of the two relay threads, failures and the shutdowns they cause included, both directions keep delivered bytes a prefix of received ones, at most 8192 behind, and, once over, equal exactly if their source ended |
| Tunnels.ScheduleDecidesNothing | core/LocalProxy.c:135-168 | a direction whose counterpart did not fail logs under every interleaving exactly what it does alone, with the same outcome |
| Tunnels.EnoughTurnsEnd | core/LocalProxy.c:135-168 | however the threads are scheduled, a direction with more turns of its own than its peers' scripts allow calls is over |
| Tunnels.Direction.Advance | core/LocalProxy.c:53-72 | one call of a relay thread over its buffer is one step of the value-level direction, and shuts down the right halves of both sockets when it ends |
| Tunnels.RunThreads | core/LocalProxy.c:147-168 | both threads over the two shared sockets, under any schedule, reach a state of the interleaved relay in which both are over |
| Tunnels.ConnectionHandler | core/LocalProxy.c:75-175 | on every path each socket held is closed exactly once and the tracker entry is dropped; a connection is relayed, by two threads under any schedule, exactly when every step and the handshake succeed |
| LocalProxy.Server.Start | core/LocalProxy.c:257-301 | the listener runs exactly when every step succeeded; on a failing path the listening socket, once created, is closed exactly once |
| LocalProxy.Server.Stop | core/LocalProxy.c:303-320 | a running listener closes its socket exactly once, an idle one closes nothing |
| LocalProxy.Accept | core/LocalProxy.c:189-237 | an accepted connection gets the tracked destination and proxy, or is closed once |
| EndToEnd.HandshakeNamesDestination | core/LocalProxy.c:116-134 | a granted SOCKS5 or HTTP handshake delivered a request that decodes to the context's destination |
| EndToEnd.HandshakeIsDecidedByTheProxy | core/LocalProxy.c:121-134 | whatever the proxy sends, a handshake is granted exactly when the SOCKS5 conversation ends in the protocol's grant, or the one HTTP request was taken whole and the one reply says 200 |
| EndToEnd.StatusGrantsOrRefuses | core/LocalProxy.c:121-134 | an HTTP proxy that answers 200 grants every request, one that answers 407 none |
| EndToEnd.SomeHandshakeIsGranted | core/LocalProxy.c:116-134 | a concrete server grants the handshake for every destination |
| EndToEnd.DestinationSurvives | core/LocalProxy.c:196-228 | from the captured packet over both tracker lookups to the request on the wire, destination and proxy are those of the redirect |
| UdpRelay.SweepConserves | core/UdpRelay.c:200-212 | expiring or stopping closes every socket of the ended sessions exactly once and no other |
| UdpRelay.FillConserves | core/UdpRelay.c:449-469 | a new session in a free slot owns exactly its two new sockets and shares none |
| UdpRelay.StepConserves | core/UdpRelay.c:386-478 | every event, failed set-ups included, keeps the open sockets equal to the owned ones and closes only open sockets |
| UdpRelay.SocketsAreConserved | core/UdpRelay.c:354-562 | over all runs the open session sockets are exactly those of active sessions, none shared, and no client has two sessions |
| UdpRelay.RepeatedRequestChangesNothing | core/UdpRelay.c:400-405 | a client that was given a session keeps it: asking again opens nothing and changes nothing |
| UdpRelay.StopReleasesEverything | core/UdpRelay.c:364-375 | after a stop no session socket is owned |
| SessionLife.RequestCreates | core/UdpRelay.c:386-478 | a request is answered with the relay's port exactly when the client has a session or gets one; one is created exactly with a usable proxy, a free slot and a working set-up, in the first free slot, with the client, destination, sockets, proxy and tick of the request; nothing changes otherwise |
| SessionLife.SweepEnds | core/UdpRelay.c:199-212 | a sweep ends a session exactly when its age modulo 2^32 is above 120000 |
| SessionLife.IdleSessionStays | core/UdpRelay.c:199-212 | over every run, an idle session keeps its slot through all sweeps up to 120000 ticks after it was last touched |
| SessionLife.IdleSocketsStayOpen | core/UdpRelay.c:199-212 | and its two sockets stay open |
| SessionLife.OverdueSessionEnds | core/UdpRelay.c:199-212 | a sweep from 120001 ticks on, until the age wraps, frees the slot and closes both sockets, each once |
| SessionLife.AncientSessionStays | core/UdpRelay.c:203-203 | from 2^32 ticks on an idle session outlives sweeps for another 120000 ticks |
| UdpRelay.Relay.Init | core/UdpRelay.c:307-311 | every slot is zeroed |
| UdpRelay.Relay.FindSession | core/UdpRelay.c:171-180 | the first active session of the client, or none |
| UdpRelay.Relay.FindFreeSlot | core/UdpRelay.c:182-189 | the first inactive slot, or none |
| UdpRelay.Relay.AddSession | core/UdpRelay.c:386-562 | the array and the open sockets after a session request, on every branch, and the port returned |
| UdpRelay.Relay.Renew | core/UdpRelay.c:269-296 | traffic renews a session and changes nothing else |
| UdpRelay.Relay.Expire | core/UdpRelay.c:199-212 | the expiry loop over the array is the sweep at this tick, and closes the sockets in its order |
| UdpRelay.Relay.Start | core/UdpRelay.c:318-352 | the relay runs exactly when every step succeeded; on a failing path the listening socket, once created, is closed exactly once |
| UdpRelay.Relay.Stop | core/UdpRelay.c:354-384 | a running relay closes its listening socket and then every session socket, each exactly once, and holds none; an idle one closes nothing |
| ProxyEngine.Engine.SetProxy | core/ProxyEngine.c:78-109 | the global proxy afterwards is the clipped argument, or the old one when host or port is missing |
| ProxyEngine.Engine.SetDnsViaProxy | core/ProxyEngine.c:111-114 | the flag is the argument |
| ProxyEngine.Engine.GlobalProxy | core/ProxyEngine.c:135-149 | the global proxy is usable exactly when host and port are set, otherwise zeroed |
| ProxyEngine.Engine.Init | core/ProxyEngine.c:40-61 | all components are ready exactly when the socket library starts |
| ProxyEngine.Engine.FindUdpPort | core/ProxyEngine.c:185-199 | the relay listens on the first UDP port of the range that can be had |
| ProxyEngine.Engine.FindTcpPort | core/ProxyEngine.c:201-210 | the local proxy listens on the first TCP port of the range that can be had |
| ProxyEngine.Engine.Launch | core/ProxyEngine.c:181-232 | listeners and capture start together or not at all |
| ProxyEngine.Engine.Start | core/ProxyEngine.c:172-245 | after every call the engine runs exactly when all three components do, a failed start leaves none running, and the redirect ports are the bound ones and differ, for any pattern of busy ports |
| ProxyEngine.Engine.Stop | core/ProxyEngine.c:247-259 | nothing runs, no session socket is open and the tracker is empty |
| ProxyEngine.Engine.Cleanup | core/ProxyEngine.c:63-76 | nothing runs; an initialised engine ends with its tracker and rules empty and unusable, its caches unavailable and no session socket open |
| ProxyEngine.Engine.HandlePacket | core/PacketProcessor.c:463-667 | a packet is processed under the engine's own rules, global proxy, DNS flag and TCP port; a proxied datagram opens its session in the engine's own relay and leaves toward the relay's bound port, and life cycle and socket conservation are kept |
| Cli.ReadProxy | cli/main.c:69-122 | cutting a 512-byte copy in place at the `@`, the first colon and the last one reads what the specification says of any text |
| Cli.ReadRuleUrl | cli/main.c:181-223 | the same for the rule parser's own URL code and its own buffer |
| Cli.UrlsAgree | cli/main.c:190-222 | the rule parser's reading of a URL with a scheme is the proxy parser's, refusals included |
| Cli.ParsersAgree | cli/main.c:181-223 | the two parsers, written separately, agree: the rule parser takes a text for a proxy exactly when it has a scheme and the proxy parser reads it, and then for the same one |
| Cli.ProxyRoundTrip | cli/main.c:69-122 | the proxy parser inverts the printer on every URL the notation can carry |
| Cli.NoSchemeMeansSocks5 | cli/main.c:76-86 | a text without a scheme is read as one with `socks5://` in front |
| Cli.AcceptedAddressIsSpelled | cli/main.c:88-119 | conversely, whatever is accepted is spelled out: an optional login up to the first `@`, a host, the last colon, and a port that is not 0 modulo 2^16 |
| Cli.RuleRoundTrip | cli/main.c:124-227 | the rule parser inverts the printer when no field before the action holds a colon and the text fits |
| Cli.AcceptedRuleIsSpelled | cli/main.c:131-227 | conversely, every accepted text has four colons, no field before the action holds one, and the five parts are those of the rule |
| Cli.SplitRule | cli/main.c:127-150 | cutting the copy in place at its first four colons leaves the fields as strings of the buffer and the action behind them, exactly as the specification says, and nothing is accepted when a field is missing |
| Cli.ReadRule | cli/main.c:124-227 | the rule parser over its 1024-byte copy reads what the specification says of any text, the protocol and the action included |

## Left out

- DLL injection and API hooks, the process monitor, registry and shared memory, the Qt interface: calls into the system without an algorithm of their own.
- `hookdll/SocketMapper.cpp`, `hookdll/SocketState.h`, `core/ProcessTracker.c`: thin wrappers of a map or a set that would only add easy members.
- The scan of the system's TCP and UDP tables for the owner of a socket, and of a process for its image path: their answers are inputs.
- Checksums, DNS resolution, logging, waiting times and the text of log messages and callbacks; a callback carries the address as a number.
- The UDP relay's forwarding of datagrams and the `UDP ASSOCIATE` conversation: the redirect swaps the addresses while sessions are looked up by the client's own address, so the model keeps the session table and takes the conversation's result as an input.
- Socks5.Connect: promises nothing when both credentials have 255 bytes and the server assigns method 2, because the C code then writes past its buffer, which has no defined result.
- Socks5.ConnectIPv6: promises nothing in the same case for the same reason.
- Socks5.Negotiate: promises nothing in the same case for the same reason.
- Socks5.Authenticate: promises nothing when both credentials have 255 bytes, for the same reason.
- LocalProxy.TransferThread: the script of a peer is finite, so a peer that lets every send take no byte for ever is not modelled; the C loop would not end against it.
- Tunnels.RunThreads: the same for the two threads; a schedule is a finite sequence of turns, continued until both are over.
- Locks and the interleaving inside one critical section; interleaving between packets, tracker removals and the two lookups of an accepted connection is modelled.
- RulePatterns.OneStarPatternIsGlob: patterns with several stars are not globs for the C code, which treats the inner ones as letters; nothing is claimed for them.
- `atoi` on numbers beyond 32 bits, and text in other encodings than one character per byte.
- Bytes the server sends after its reply: a short receive or a longer bound address leaves them in the stream, where the relay delivers them.
