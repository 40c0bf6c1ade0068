# A verified model of the gateway controller

This project models the controller that programs the Sōzu proxy from Kubernetes Ingress and Gateway API
objects, and proves what its hardest passes promise. `dafny verify dfyconfig.toml` checks all of it.

The centre is **header-match planning**. The Gateway API ranks routes by path, then method, then number of
header conditions, then age. Sōzu ranks every route with header conditions above every route without, and
chooses inside that class by rules that partly follow insertion order. `lift_header_matches` copies plain routes
into the predicated class, checks every pair, skips the header matches Sōzu could not hold, and plans again until
nothing is left to skip. The model has both semantics: Sōzu's selection as a fold over the rules in any order
(`Sozu`), and Gateway API precedence (`Frontends`). The theorem is `Lifting.LiftedServesRightly`, over all
requests, all rule sets and all orders, about exactly what the imperative pass returns. `Routing.RouteFrontends` puts
collision resolution and planning together: for any frontends a route key can spell, its contract promises the plans'
exact lists and their bounds, and, for every input a build can have, distinct route keys and the theorem.

| file | what it models |
|---|---|
| `Base.dfy` | orders, stable sorting, filtering |
| `Paths.dfy` | path matches, their compilation to anchored regexes, and what those match |
| `Frontends.dfy` | frontends, requests, Gateway API precedence, lifted copies |
| `RouteKeys.dfy` | header conjunctions, the route key and its decoding |
| `Sozu.dfy`, `Tier.dfy` | Sōzu's selection, and when a predicated class is safe in every order |
| `Admission.dfy` | the incremental check of every pair |
| `Planner.dfy`, `Choices.dfy` | one planning round as a function, and what it guarantees |
| `Precedence.dfy` | the end-to-end theorem for one hostname |
| `Planning.dfy`, `Lifting.dfy` | the planner as it runs, and the theorem for the whole pass |
| `Skips.dfy` | what every reported skip says, on frontends, keys and precedence alone |
| `Programmed.dfy` | the lists the pass returns: every route key once, bounded groups |
| `Necessity.dfy` | a conflict the planner skips for is one Sōzu can show |
| `SmallPlans.dfy`, `Queries.dfy` | plans small enough to write down, and the build in which a copy takes more |
| `Zones.dfy` | exactly which groups of arbitrary listeners are safe: those with a leaf each |
| `Collisions.dfy`, `Certificates.dfy`, `Layer4.dfy` | ownership of route keys, SNI names and sockets |
| `Routing.dfy` | collision resolution and planning together, and that planning has one outcome |
| `Shadow.dfy`, `RunLoop.dfy`, `Wakeups.dfy` | the reconcile state machines |
| `Reconcile.dfy` | the run loop beside a live Sōzu |
| `Status.dfy`, `MergePatch.dfy`, `SliceFilter.dfy` | status merging, provisioning patches, the EndpointSlice filter |

## What the proofs found

- The end-to-end theorem needs no assumption about `?` in paths. Only the conservative extension does: a copy
  takes requests its header match does not exactly when the header match's path goes on from the copied plain Exact
  path with a query string (`Frontends.CopyStaysWithin`, against the comment at crates/builder/src/lib.rs:2587-2588). The
  builder does not refuse a `?` in an HTTPRoute path (crates/builder/src/gateway.rs:1256-1271), and
  `Queries.CopyTakesMore` is such a build: a request that meets the header condition but not the header match goes to
  another backend than it would without the pass.
- `precedence_key` is said to follow `gw_precedence` off regex paths. It does not where the outranking one of two
  Exact paths is the shorter (`Tier.KeyFollowsPrecedence` is exact, `Tier.KeyLeavesPrecedence` is an instance). The
  planner stays correct, because every pair is checked; only which of several skips comes first can differ.
- `gw_precedence` is not transitive once regex paths appear (`Frontends.GwNotTransitiveWithRegex`), so the tier
  theorem is proved pair by pair.
- A route key does not spell an IPv6 zone, and a group does; off user regexes two keys are equal if and only if the
  matches are the same on one address, zones aside (`RouteKeys.KeysCollideExactly`). No build is concerned: `bind_addr`
  (crates/builder/src/lib.rs:279-281) binds the unspecified IPv4 address only, so no listener of a frontend has a zone, and
  `Routing.RouteFrontends` promises distinct keys and the theorem for all such inputs without a further condition.
  For arguments `build` never passes the condition is exact: a set of groups is safe for all frontends if and only if no
  two share a leaf (`Zones.SafeExactly`).
- The planner skips no pair without need: for entries with plain paths and exact header values a conflict is found if and
  only if some request both match is served by the lower in one of the two orders (`Necessity.ConflictExactly`).
- A change of an EndpointSlice can go unheard in two ways: it lands after the snapshot of the first build to reference
  its Service and before that build publishes its Services (`Wakeups.LostBesideABuild`), or it moves the slice from a
  referenced Service to another one (`Wakeups.LostByRelabelling`, `SliceFilter.RelabelledSliceChangesTheBuild`). Where
  nothing is to come for a referenced Service, its slices are missing from the last snapshot if and only if one of the
  two happened (`Wakeups.LostExactly`).
- Requests that reach Sōzu unrecorded (a timed-out apply, a controller stopped in the middle of one, a replay that
  no shadow can describe) leave the shadow true exactly when they disturb none of its claims
  (`Shadows.UnrecordedRequests`).
- A route's status settles if and only if parents that share a full reference ask for the same conditions, and then
  within two merges from any list (`Status.SettlesExactlyWhenConsistent`).
- A provisioning patch converges if and only if the wanted object has no null field
  (`MergePatch.PatchConvergesExactly`).

## Modelling choices

- A `char` stands for a byte in paths and targets, and for a Unicode scalar in header names and values.
- `Platform` supplies what is outside the model: which strings a user's path regex and a header regex accept, and which
  characters `Debug` quoting escapes. The patterns the controller compiles itself are parsed and interpreted, in both
  the unanchored and the whole-span reading.
- Problem messages are reduced to the indices, names and reasons they carry.
- The translator and the agent are seen through their laws: a batch is the difference of two states if applying it to
  the first gives the second and it tears down only what the first lists, a failed apply delivered the requests it
  acknowledged, and an exact replay is their effect.
- An order the source derives (of sockets, of parent references) is any total order, passed as a parameter.
- Clocks, probes, API server replies, ticks and interleavings are parameters or steps, so statements range over all of
  them.

## Model

| member | source | states |
|---|---|---|
| `Paths.RegexEscape` | crates/ir/src/lib.rs:119-128 | the loop computes the escaping that `Paths.ExactRule` and `RouteKeys.EscapedDecodes` are about |
| `Paths.PrefixBody` | crates/builder/src/lib.rs:3446-3448 | the prefix without its trailing slashes: a prefix of it, not ending in a slash, and only slashes dropped |
| `Paths.ExactRule` | crates/ir/src/lib.rs:95-100 | a compiled Exact rule matches exactly the path itself or the path with a query string free of LF, the same read unanchored or over the whole target |
| `Paths.PrefixRule` | crates/ir/src/lib.rs:101-109 | a compiled Prefix rule matches exactly at an element boundary, the root every target, the same in both readings |
| `Paths.PrefixCoversRule` | crates/builder/src/lib.rs:3453-3459 | on LF-free targets `prefix_covers` is what the compiled rule matches |
| `Paths.MeetingIsNeverMissed` | crates/builder/src/lib.rs:3249-3268 | two paths a target matches are never ruled out |
| `Paths.PathsMeetExactly` | crates/builder/src/lib.rs:3249-3268 | off regexes `paths_meet` holds if and only if some target matches both rules |
| `Frontends.CanMeetIsSound` | crates/builder/src/lib.rs:3270-3290 | no request that two frontends both match is ruled out by path, method or header values |
| `Frontends.ValuesMeetExactly` | crates/builder/src/lib.rs:3279-3290 | conditions on one header, one of them an exact value, are taken to meet if and only if some request meets both |
| `Frontends.GwTransitive` | crates/builder/src/lib.rs:3218-3235 | off regex paths precedence is a total preorder, strictness included |
| `Frontends.PrecedenceInTurn` | crates/builder/src/lib.rs:3209-3235 | one frontend ranks over another exactly by path (Exact over prefix, longer prefix, conditions next to a regex), then a method over none, then more conditions; and the reverse comparison is the reverse |
| `Frontends.GwNotTransitiveWithRegex` | crates/builder/src/lib.rs:3218-3235 | with regex paths it has a cycle of three |
| `Frontends.CopyMatches` | crates/builder/src/lib.rs:2981-2996 | a copy matches exactly the requests of its plain route that meet its header match's method and conditions |
| `Frontends.CopyStaysWithin` | crates/builder/src/lib.rs:2583-2588 | every target of an outranking plain route is one of its header match's if and only if the latter's path does not go on from a plain Exact path with a query |
| `RouteKeys.CanonicalShape` | crates/ir/src/lib.rs:295-306 | the canonical conjunction is strictly ascending and holds exactly the lowercased conditions |
| `RouteKeys.HeaderOrder` | crates/ir/src/lib.rs:295-306 | conditions are ordered by name, an exact value before a regex, then value, strings by their first difference |
| `RouteKeys.CanonicalDecides` | crates/ir/src/lib.rs:291-306 | two conjunctions have one canonical form if and only if they are the same set of lowercased conditions |
| `RouteKeys.CanonicalHolds` | crates/ir/src/lib.rs:291-306 | conjunctions with one canonical form hold for the same requests |
| `RouteKeys.SozuRouteKey` | crates/ir/src/lib.rs:333-356 | the key assembled piece by piece is the specified one |
| `RouteKeys.KeySpelled` | crates/ir/src/lib.rs:626-648 | one key to the letter: rule after its kind, method, conditions in the order of their lowercased names under their kinds, a quote escaped |
| `RouteKeys.QuotedDecodes` | crates/ir/src/lib.rs:347-351 | `Debug` quoting delimits itself: the quoted text and what follows are determined |
| `RouteKeys.EscapedDecodes` | crates/ir/src/lib.rs:118-128 | an escaped literal before the compiled tail is determined, with what follows |
| `RouteKeys.RuleDecodes` | crates/ir/src/lib.rs:337-341 | off user regexes the rule part of a key is determined, with what follows |
| `RouteKeys.VerbDecodes` | crates/ir/src/lib.rs:342-351 | method and header part of a key are determined |
| `RouteKeys.KeyDecodes` | crates/ir/src/lib.rs:309-356 | off user regexes equal keys mean the same protocol, address, hostname, compiled rule, method and canonical conjunction |
| `RouteKeys.KeyIsMatch` | crates/builder/src/lib.rs:2186-2200 | off user regexes, on one listener, keys are equal if and only if the matches are the same |
| `RouteKeys.KeysCollideExactly` | crates/ir/src/lib.rs:333-356 | off user regexes keys are equal if and only if the addresses are, zones aside, and the matches are the same |
| `RouteKeys.KeyNamesGroup` | crates/builder/src/lib.rs:2649-2652 | a key always names its protocol, address and hostname |
| `RouteKeys.RegexSpellsMethod` | crates/ir/src/lib.rs:316-320 | two regex frontends of different methods with one key |
| `RouteKeys.SameMatchMatches` | crates/builder/src/lib.rs:2186-2200 | frontends with the same match take the same requests |
| `Sozu.TreeSelectKeeps` | crates/builder/tests/header_matches.rs:1119-1150 | whatever the order, a matching regex naming the method is final, one that cannot match `/` keeps the root prefix out, and the choice is a matching rule |
| `Sozu.ClassServesMatch` | crates/builder/tests/header_matches.rs:1152-1201 | a class with a matching rule serves one of its matching rules, and settled pairs in their order, in every order |
| `Sozu.PlainClassAlone` | PROTOCOL.md:624-627 | with no matching predicated rule, the plain class is served as if alone |
| `Tier.UnsettledIsUnsettled` | crates/builder/src/lib.rs:3354-3394 | `unsettled` finds nothing exactly where the shapes alone decide, in the sense `Sozu.ClassServesMatch` proves sound and `Necessity.ConflictExactly` complete |
| `Tier.ConflictFreeTierServes` | crates/builder/src/lib.rs:3128-3142 | in a class without conflicts, in every order, the served rule has against each other matching rule the same effect or precedence |
| `Tier.TierServesItsRequests` | crates/builder/src/lib.rs:2577-2588 | a request a predicated rule matches is served by one of them |
| `Necessity.ConflictExactly` | crates/builder/src/lib.rs:3128-3142 | with plain paths and one exact value per header name, a pair conflicts if and only if its effects differ, the higher ranks first, and some request both match is served by the lower in one of the two orders |
| `Necessity.MeetingIsMatched` | crates/builder/src/lib.rs:3270-3290 | two such entries that are not ruled out do match one request |
| `Necessity.TwoRulesServed` | crates/builder/tests/header_matches.rs:1119-1150 | which of two matching rules is served, in the order held: the first without a hostname; else the first regex that names a method, a later regex over what was chosen, a later root over a root, and over a regex only on a target of one character |
| `Necessity.ReasonByShapes` | crates/builder/src/lib.rs:3354-3394 | the reason given for an unsettled pair, by path kind and method of the two rules |
| `Tier.KeyFollowsPrecedence` | crates/builder/src/lib.rs:3190-3207 | the ordering key follows precedence off regex paths exactly except for two Exact paths, the outranking one shorter |
| `Tier.KeyLeavesPrecedence` | crates/builder/src/lib.rs:3190-3207 | two Exact paths one request matches, in opposite orders for key and precedence |
| `Tier.TiesByOrder` | crates/builder/src/lib.rs:3190-3207 | of entries alike in path kind and length, method and conditions the one of the earlier frontend comes first, then the one of the earlier header match |
| `Tier.RegexResolvedLast` | crates/builder/src/lib.rs:3197-3201 | a regex path comes after every other |
| `Admissions.ScanUnsettled` | crates/builder/src/lib.rs:3104-3125 | the scan finds the conflicting pair whose higher entry is first by key, its lower one first in the class |
| `Admissions.FirstPairUnique` | crates/builder/src/lib.rs:3041-3046 | that pair and its reason are unique |
| `Admissions.Admission.FirstUnsettled` | crates/builder/src/lib.rs:3047-3100 | in every round of every sequence of classes, entries that vanish and return included, the incremental check finds what the scan finds |
| `Admissions.Admission.FirstSince` | crates/builder/src/lib.rs:3068-3080 | an entry settled before needs only the entries that appeared since |
| `Admissions.NewcomersOnly` | crates/builder/src/lib.rs:3069-3071 | an entry in conflict with a settled one appeared after it was settled |
| `Choices.ChooseFacts` | crates/builder/src/lib.rs:2886-2939 | after a header match's turn every outranking plain route is stood in for, already brought or covered by a chosen copy; the choices have distinct keys and keep the budget |
| `Choices.ChoicesKeepPlaces` | crates/builder/src/lib.rs:2920-2932 | while later candidates are weighed a chosen copy keeps its place and key |
| `Choices.ChooseAllFacts` | crates/builder/src/lib.rs:2881-2945 | the same over all header matches of a round, each kept one weighed once and no key brought twice |
| `Choices.SharedCopyKey` | crates/builder/src/lib.rs:2900-2930 | two copies with one key have the same match, from the same path |
| `Planning.GroupPlan.FindCandidate` | crates/builder/src/lib.rs:2843-2873 | the cached search yields the next outranking plain route with its key's number and holder, never losing one found before |
| `Planning.Turn` | crates/builder/src/lib.rs:2890-2938 | one candidate's handling takes one step of the specified choice |
| `Planning.GroupPlan.ChooseCopies` | crates/builder/src/lib.rs:2886-2939 | one header match's copies, or its skip, are the specified ones |
| `Planning.GroupPlan.ChooseRound` | crates/builder/src/lib.rs:2881-2945 | a round's choices, or its first skip, are the specified ones |
| `Planning.GroupPlan.BuildTier` | crates/builder/src/lib.rs:2946-2964 | the class is each kept header match followed by its copies |
| `Precedence.TierInOrder` | crates/builder/src/lib.rs:2946-2964 | position by position the class lists each header match, then its own copies in the order chosen |
| `Planning.GroupPlan.Round` | crates/builder/src/lib.rs:2876-2979 | a round either succeeds with a class that has no conflict or names the header match of the lower entry of its first conflict, for the reasons `Skips.SkipsAreJustified` spells out |
| `Planning.TierAdmissible` | crates/builder/src/lib.rs:3000-3021 | the entries of a round have distinct identities that fix what they are |
| `Lifting.CapGroup` | crates/builder/src/lib.rs:2737-2755 | the first 64 header matches are weighed and each of the rest is skipped for the limit |
| `Lifting.SkipMakesProgress` | crates/builder/src/lib.rs:2761-2770 | a failed round skips a header match it still weighed |
| `Lifting.PlanGroup` | crates/builder/src/lib.rs:2732-2771 | planning ends after at most 64 skips past the cap, each the one its round asks for, with a round that succeeds |
| `Skips.SkipsAreJustified` | crates/builder/src/lib.rs:3145-3173 | of every plan: header matches are skipped for the limit exactly past the first 64; any other skip is of one of those 64, and its reason holds of the frontends it names (`Skips.Justified`): an overlap or an outranking route names a rule that ranks over the skipped entry by precedence, frontend order and header match order, is not the skipped one, routes otherwise, may meet it and is not settled over it |
| `Skips.ReportedSkipsHold` | crates/builder/src/lib.rs:2661-2714 | so it is for every skip the whole pass reports, in the group of the frontend it names |
| `Skips.ChooseAllFails` | crates/builder/src/lib.rs:2900-2940 | a choice fails only where a standing frontend of another match has the key of a copy it needs, or where more than 64 keys no standing frontend has are needed for copies of routes that outrank standing header matches |
| `Lifting.KeptInPlace` | crates/builder/src/lib.rs:2705-2711 | what is kept stands in frontend order, and nothing skipped is kept |
| `Lifting.CopiesAscend` | crates/builder/src/lib.rs:2700-2714 | copies stand in the order of the header matches that brought them |
| `Lifting.SkipsByGroup` | crates/builder/src/lib.rs:2661-2714 | the skips of a group follow those of the groups before it |
| `Lifting.GroupFrontends` | crates/builder/src/lib.rs:2678-2684 | the groups are those of the frontends, each once, with their members in frontend order |
| `Lifting.LiftHeaderMatches` | crates/builder/src/lib.rs:2661-2714 | every group is planned, the skips are the plans' one after the other in the order of the groups, exactly the skipped frontends are dropped, and the copies are the stable sort by header match of the plans' copies one after the other |
| `Lifting.KeepFrontends` | crates/builder/src/lib.rs:2705-2711 | the kept frontends are those not skipped, in order |
| `Precedence.OutrankingIsAnswered` | crates/builder/src/lib.rs:2583-2588 | a plain route outranking a kept header match is copied, covered, or stood in for by a kept header match that outranks it |
| `Precedence.PrecedenceHolds` | crates/builder/src/lib.rs:2573-2660 | on one hostname, for every request a kept header match takes and every order, the served rule has against each matching kept frontend (plain regex paths aside) its effect or that of a matching kept frontend ranking over it |
| `Precedence.CopyWithinOwner` | crates/builder/src/lib.rs:2583-2588 | a copy takes no request its header match cannot, off the query case |
| `Precedence.NothingAdded` | crates/builder/src/lib.rs:2705-2713 | a request no kept header match takes is served as if only plain routes were held |
| `Precedence.KeysDistinct` | crates/builder/src/lib.rs:2638-2646 | every copy's route key differs from every kept frontend's and every other copy's |
| `Precedence.PlanIsBounded` | crates/builder/src/lib.rs:2536-2571 | a planned hostname holds at most 64 header matches and 64 copies |
| `Precedence.OnlyRegexTakesKeys` | crates/builder/src/lib.rs:2643-2646 | a copy's key is held by another match only where a regex path spells it |
| `Lifting.LiftedServesRightly` | crates/builder/src/lib.rs:2573-2714 | the theorem of `Precedence.PrecedenceHolds` for what the whole pass returns, in every leaf that is one group's, as every leaf of a build is |
| `Lifting.LiftedAddsNothing` | crates/builder/src/lib.rs:2661-2714 | for every other request, in every such leaf, the whole pass adds nothing |
| `Lifting.LiftedAddsNothingUnqueried` | crates/builder/src/lib.rs:2981-2989 | so it is whenever no header match's path has a `?` |
| `Lifting.KeysDistinctAcross` | crates/builder/src/lib.rs:2649-2652 | a copy's route key differs from that of every frontend of another leaf |
| `Programmed.CopiesDetermined` | crates/builder/src/lib.rs:2685-2704 | the copies of the plans are one sequence, whatever order the groups are visited in |
| `Programmed.ProgramApart` | crates/builder/src/lib.rs:2661-2714 | over the kept frontends and copies as listed, each route key occurs once, where each group has a leaf to itself |
| `Programmed.ProgramIsBounded` | crates/builder/src/lib.rs:2536-2571 | as listed, at most 64 header matches of a group are kept and at most 64 copies added to it |
| `Queries.CopyTakesMore` | crates/builder/src/lib.rs:2981-2989 | a build in which a request no kept header match takes is served by a copy, to another backend than without the pass |
| `Routing.UnzonedHaveOwnLeaves` | crates/builder/src/lib.rs:278-281 | listeners without a zone, the only ones a build has, give each group a leaf to itself |
| `Zones.SafeExactly` | crates/builder/src/lib.rs:2716-2721 | for any listeners at all, a set of groups keeps its promises for all frontends if and only if no two of them share a leaf |
| `Collisions.KeepFirst` | crates/builder/src/lib.rs:2309-2320 | the first frontend of each key is kept and filed as its winner |
| `Collisions.SettleAll` | crates/builder/src/lib.rs:2322-2361 | each other frontend is passed over, folded or reported as specified |
| `Collisions.ResolveFrontendCollisions` | crates/builder/src/lib.rs:2292-2363 | the passes compute the resolution the lemmas below are about |
| `Collisions.KeptIsOldest` | crates/builder/src/lib.rs:2300-2320 | a kept frontend ranks first of its key by claim, then emission order; what that order is `Collisions.OldestIsKept` says on timestamps and names |
| `Collisions.ClaimOrder` | crates/builder/src/lib.rs:2202-2219 | claims are ordered by age, then name: a timestamp before none, then the earlier timestamp, then the earlier `namespace/name`, strings by their first difference |
| `Collisions.OldestIsKept` | crates/builder/src/lib.rs:2300-2320 | against every input on its key a kept frontend has a timestamp if that input has one, and that input is not earlier in time, nor on equal times in name; on a full tie it is emitted first |
| `Collisions.KeptInOrder` | crates/builder/src/lib.rs:2300-2320 | kept frontends stand oldest object first, and as emitted where neither is older |
| `Collisions.SettledExactly` | crates/builder/src/lib.rs:2322-2361 | folded are exactly the inputs that repeat, from another source, the match and effect of what is kept for their key; collisions are exactly those that match otherwise, or have another effect from another object, each reported on its own source with its hostname, path, winning cluster and whether only the key is shared |
| `Collisions.ReportsInOrder` | crates/builder/src/lib.rs:2322-2361 | folded inputs and reports stand in the order the inputs are settled in |
| `Collisions.OneKeptPerKey` | crates/builder/src/lib.rs:2309-2320 | exactly one frontend is kept per route key |
| `Collisions.NothingLostSilently` | crates/builder/src/lib.rs:2322-2361 | every input has a kept winner on its key; a collision is reported with it, and anything else takes the same requests to the same effect or is its own object's repeat |
| `Collisions.InputsConserved` | crates/builder/src/lib.rs:2292-2363 | every input is kept or an own repeat, folded, or reported, once |
| `Collisions.ResolutionIsOrderFree` | crates/builder/src/lib.rs:2300-2308 | with distinct claims any interleaving that keeps each object's order resolves the same |
| `Collisions.KeptAreResolved` | crates/builder/src/lib.rs:2309-2320 | what is kept meets the planner's assumption of one frontend per key |
| `Routing.RoundDetermined` | crates/builder/src/lib.rs:2876-2979 | a round has one outcome |
| `Routing.PlanDetermined` | crates/builder/src/lib.rs:2649-2656 | a group has one plan: the same header matches are skipped, in the same order, for the same reasons |
| `Routing.RequestIsServed` | crates/builder/src/lib.rs:2573-2714 | in every leaf to itself a request some kept header match takes is served as `Precedence.PrecedenceHolds` says, and any other as if the pass had added nothing |
| `Routing.RouteFrontends` | crates/builder/src/lib.rs:4002-4007 | collision resolution followed by planning: kept frontends, copies and skips are the plans', within bounds; without zones every key occurs once and every request is served so in every order, and so it is with zones where each group has a leaf to itself |
| `Routing.LiftedDetermined` | crates/builder/src/lib.rs:2661-2714 | planning has one outcome: plans, kept frontends, copies and skips, each in its order |
| `Routing.RoutingIsOrderFree` | crates/builder/src/lib.rs:2300-2308 | with distinct claims any interleaving that keeps each object's order gives the same winners, reports, kept frontends, copies and skips |
| `Certificates.FindWinners` | crates/builder/src/lib.rs:3575-3585 | each listener and name is won by a claimant that none comes before; what comes before `Certificates.NameGoesToOldest` says on timestamps and names |
| `Certificates.FindWinning` | crates/builder/src/lib.rs:3586-3596 | the winning leaves of a name are those its winner loaded for it |
| `Certificates.SplitNames` | crates/builder/src/lib.rs:3602-3624 | an entry keeps, in order, the names whose winning leaves include its own; the rest are lost to their winners |
| `Certificates.ArbitrateCertificateNames` | crates/builder/src/lib.rs:3563-3648 | each entry keeps exactly the names whose oldest claimant loaded its leaf, and every other is reported on its owner |
| `Certificates.MergeCertificates` | crates/builder/src/lib.rs:3672-3698 | one entry per listener and fingerprint with names, with the union of names and the material `Certificates.LongestChainServed` spells out |
| `Certificates.LongestChainServed` | crates/builder/src/lib.rs:3660-3713 | a leaf is served with a loaded material whose chain is at least as long as that of each of its entries, nameless ones included; among the longest no chain, then key, then leaf is an earlier string |
| `Certificates.ChainOfAllLoaded` | crates/builder/src/lib.rs:3664-3671 | so it is against every certificate loaded for the leaf, whoever keeps its names |
| `Certificates.ServedFirstTransitive` | crates/builder/src/lib.rs:3703-3713 | the order of material is transitive, so a best one exists |
| `Certificates.MergeUnique` | crates/builder/src/lib.rs:3660-3698 | the merge depends only on which entries there are |
| `Certificates.ServedByOldest` | crates/builder/src/lib.rs:3563-3648 | a name is served only from leaves its oldest claimant loaded for it |
| `Certificates.NameGoesToOldest` | crates/builder/src/lib.rs:3575-3596 | a leaf that serves a name was loaded for it by a claimant that, against every claimant of the name in any ASCII case at that listener, holds by age, then name, then kind |
| `Certificates.LossNamesOldest` | crates/builder/src/lib.rs:3598-3624 | a lost name is reported with the kind and spelled name of that oldest claimant, which did not load the leaf for it |
| `Certificates.ReportsApart` | crates/builder/src/lib.rs:3598-3648 | reports are apart by object, Gateway listener and Secret, and hold exactly what a certificate so asked for lost |
| `Certificates.NoNameDisappears` | crates/builder/src/lib.rs:3563-3648 | every claimed name is still served on its listener |
| `Certificates.NamesSplit` | crates/builder/src/lib.rs:3598-3648 | an entry's names split exactly into kept and reported |
| `Certificates.OutcomeIsOrderFree` | crates/builder/src/lib.rs:3563-3698 | reports and merged certificates are the same for every input order |
| `Layer4.ClaimSockets` | crates/builder/src/gateway.rs:2159-2183 | a parent reference makes exactly one claim per programmed listener it selected, in order, and none without a backend |
| `Layer4.AttachRoute` | crates/builder/src/gateway.rs:2092-2200 | a route's claims point at the result of the very reference that made them, and it is counted once per listener |
| `Layer4.CollectClaims` | crates/builder/src/gateway.rs:2091-2211 | all routes' claims, pointing at results appended after those of the other kinds, each at that of its own reference, and attachments counted per listener |
| `Layer4.CountIsSize` | crates/builder/src/gateway.rs:2091-2211 | a listener is counted once for each route with a reference that selects it |
| `Layer4.SettleSockets` | crates/builder/src/gateway.rs:2213-2256 | the first claim of each socket in claim order wins it, the carriers are exactly the claims for its cluster, and every other claim's loss stands on its own parent |
| `Layer4.WinnerIsLeast` | crates/builder/src/gateway.rs:2213-2217 | the winner of a socket comes before every other claim on it in the order of `Collisions.ClaimOrder` |
| `Layer4.SocketGoesToOldest` | crates/builder/src/gateway.rs:1781-1784 | a socket goes to the cluster of a route that has a timestamp if any claimant has, none of whose rivals is earlier in time, or in name on equal times |
| `Layer4.AttachL4Routes` | crates/builder/src/gateway.rs:2087-2274 | the results before stay untouched; exactly one frontend per socket asked for, to a least claimant's cluster, sorted; each bid routes if it asks for that cluster and else is reported on its own result, once, after what resolving its backend reported; no other conflict is reported |
| `Layer4.FrontendsAreOrderFree` | crates/builder/src/gateway.rs:2213-2217 | the frontends do not depend on the order of the routes |
| `Shadows.Keeper.constructor` | crates/controller/src/shadow.rs:57-108 | a file written against the socket that answered is resumed whole, worker set aside, and otherwise the start is empty; the generation is the current one |
| `Shadows.Keeper.CheckRestartGeneration` | crates/controller/src/shadow.rs:151-183 | a failed probe changes nothing, a reset empties the shadow, and any answer moves its generation |
| `Shadows.Keeper.ProbeGeneration` | crates/controller/src/main.rs:831-854 | a reset writes the file too |
| `Shadows.Keeper.ReplayAcknowledged` | crates/controller/src/shadow.rs:241-272 | a replay is adopted and written exactly when the count is credible and the result differs |
| `Shadows.Keeper.Applied` | crates/controller/src/main.rs:1051-1109 | an empty batch changes nothing, a successful one records the desired state, a failed one what the replay gives |
| `Shadows.SuccessIsRecorded` | crates/controller/src/main.rs:1086-1109 | a batch that succeeds makes the desired state the shadow, and the file; an empty one writes nothing |
| `Shadows.FailureIsRecorded` | crates/controller/src/shadow.rs:241-272 | a failed batch with a credible count and a described replay makes that replay the shadow, and the file if it differs; any other failure leaves both |
| `Shadows.EffectCovers` | crates/controller/src/shadow.rs:211-238 | a batch keeps a true shadow true when both advance by it |
| `Shadows.AppliedDiffPrograms` | crates/controller/src/shadow.rs:1-17 | after a diff from a true shadow Sōzu agrees with the desired state on every object either lists, so orphans are pruned |
| `Shadows.UnrecordedRequests` | crates/controller/src/main.rs:1066-1072 | requests the shadow does not record leave it true if and only if they disturb none of its claims |
| `Shadows.StaleShadowSkipsARemovedObject` | crates/controller/src/shadow.rs:220-226 | an unrecorded removal makes the object, wanted again, diff to nothing |
| `Shadows.PlayLands` | crates/controller/src/shadow.rs:120-140 | a batch delivered across restarts and bounces ends on the same socket with its whole effect, or on a socket never seen before |
| `Shadows.StepKeepsSound` | crates/controller/src/main.rs:1051-1109 | every step keeps the claims of shadow and file true |
| `Shadows.ShadowIsTrue` | crates/controller/src/shadow.rs:57-272 | in every run, whenever a recorded socket is the live one, Sōzu holds everything the shadow claims, and so for the file |
| `Shadows.CheckedShadowIsTrue` | crates/controller/src/shadow.rs:151-210 | after a check that answered the shadow is true outright, and the check resets exactly when a non-empty shadow names another socket or none |
| `Shadows.ApplyPrograms` | crates/controller/src/main.rs:1086-1108 | an apply on the named Sōzu leaves it agreeing with the desired state on all it or the shadow lists |
| `Shadows.RetryPrograms` | crates/controller/src/shadow.rs:211-238 | after a recorded failure one batch that succeeds on the same Sōzu leaves everything the first shadow, the desired state or an acknowledged request names as desired |
| `RunLoop.Controller.ProbeSozuGeneration` | crates/controller/src/main.rs:831-854 | only an answer acknowledges the reconnect, and only a reset drops readiness |
| `RunLoop.Controller.Inspect` | crates/controller/src/main.rs:1670-1697 | when the check runs, what it finds and when it nudges |
| `RunLoop.Controller.Step` | crates/controller/src/main.rs:1586-1763 | one pass of the loop is the specified turn |
| `RunLoop.Controller.Start` | crates/controller/src/main.rs:1474-1585 | start-up is the specified one, its own re-check and first reconcile included |
| `RunLoop.TurnKeeps` | crates/controller/src/main.rs:1586-1763 | a pass keeps the loop's invariant in each of the four tick configurations |
| `RunLoop.NothingIsForgotten` | crates/controller/src/main.rs:562-638 | in every run: pending work has a tick or a retry; an unanswered reset has the loop unready and a nudge or pending work; an unacknowledged reconnect has the tick or a nudge; an unready loop has work coming |
| `RunLoop.FailedProbesDecideNothing` | crates/controller/src/main.rs:824-854 | a pass whose probes fail leaves shadow, file, readiness and epoch as the reconcile alone would, and a liveness tick then reconciles nothing |
| `RunLoop.ReadyOnlyByReconcile` | crates/controller/src/main.rs:558-579 | readiness comes back only with a reconcile that succeeds |
| `RunLoop.OnePassRecovers` | crates/controller/src/main.rs:596-638 | from every state with work left the wakeup it can count on leads, if Sōzu answers and the reconcile succeeds, to a ready loop with nothing pending |
| `RunLoop.WakeupsReconcile` | crates/controller/src/main.rs:588-616 | a pass woken by a change, a resync or a retry always ends in the reconcile; a liveness tick does exactly when Sōzu answered and work is pending or a non-empty shadow names another socket or none |
| `RunLoop.RebuildsSettle` | crates/controller/src/main.rs:1700-1763 | a reconcile that succeeds leaves the loop ready, nothing pending and the sent state as shadow; one that fails leaves work pending |
| `RunLoop.ProbeConcludes` | crates/controller/src/main.rs:824-854 | what each probe concludes, about shadow, file, readiness, the acknowledged epoch and the queue |
| `RunLoop.ReconnectsAreChecked` | crates/controller/src/main.rs:1474-1763 | a reconnect is checked before a reconcile, after it, and at a start, where one that cannot be checked leaves nothing taken up |
| `RunLoop.StartReconciles` | crates/controller/src/main.rs:1540-1585 | a start ends in a reconcile that decides readiness and pending work |
| `RunLoop.ReadyUntilReset` | crates/controller/src/main.rs:553-580 | readiness is lost only to an answer that shows another Sōzu under a non-empty shadow |
| `RunLoop.UnansweredTickIsQuiet` | crates/controller/src/main.rs:618-625 | with the liveness tick on, a tick without an answer queues nothing and rebuilds nothing |
| `Reconcile.StartKeepsShadowTrue` | crates/controller/src/main.rs:1474-1585 | a controller start, its load, re-check and first reconcile included, leaves shadow and file true and the loop's invariant established |
| `Reconcile.StartResumes` | crates/controller/src/shadow.rs:80-90 | a start beside the Sōzu the file was written against lists what the file lists, through bounces and a checked reconnect |
| `Reconcile.ResumedStartPrograms` | crates/controller/src/shadow.rs:1-17 | after a restart of the controller alone the first reconcile that succeeds leaves every object the file or the desired state lists as desired: what left the desired state meanwhile is gone |
| `Reconcile.PassKeepsShadowTrue` | crates/controller/src/main.rs:1586-1763 | a pass keeps shadow and file true whatever Sōzu does before, between, during and after its check and its batch |
| `Reconcile.LoopKeepsShadowTrue` | crates/controller/src/main.rs:1586-1763 | in every run of the loop beside a live Sōzu, at every head of the loop, nothing is forgotten and a shadow of the live socket claims only what Sōzu holds |
| `Reconcile.ReadyMeansProgrammed` | crates/controller/src/main.rs:558-567 | a check that answered and a reconcile that succeeded, with no restart between, leave the loop ready and Sōzu agreeing with the desired state on all it or the shadow lists |
| `Wakeups.Channel.DrainPending` | crates/controller/src/changes.rs:44-53 | the drain ends after at most the notices queued at its start and leaves at most what arrived meanwhile |
| `Wakeups.Settle` | crates/controller/src/changes.rs:18-33 | whatever arrives during the debounce and on either channel while it or the other is drained, settling ends and leaves at most what arrived after a channel's turn began |
| `Wakeups.NotifyEvent` | crates/controller/src/main.rs:411-458 | an event's notice goes to the channel the filter and its kind select |
| `Wakeups.NoticeGoes` | crates/controller/src/main.rs:405-458 | an unreferenced Service's slice wakes nothing once a build has referenced something; a referenced one's and a relist go to the endpoints channel, everything else and the time before to the changes channel |
| `Wakeups.ReceiptsCommit` | crates/controller/src/changes.rs:18-33 | a change is debounced, an endpoint notice and a tick are not; a build or a pass that fails leaves work pending |
| `Wakeups.RunKeeps` | crates/controller/src/main.rs:1598-1607 | every interleaving keeps a missing change in flight, woken for or filtered |
| `Wakeups.NoWakeupIsLost` | crates/controller/src/main.rs:418-458 | a change the last snapshot lacks has its notice to come or a rebuild certain, unless it is of slices of an unreferenced Service, or one of the two losses |
| `Wakeups.LostExactly` | crates/controller/src/main.rs:418-458 | where nothing is to come for a referenced part of the caches, it is missing from the last snapshot if and only if one of the two losses happened to it |
| `Wakeups.SettlingEnds` | crates/controller/src/changes.rs:44-53 | whatever producers send, a committed loop builds after a bounded number of its own steps |
| `Wakeups.DrainsBoth` | crates/controller/src/changes.rs:18-53 | without producers settling leaves both channels empty and the snapshot next |
| `Wakeups.LostBesideABuild` | crates/controller/src/main.rs:996-1025 | a reachable state with a referenced Service's change missed between snapshot and publication |
| `Wakeups.LostByRelabelling` | crates/controller/src/main.rs:411-416 | a reachable state with a referenced Service's slice moved away unheard |
| `Status.TellingIsKept` | crates/controller/src/status.rs:129-155 | conditions that already say what is wanted are kept to the letter, whatever the clock |
| `Status.RouteParents` | crates/controller/src/status.rs:660-743 | the loops compute the merge, whose entries `Status.ParentIsReported` spells out |
| `Status.ParentIsReported` | crates/controller/src/status.rs:676-733 | after a merge with distinct references each owned parent has exactly one entry of the controller, under its own name, namespace, port and section; its Accepted and ResolvedRefs conditions carry their own status, reason and message and the writer's generation, and there is no other condition |
| `Status.NothingStaleIsLeft` | crates/controller/src/status.rs:668-675 | every entry of the controller for a Gateway the writer owns reports one of its parents, however the reference was spelled |
| `Status.OthersStay` | crates/controller/src/status.rs:666-743 | a merge lists all other controllers' entries first, in their order, then the controller's sorted by reference, those of Gateways the writer does not own as they were |
| `Status.TimesMoveWithContent` | crates/controller/src/status.rs:134-145 | a condition keeps the time of the first of its kind when it says the same, and else carries the clock's |
| `Status.OneOwner` | crates/controller/src/scope.rs:80-89 | a Gateway is owned by the instance scoped to it, by the shared one exactly if not excluded, and never by an Ingress-only one |
| `Status.MergeKeepsOthers` | crates/controller/src/status.rs:650-676 | other controllers' entries stay to the letter and in order, other instances' under each reference, and the writer's own are the rebuilt ones |
| `Status.FixedExactlyWhenRight` | crates/controller/src/status.rs:652-659 | a merge changes nothing if and only if the list has its form and the writer's entries are what it would rebuild |
| `Status.MergeIsFixed` | crates/controller/src/status.rs:655-659 | with distinct references a merge's output is left alone at every clock |
| `Status.SettlesExactlyWhenConsistent` | crates/controller/src/status.rs:689-697 | parents sharing a reference ask for the same conditions if and only if some list is left alone, and if and only if two merges reach one from every list at every two clocks |
| `Status.TwoMergesSettle` | crates/controller/src/status.rs:655-659 | with such parents two merges, at any clocks, reach a list that is left alone |
| `Status.NothingOfOthersIsLost` | crates/controller/src/status.rs:865-888 | no step of any interleaving but a writer's own touches its entries, or another controller's |
| `Status.WritersSettle` | crates/controller/src/status.rs:833-888 | once every writer of disjoint scope has completed a pass, in any interleaving, the list is one all of them leave alone, or any of them makes it one |
| `Status.WriteRoute` | crates/controller/src/status.rs:833-888 | a pass merges afresh after each conflict, ends within three attempts, and writes only the merge of what it last read |
| `Status.SettledMeans` | crates/controller/src/status.rs:833-888 | what is stale, unchanged, written or failed, by generation, identity, version and reply |
| `MergePatch.MergePatch` | crates/controller/src/provision.rs:876-891 | the loop computes the specified patch |
| `MergePatch.PatchConvergesExactly` | crates/controller/src/provision.rs:579-595 | for any live object and previous template, the patched object holds everything wanted if and only if the wanted object has no null field |
| `MergePatch.SubsetEverywhere` | crates/controller/src/provision.rs:863-873 | a live object counts as already there if and only if down every way of fields and items it has what is wanted, arrays as long and scalars the same |
| `MergePatch.PatchedPathByPath` | crates/controller/src/provision.rs:876-891 | at every path: wanted values stand, fields the previous template set and the wanted one lacks are gone, and fields in neither are as they were |
| `SliceFilter.BuildIndex` | crates/builder/src/lib.rs:1594-1599 | the index gives each Service its slices in order, and unlabelled slices to none |
| `SliceFilter.ResolveBackends` | crates/builder/src/lib.rs:1808-1863 | the addresses are exactly those of ready endpoints on the matching port of address slices, once each, in order |
| `SliceFilter.ResolvedExactly` | crates/builder/src/lib.rs:1773-1863 | an address is resolved if and only if an endpoint not known to be unready spells it in an address slice whose port number is valid and whose port carries the Service port: the first of its name, or a sole unnamed one of its protocol where none has the name |
| `SliceFilter.ResolvedAscending` | crates/builder/src/lib.rs:1860-1861 | the addresses stand from the least, each once |
| `SliceFilter.FeedingExactly` | crates/builder/src/lib.rs:1378-1398 | a slice feeds the Service its label names in its own namespace, by default `default` |
| `SliceFilter.ResolutionIsOrderFree` | crates/builder/src/lib.rs:1808-1863 | a Service's slices resolve the same in any order |
| `SliceFilter.Accumulators.AddServiceRoute` | crates/builder/src/lib.rs:2008-2073 | the Service is recorded whatever comes of it; clusters, backends, answer and problems are what the slices feeding that Service alone determine |
| `SliceFilter.RefFindsFirst` | crates/builder/src/lib.rs:1640-1661 | a reference finds the first port it takes, by number or name, an HTTP one the TCP entry of its number if there is one |
| `SliceFilter.TwinsHaveOwnClusters` | crates/builder/src/lib.rs:1662-1675 | entries of one number have different cluster ids where their lowercased protocols differ and one id where their protocols agree, the first entry the plain one |
| `SliceFilter.RefusedSays` | crates/builder/src/lib.rs:1627-1661 | a reference is refused if and only if there is no such Service or no port it takes, and the refusal names the Service and the port as asked |
| `SliceFilter.ToldOnce` | crates/builder/src/lib.rs:2026-2037 | an object is told each finding about the Service once, and nothing else |
| `SliceFilter.RouteHasCluster` | crates/builder/src/lib.rs:2026-2053 | a routed reference leaves its cluster, set as its Service asks if new, no other new one, and the Service's faults told |
| `SliceFilter.RouteHasBackends` | crates/builder/src/lib.rs:2054-2073 | it is ready exactly when an address resolved, every address has a backend of the cluster, and a new one has the address and, in a sticky cluster, its own cookie |
| `SliceFilter.Accumulators.AddBackends` | crates/builder/src/lib.rs:2059-2071 | each address gets a backend unless its id has one |
| `SliceFilter.AddedKeeps` | crates/builder/src/lib.rs:2018-2073 | clusters and backends there before stay as they are, problems are only added, and a reference that fails adds nothing but its record |
| `SliceFilter.RunBuild` | crates/builder/src/lib.rs:1590-1599 | a build as it runs, the index once and then call after call on the shared accumulators, goes through the stages the lemmas below are about |
| `SliceFilter.SameBuild` | crates/builder/src/lib.rs:2018-2022 | whatever calls a build makes, two runs go through the same stages while no Service the edit touches has been referenced |
| `SliceFilter.PingsExactly` | crates/controller/src/main.rs:405-416 | once a build has referenced a Service a slice wakes the loop if and only if its label and namespace, by default `default`, spell a referenced one |
| `SliceFilter.UnheardEditsChangeNothing` | crates/controller/src/main.rs:399-416 | an edit whose slices, before and after, wake nothing leaves the whole build as it was: output, clusters, backends and referenced Services |
| `SliceFilter.RelabelledSliceChangesTheBuild` | crates/controller/src/main.rs:411-416 | the slice before the edit matters: relabelled, it changes the build and wakes nothing |

## Left out

- Sōzu's order among plain routes alone, and among plain regex paths: the code declares it out of scope.
- The compiled-regex cache, and reports of a skip to the sources folded into the skipped header match: caching and formatting around what is modelled.
- The translator, the agent, HMACs, certificate and PEM parsing, IDNA: foreign code, seen through parameters and laws.
- Watch streams, HTTP servers, Events, metrics, shutdown signals, the re-probe of missing CRDs: plumbing.
- A shadow file whose write fails, and private keys blanked in it: the file is written whole or not configured.
- What resolving a layer-4 backend reports: a parent's first problems are taken as given.
- `ensure`'s cache of confirmed writes, Service allocations and the 128 KiB limit: only the patch and its comparison are modelled.
- Gateway, GatewayClass, listener and Ingress status: the same condition building without the shared list.
- Namespace selectors, ReferenceGrants, annotation parsing and filter translation: their results are fields of the objects modelled.
- SliceFilter.SameBuild: what the routes' mappers do between two calls of `add_service_route` is any deterministic computation over the other inputs, the clusters and the backends.
- Necessity.ConflictExactly: says nothing of user regexes, in paths or headers, whose common matches are not decided here.
- Certificates.MergeCertificates: the merged certificates are a map, where the source lists them by key.
