# The VPN client's protocols, modelled and proved

A Dafny model of the parts of the Claimward VPN client in which it is hard to see that
nothing goes wrong: the privileged helper's sessions and leases under concurrency, the
clocks of the app and the helper, the app's renewal loops, the routes of a Windows tunnel,
the check of the helper's access-control lists, and the rotation of refresh tokens.
`dafny verify dfyconfig.toml` checks all of it.

## How it is laid out

**The helper** (`pkg/helper/helper.go`) is in two layers over one set of functions.

- `HelperState` has what the mutex guards, as values, and one function per critical
  section: `Stop`, `Commit`, `Renew`, `RetryLater`, `Drop`, `BringBearer`, `SetLease`.
  Sessions and tunnels are kept in the order of their creation, so that a session which a
  thread still holds after it was stopped has a name.
- `HelperServer` is the imperative layer: classes `Server`, `Session` and `Tunnel` whose
  methods are the critical sections, statement by statement. Each is proved to do to the
  objects exactly what its function does to the values.
- `HelperProtocol` is the concurrent layer: a transition system with any number of threads
  (connects, renewal loops, renewNow calls, re-enrollments, deregistrations). A step is one
  critical section, one network answer, one timer or one receive from the wake channel.
  Which thread moves, what the server answers, whether the tunnel comes up and what the
  clock shows are chosen freely. A ghost log keeps every call to a server, every enrollment
  and what became of it; a ghost lineage says which connect a session descends from.
- `HelperInvariant` states what every step keeps, `HelperSteps` proves it step by step, and
  `HelperTheorems`, `HelperRaces` and `HelperConservation` prove the properties of all
  runs. `HelperProgress` proves what is achieved where nothing comes between, from every
  state the invariant allows, `HelperOutcomes` what every request, refusal
  and failure comes to, `HelperQuiescence` that every run can come to rest, and
  `HelperDeadlines` whether a waiting loop fires before its lease ends.
  `HelperExamples` has two runs worth knowing.

**The clocks** (`LeaseClock`) are integer nanoseconds, with Go's truncating division, the
int64 wrap of `remaining*2`, and the saturation of `time.Until`.

**The app's loops** (`AppLoop`): the four sections that use `stopRenew`, in any order.

**Routes**: `Powers` and `Prefixes` have addresses as 32-bit and 128-bit naturals and
prefixes by shifts; `NetPlan` has `planNetwork` and `RouteUpdates` the adapter's table.

**Access control** (`AccessControl`) sets `checkACL` against the ordered evaluation of
section 2.5.3.2 of MS-DTYP. **Token rotation** (`TokenRotation`) sets `RegisterKey` against
a provider that rotates refresh tokens, section 6 of RFC 6749; `TokenRaces` lets any number of
calls overlap, request by request, and `TokenStore` has their loads and saves of the stored
session among the requests.

## What is not as the source's comments say

The code is followed; each of these is a proved statement, named below.

- `renewNow` may write `renewBy` without the loop noticing: the retry branch sends no wake,
  though the comment on `wake` says it tells the loop that the deadline moved. It is the one
  write that may be missed, and is missed exactly if no wake is waiting
  (`HelperConservation.MissesExactly`, with a run in `HelperExamples.LoopMissesDeadline`).
- Giving back spares the live session's enrollment, but not one that another thread is about
  to bring up for the same server and key. Three critical sections may cut it: a disconnect, a
  superseded re-enrollment, and an enrollment that replaces a session, whether or not its own
  tunnel comes up (`HelperRaces.GivingBackCuts` says exactly when, by the state before). So
  a live tunnel can come to rest on an enrollment that was given back
  (`HelperExamples.LiveSessionGivenBack` is a run).
- A failed renewal has the other half of the lease to be retried in exactly if at least a
  minute was left (`LeaseClock.RenewalBeforeLeaseEnds`).
- `UpdateRoutes` compares texts, not routes, and takes no notice of a deletion that fails. A
  dropped text takes away the route of a kept one that means the same; a route that could not
  be deleted stays; and what an update that fails half-way took away, the next does not bring
  back. `RouteUpdates.UpdateAgreesExactly` and `RouteUpdates.AfterFailedExactly` say exactly
  when the table agrees all the same, `RouteUpdates.DefaultRouteStrays` has an input for each.
- `RegisterKey` returns no token when it fails, so a refresh token that was spent before the
  failure is lost with the error, and the session with it: `TokenRotation.RotationExactly`
  says exactly when a spent token is presented over any calls,
  `TokenRotation.RefusalAfterLapseLosesToken` has an input. Calls that overlap have the same
  effect, in whatever order their requests go (`TokenRaces.InterleavedCallsExactly`); the app
  does not keep them from overlapping, since the bearer for a connect, for a renewal and for
  the list of tenants is fetched outside its mutex. What is stored is then good exactly if no
  token was spent since the last request of the call that saved last
  (`TokenStore.StoredIsLiveExactly`); a failed save and an older call's save lose it
  (`TokenStore.FailedSaveLoses`, `TokenStore.OlderSaveLoses`).

## Model

| member | source | states |
|---|---|---|
| HelperState.TrimSlashes | pkg/helper/helper.go:217 | strings.TrimRight with "/": the longest prefix of the URL that does not end in a slash |
| HelperState.NamesUpToSlashes | pkg/helper/helper.go:217-219 | two URLs name the same server exactly if they are equal but for slashes at the end |
| HelperState.FirstNamedIsConfigured | pkg/helper/helper.go:213-224 | a server that is found is the first of the configuration that the spec names; none means that none is named |
| HelperState.AllowedExactly | pkg/helper/helper.go:214-221 | a spec is allowed, on the first server it names, exactly if it brings a bearer |
| HelperServer.Allowed | pkg/helper/helper.go:213-224 | the loop over cfg.Servers returns the first server that the spec names, and refuses a missing spec, an empty bearer or an unknown server |
| HelperServer.Session.SetLease | pkg/helper/helper.go:337-348 | lease, renewBy and the wake token after setLeaseLocked; a token already there stays the only one |
| HelperServer.Server.StopLocked | pkg/helper/helper.go:497-508 | the live session's context is cancelled, its tunnel closed once more, sess nil and gen one higher; without a session nothing changes |
| HelperServer.Server.CommitEnrollment | pkg/helper/helper.go:274-306 | the whole critical section of enroll: superseded, tunnel failed or committed, the state after each, and which enrollment is to be given back |
| HelperServer.Server.Open | pkg/helper/helper.go:298-305 | a new session of the next generation, with its own tunnel, becomes the live one; all others stay as they were |
| HelperServer.Server.Renew | pkg/helper/helper.go:392-400 | the 200 branch: the lease is recorded even in a session that was stopped, and lastErr cleared only if it is live |
| HelperServer.Server.RetryLater | pkg/helper/helper.go:421-433 | the default branch: renewBy moves by the retry gap and lastErr is written, live or not; no wake is sent |
| HelperServer.Server.Drop | pkg/helper/helper.go:439-448 | the session is stopped and the reason kept if it is the live one; otherwise nothing changes |
| HelperServer.Server.TakeBearer | pkg/helper/helper.go:453-463 | renewNow's critical section: the live session is the one to renew, and has the bearer that RenewNowBrings is about |
| HelperServer.Server.ReceiveWake | pkg/helper/helper.go:368-370 | the loop's receive takes the one token |
| HelperServer.Server.Down | pkg/helper/helper.go:474-482 | the session is stopped, lastErr cleared, and the enrollment of the session that was live is given back |
| HelperServer.Server.Shutdown | pkg/helper/helper.go:527-531 | the session is stopped, and nothing given back |
| HelperSteps.StepKeepsInv | pkg/helper/helper.go:213-531 | every step of every thread, with whatever answer, keeps the whole invariant |
| HelperSteps.RenewalIsGenuine | pkg/helper/helper.go:252-260 | a re-enrollment never fails what enroll checks before it calls the server |
| HelperTheorems.OneTunnel | pkg/helper/helper.go:287-306 | in every reachable state the open tunnels are the live session's or none, none was closed twice, no two sessions share one, and the contexts not cancelled are exactly the live session's |
| HelperTheorems.GenTellsLive | pkg/helper/helper.go:275 | a session's generation equals the server's exactly if it is the live one; generations are not zero and increase strictly |
| HelperTheorems.RunEvolves | pkg/helper/helper.go:275-508 | over any run a session keeps generation, server, key, tunnel and address, and its spec but for the bearer; a cancelled context stays so, closes only add up, and no session that was not live becomes so |
| HelperTheorems.DeadStaysDead | pkg/helper/helper.go:298-305 | no ABA: a session that is not live at some time is live at no later one |
| HelperTheorems.LiveSessionHasRenewer | pkg/helper/helper.go:358-419 | in every reachable state with a live session, the loop spawned for it has not ended |
| HelperTheorems.OneLoopEach | pkg/helper/helper.go:308 | no session, live or not, ever has two renewal loops |
| HelperRaces.RacingReenrollments | pkg/helper/helper.go:275-291 | of the re-enrollments of one session one acts exactly if the session is still live, and ends it; every other leaves sess, gen, sessions and tunnels alone, and gives its enrollment back exactly if that is not the live session's |
| HelperRaces.OneHeir | pkg/helper/helper.go:402-413 | no session is re-enrolled into two |
| HelperRaces.LiveIsNotGivenBack | pkg/helper/helper.go:275-291 | what any step of any run decides to give back is not the live session's when it decides so |
| HelperRaces.GivingBackCuts | pkg/helper/helper.go:282-291 | as long as nothing held was given back, a step gives back something held exactly if, in the state before, it is a disconnect while a thread waits with an enrollment of the live session's server and key, or the critical section of an enrollment whose guards give back a server and key that another thread waits with |
| HelperRaces.OnlyConnectComesUp | pkg/helper/helper.go:275-286 | with no live session, a step brings one up exactly if it is the critical section of a connect whose tunnel comes up |
| HelperRaces.StaysDown | pkg/helper/helper.go:379-435 | so over any run without such a step nothing comes up, no tunnel opens or closes and gen stands |
| HelperRaces.DisconnectIsFinal | pkg/helper/helper.go:474-483 | after a disconnect, a shutdown or the drop of the live session in any reachable state, whatever was under way and whatever is answered, nothing comes up until a connect commits |
| HelperConservation.EnrollmentsConserved | pkg/helper/helper.go:263-296 | in every quiet reachable state, each enrollment the log has is the live session's, or was given back since it was made and the server told after that, or was left to lapse for a reason on record: bad server key, tunnel failure, drop or shutdown |
| HelperQuiescence.AdvanceWorks | pkg/helper/helper.go:252-435 | each step a thread waits for, with any answer, leaves fewer steps to be taken before the next timer, new threads included |
| HelperQuiescence.WorkEnds | pkg/helper/helper.go:252-435 | so a run of such steps is no longer than what is left at its start |
| HelperQuiescence.QuietExactly | pkg/helper/helper.go:358-376 | and none is left exactly in a quiet state |
| HelperQuiescence.EveryRunComesToRest | pkg/helper/helper.go:252-494 | every run can be run on to a quiet state, within that bound |
| HelperConservation.OutstandingUnlessSettled | pkg/helper/helper.go:263-296 | an enrollment neither given back nor left to lapse since it was made is outstanding |
| HelperConservation.IdentityKept | pkg/helper/helper.go:213-233 | every enroll, tenants, heartbeat and deregister call of a run goes to a configured server; every session's server, key, tenant and device name are those of the connect it descends from |
| HelperConservation.ChainKeepsIdentity | pkg/helper/helper.go:407-410 | a session re-enrolled any number of times has the server, key, tenant and device name of the session at the root of its chain |
| HelperConservation.RootOrigin | pkg/helper/helper.go:407-410 | a chain of re-enrollments goes back to the session of a connect, with the same origin |
| HelperConservation.NoLostWake | pkg/helper/helper.go:337-377 | in every reachable state a loop that waits on a timer computed before the latest setLeaseLocked has a token waiting; with none, all it has not seen are retries |
| HelperConservation.WakeRereads | pkg/helper/helper.go:358-372 | a loop that has a token waiting comes to wait on the latest deadline after two steps of its own |
| HelperConservation.MissesExactly | pkg/helper/helper.go:335-348 | in any run, a waiting loop comes to miss a deadline exactly by the retry of a renewNow on its session while no token is waiting |
| HelperConservation.RetryOfRenewNowIsNotSeen | pkg/helper/helper.go:421-433 | whenever the live session's loop waits, a renewNow that fails moves renewBy and leaves the loop on the old timer, which goes unnoticed exactly if no token was waiting |
| HelperDeadlines.FiresBeforeLeaseEnds | pkg/helper/helper.go:335-373 | in every reachable state a waiting loop with no token waits on a deadline written under the session's present lease, and that is before the lease's end exactly if more than 30 s of it were left when it was recorded, or more than 1 s when a renewal was to be retried; also where a later deadline was missed |
| HelperDeadlines.FiresExactly | pkg/helper/helper.go:359-375 | the loop goes to renew from the moment of that deadline on, not before |
| HelperProgress.ConnectComesUp | pkg/helper/helper.go:252-313 | an allowed connect that is granted and brought up is the live session with the spec, lease and address it was given, with a loop of its own; the session before is given back exactly if it was of another server or key |
| HelperProgress.ForgottenComesBack | pkg/helper/helper.go:402-413 | a device the server forgot is enrolled again with the server, key and spec it had, under a new generation and lease, and nothing is given back |
| HelperProgress.RenewalEnds | pkg/helper/helper.go:380-434 | every other answer to a renewal: which take the session down, change its lease, wake its loop, add a deadline and within which bounds, and what is left alone when the session was stopped meanwhile |
| HelperOutcomes.ForgottenForGood | pkg/helper/helper.go:402-413 | a renewal of the live session, by its loop or a renewNow, that is answered 404 and whose re-enrollment is refused or has a bad key takes the session down: tunnel closed, context cancelled, reason kept, enrollment lapsed |
| HelperOutcomes.FailedReenrollmentDrops | pkg/helper/helper.go:410-412 | so from any moment of the re-enrollment on, whoever began it; a session stopped meanwhile changes nothing |
| HelperOutcomes.TunnelFailureTakesDown | pkg/helper/helper.go:287-297 | an enrollment whose tunnel does not come up takes the session before it down, gives that back exactly if it was of another server or key, and lapses itself |
| HelperOutcomes.ForgottenAsks | pkg/helper/helper.go:407-410 | a 404 has the session's server asked for its key again, with its spec of the moment |
| HelperOutcomes.RenewNowBrings | pkg/helper/helper.go:453-464 | a renewNow changes the live session's bearer to the one it brings, and nothing else of any session; without a bearer or a session, nothing |
| HelperOutcomes.RenewNowUsesBearer | pkg/helper/helper.go:461-464 | its heartbeat carries that bearer, and so does the re-enrollment after a 404 |
| HelperOutcomes.ConnectAsks | pkg/helper/helper.go:252-265 | a connect asks the first server its spec names, for its own key, exactly if it has a bearer, names one and its key can be read |
| HelperOutcomes.TenantsAsks | pkg/helper/helper.go:226-233 | the tenants are asked of that server under the same conditions, and nothing else happens |
| HelperOutcomes.RefusedConnectChangesNothing | pkg/helper/helper.go:266-272 | a connect that is refused, or answered with a bad key, leaves the live session alone |
| HelperOutcomes.DownDisconnects | pkg/helper/helper.go:474-482 | a disconnect takes the live session down, clears the last error and starts the deregistration of that session's server and key |
| HelperOutcomes.ShutdownLapses | pkg/helper/helper.go:527-531 | a shutdown takes it down, keeps the last error and gives nothing back |
| HelperOutcomes.WaitingLoopEnds | pkg/helper/helper.go:365-367 | a waiting loop ends on its context exactly if its session was stopped |
| HelperExamples.LiveSessionGivenBack | pkg/helper/helper.go:275-291 | there is a run from the start to a live session whose enrollment was given back after it was made |
| HelperExamples.LoopMissesDeadline | pkg/helper/helper.go:421-433 | there is a run from the start to a live session whose loop waits on a deadline since replaced, with no token |
| LeaseClock.MarginExact | pkg/helper/helper.go:135-143 | the helper's delay exceeds the app's by 6 s or more exactly outside a band of durations below -2^62 ns in which the doubling wraps |
| LeaseClock.MarginSharp | pkg/appcore/appcore.go:64-66 | at a minute left the margin is 6 s and no more |
| LeaseClock.HelperDelayIsHalf | pkg/helper/helper.go:135-139 | half of what is left, to the nanosecond, from one minute to twenty; 30 s below and ten minutes above |
| LeaseClock.AppDelayIsTwoFifths | pkg/appcore/appcore.go:64-66 | two fifths from 50 s to twenty minutes; 20 s below and eight minutes above, where the doubling does not wrap |
| LeaseClock.RetryGapIsHalf | pkg/helper/helper.go:426-430 | half of what is left from 2 s to two minutes; 1 s below, a minute above or without a lease |
| LeaseClock.AppComesFirst | pkg/appcore/appcore.go:60-66 | an app that lags by some time comes first at every remaining time exactly if the lag is below 10 s |
| LeaseClock.AppComesFirstWithoutLease | pkg/appcore/appcore.go:410-414 | without a lease from the server the app comes first exactly if it lags by less than two minutes |
| LeaseClock.RenewalBeforeLeaseEnds | pkg/helper/helper.go:129-137 | the renewal is due before the lease ends exactly if more than 30 s are left, and half of it is left to retry in exactly from a minute on |
| LeaseClock.RetryBeforeLeaseEnds | pkg/helper/helper.go:426-430 | a retry comes between 1 s and retryAfter later, and before the lease ends exactly if more than 1 s is left |
| LeaseClock.AttemptsPaced | pkg/helper/helper.go:421-433 | the attempts before the lease ends start when due, are 1 s to 60 s apart, and go on until none fits |
| LeaseClock.AttemptsAtLeast | pkg/helper/helper.go:426-430 | more than 2^k seconds give at least k + 2 attempts |
| LeaseClock.AttemptsAtMost | pkg/helper/helper.go:426-430 | up to 2^k seconds, and two minutes, give at most k + 1 |
| LeaseClock.SixAttempts | pkg/helper/helper.go:335-343 | a lease recorded with a minute or more left is tried at least six times before it ends |
| LeaseClock.AttemptsBounded | pkg/helper/helper.go:421-433 | there are at most six attempts more than minutes begun, by a measure that decreases with the time left |
| LeaseClock.AttemptsSharp | pkg/helper/helper.go:421-433 | both counts are met: six for a minute recorded, seven for a minute left |
| AppLoop.OneRenewalLoop | pkg/appcore/appcore.go:170-180 | after any sequence of sections stopRenew is nil or the cancel of a loop that runs uncancelled, and any loop that does is that one |
| AppLoop.HandedKept | pkg/appcore/appcore.go:365-375 | stopRenew is non-nil exactly if one uncancelled loop runs, and is that loop's cancel: kept by every sequence |
| AppLoop.ExitClearsItsOwn | pkg/appcore/appcore.go:384-393 | in every reachable state a loop's exit clears stopRenew exactly if it is its own, and touches no other loop |
| AppLoop.StoppedStaysStopped | pkg/appcore/appcore.go:365-393 | a loop cancelled or ended never runs again |
| AppLoop.ConnectedHasLoop | pkg/appcore/appcore.go:170-180 | after a Connect, or a Status that is connected and logged in, a loop runs and stopRenew is its cancel: a new one after Connect or if none was there, the old one otherwise |
| AppLoop.DisconnectStopsRenewing | pkg/appcore/appcore.go:441-449 | from Disconnect on no loop runs until a Connect, or a Status that had read the helper connected, starts one |
| AppLoop.App.StatusSection | pkg/appcore/appcore.go:170-180 | Status starts a loop exactly if connected, logged in and none is there |
| AppLoop.App.ConnectSection | pkg/appcore/appcore.go:365-375 | Connect cancels the loop that is there and puts its own in its place |
| AppLoop.App.DisconnectSection | pkg/appcore/appcore.go:444-449 | Disconnect cancels the loop and clears stopRenew |
| AppLoop.App.ExitSection | pkg/appcore/appcore.go:385-393 | a loop that was not cancelled clears stopRenew when it ends |
| Prefixes.MaskedCoversTheSame | pkg/wgtun/netplan.go:92 | masking drops no address and adds none |
| Prefixes.MaskedStaysUnmapped | pkg/wgtun/netplan.go:85-92 | an IPv6 prefix that is not IPv4-mapped does not become so by masking |
| Prefixes.NormalCoversTheSame | pkg/wgtun/netplan.go:77-93 | the route covers exactly what the prefix did, an IPv4-mapped one (section 2.5.5.2 of RFC 4291) the IPv4 addresses whose mapped forms it covered; refused are exactly the mapped ones shorter than /96 |
| Prefixes.NormalIsNormal | pkg/wgtun/netplan.go:77-93 | normalising twice is normalising once, and no IPv6 route has an IPv4-mapped address |
| Prefixes.NormalIsCanonical | pkg/wgtun/netplan.go:77-93 | two routes that cover the same addresses are equal |
| Prefixes.LongerCoversLess | pkg/wgtun/netplan.go:92 | a masked prefix covers two addresses that no longer prefix covers both of |
| Prefixes.MappedByNumbers | pkg/wgtun/netplan.go:85-90 | the IPv4-mapped addresses are those from ::ffff:0:0 on, 2^32 of them, each standing for the IPv4 address at its place |
| NetPlan.SortPrefixes | pkg/wgtun/netplan.go:95-102 | the result is in order and a permutation of what was given |
| NetPlan.PlanRoutes | pkg/wgtun/netplan.go:44-60 | each family's routes are strictly ordered, without duplicates, and exactly those that some text parses to; a default is noted exactly if a /0 is there |
| NetPlan.PlanResolvers | pkg/wgtun/netplan.go:62-73 | the loop splits the resolvers by family, or reports the first that cannot be read; PlannedResolvers says what it splits |
| NetPlan.PlanNetwork | pkg/wgtun/netplan.go:35-75 | the plan is what the configuration asks for, or the error is the address's, or else that of the first unreadable resolver |
| NetPlan.OrderUnique | pkg/wgtun/netplan.go:95-102 | there is only one strictly ordered list of the same prefixes |
| NetPlan.RoutesDependOnTexts | pkg/wgtun/netplan.go:44-60 | permuting or repeating AllowedIPs plans the same routes and defaults |
| NetPlan.DefaultExactly | pkg/wgtun/netplan.go:51-57 | a default is planned exactly if some text asks for 0.0.0.0/0 or ::/0, with whatever host bits |
| NetPlan.ResolversInOrder | pkg/wgtun/netplan.go:62-73 | the split keeps the order within each family |
| NetPlan.ResolversComplete | pkg/wgtun/netplan.go:62-73 | the split loses no resolver |
| NetPlan.PlannedResolvers | pkg/wgtun/netplan.go:62-73 | a plan's resolvers are, in order, what the texts are read as, an IPv6 one at ::ffff:0:0 plus v being the IPv4 one v; no IPv6 one is IPv4-mapped |
| NetPlan.PlanCoversExactly | pkg/wgtun/netplan.go:44-60 | a plan's routes cover exactly the addresses that some text's prefix covers, or for IPv4 whose mapped form an IPv4-mapped one of length 96 or more covers |
| NetPlan.PlanAscends | pkg/wgtun/netplan.go:59-60 | each family's routes ascend by address, then by length |
| RouteUpdates.Tunnel.constructor | pkg/wgtun/wgtun.go:90 | a new adapter starts without routes |
| RouteUpdates.Tunnel.ConfigureFamily | pkg/wgtun/wgtun_windows.go:56-93 | one family's routes are replaced if the plan has any; what makes it fail, and the table it leaves then: any routes of that family if setting them failed, and the other family's as they were |
| RouteUpdates.Tunnel.ConfigureNetwork | pkg/wgtun/wgtun_windows.go:36-96 | both families, IPv4 first, the second only if the first went well; the table after success and after each failure |
| RouteUpdates.FamilySetExactly | pkg/wgtun/wgtun_windows.go:56-64 | setting a family's routes leaves the other family's alone, and leaves exactly the planned ones; nothing changes if there are none, and any may be left if it fails |
| RouteUpdates.ConfiguresExactly | pkg/wgtun/wgtun_windows.go:45-95 | configuring goes well exactly if the routes of each family that has some are set, and the rest of each that has some or the address |
| RouteUpdates.Tunnel.RouteAdd | pkg/wgtun/wgtun_windows.go:113-126 | the route of the text is there afterwards unless it cannot be added; a malformed text changes nothing and is no error |
| RouteUpdates.Tunnel.RouteDel | pkg/wgtun/wgtun_windows.go:128-136 | the route of the text is gone, if it parses and can be deleted; failure is not reported |
| RouteUpdates.Tunnel.UpdateRoutes | pkg/wgtun/wgtun.go:100-136 | the loops leave the table and the list of Update, which the lemmas below are about: deletions come first and their failures pass, an addition that fails ends it and keeps the old list |
| RouteUpdates.Tunnel.AddNew | pkg/wgtun/wgtun.go:127-133 | the loop adds what Added says, which UpdateExactly and AddedExactly are about |
| RouteUpdates.AddedExactly | pkg/wgtun/wgtun.go:127-133 | the texts added are the new ones before the first that cannot be added |
| RouteUpdates.UpdateExactly | pkg/wgtun/wgtun.go:103-136 | after an update a route is there exactly if a new text before the first that cannot be added asks for it, or it was there and no text dropped, that could be deleted, asks for it; the list is the new one exactly if none failed |
| RouteUpdates.Tunnel.DeleteDropped | pkg/wgtun/wgtun.go:122-126 | the dropped texts' routes are deleted, in whatever order the map is ranged over |
| RouteUpdates.AddedAll | pkg/wgtun/wgtun.go:127-133 | if all can be added, all that are new are |
| RouteUpdates.SuccessAgreesExactly | pkg/wgtun/wgtun.go:114-135 | from any table whatever, an update that succeeds agrees with its list exactly if every route that only kept texts ask for is there and stays, and every route that nothing wants is deleted |
| RouteUpdates.UpdateAgreesExactly | pkg/wgtun/wgtun.go:103-136 | from an agreeing table, an update that succeeds, fails half-way or is not taken agrees again exactly under a condition on the two lists and the system's answers; deletions that fail unnoticed are included |
| RouteUpdates.IncrementalExactly | pkg/wgtun/wgtun.go:114-133 | where no deletion fails, the condition is that no dropped text parses to the route of a kept one that nothing adds again |
| RouteUpdates.UpdatesAgree | pkg/wgtun/wgtun.go:103-136 | over any updates, successful or not, the table agrees with the list after every one exactly if each meets its condition |
| RouteUpdates.IncrementalEqualsFromScratch | pkg/wgtun/wgtun.go:103-136 | and then it has exactly the routes planNetwork plans for the last list taken |
| RouteUpdates.DistinctRoutesNeverAlias | pkg/wgtun/wgtun.go:114-126 | a list whose texts parse to different routes never meets the exception |
| RouteUpdates.ConfiguredAgrees | pkg/wgtun/wgtun_windows.go:45-64 | the first configuration, when it goes well, leaves the routes of its list |
| RouteUpdates.AliasLoses | pkg/wgtun/wgtun.go:122-126 | of any two texts for one route, dropping one deletes the route the other, kept, asks for |
| RouteUpdates.AfterFailedExactly | pkg/wgtun/wgtun.go:122-135 | after a failed update and the next that succeeds, from an agreeing table: exactly which routes are missing, which are left over, and when there is none of either |
| RouteUpdates.FailedUpdateLoses | pkg/wgtun/wgtun.go:127-134 | a list that cannot be put in place of a text takes its route away for good, under that text |
| RouteUpdates.FailedDeletionLeaves | pkg/wgtun/wgtun.go:122-126 | a route whose deletion fails stays, though the update succeeds, and the next no longer knows its text |
| RouteUpdates.DefaultRouteStrays | pkg/wgtun/wgtun.go:122-134 | the three with 0.0.0.0/0 and 0.0.0.1/0 |
| AccessControl.CheckACL | pkg/helper/acl.go:118-138 | the loop's verdict and the writers it names, in the order of the list |
| AccessControl.SuspectsExactly | pkg/helper/acl.go:125-133 | named are exactly the trustees, with their masks, of entries that apply, do not deny, write and are not trusted |
| AccessControl.AcceptedIsSafe | pkg/helper/acl.go:110-138 | on an accepted list no token without SYSTEM or Administrators is granted any write right, for any order, any denials and any conditions |
| AccessControl.AcceptedGrantsNoneOfEight | pkg/helper/acl.go:57-62 | on an accepted list no such token is granted any of the eight rights, each named by its value |
| AccessControl.VerdictExactly | pkg/helper/acl.go:118-138 | the whole verdict, with types, flag, rights and SIDs by their values: the owner first, then the missing list, then the entries that count, in order |
| AccessControl.AcceptedExactly | pkg/helper/acl.go:110-138 | a list is accepted exactly if its owner is trusted and, its denials left out, no such token is granted one |
| AccessControl.RefusalNamesWriters | pkg/helper/acl.go:125-136 | on a list without denials each trustee named is untrusted and is granted a write right |
| AccessControl.OrderDoesNotMatter | pkg/helper/acl.go:114-117 | lists of the same entries are accepted alike |
| AccessControl.DirectoryAccepted | pkg/helper/acl.go:89-99 | the directory's own descriptor is accepted whatever its group, and grants an untrusted group FILE_GENERIC_READ and FILE_TRAVERSE exactly |
| AccessControl.SocketRefused | pkg/helper/acl.go:101-108 | the socket's would be accepted exactly if its group were trusted; it grants an untrusted one FILE_GENERIC_READ and FILE_GENERIC_WRITE exactly |
| AccessControl.OwnersInFullControl | pkg/helper/acl.go:97-108 | both give SYSTEM and the Administrators full control, the directory's to be inherited, and name nobody else but the group |
| TokenRotation.Refresh | pkg/auth/goauthn.go:131-169 | the token is filled in field by field to that of Exchange, which ExchangeKeeps is about |
| TokenRotation.RegisterKey | pkg/auth/goauthn.go:87-109 | from a session that is signed in: presents nothing spent, fails just when Fails says, on success hands out a token without the registry's scope and a live refresh token, and spends the session's just when SpendsToken says |
| TokenRotation.Session.BearerFor | pkg/appcore/appcore.go:497-512 | the session takes over the new refresh token exactly on success, and is otherwise unchanged; a provider without a key registry changes nothing |
| TokenRotation.ExchangeKeeps | pkg/auth/goauthn.go:133-169 | a refresh with a live token leaves it live exactly if the provider did not rotate, and a token granted carries a live refresh token |
| TokenRotation.NarrowKeeps | pkg/auth/goauthn.go:105-108 | registering and narrowing presents nothing spent, shows the registry its own scope, and spends the refresh token exactly if the last refresh does |
| TokenRotation.RefreshesFirstExactly | pkg/auth/goauthn.go:95-104 | a call refreshes first exactly if the sign-in token is missing, or has less than a minute or no known time to live |
| TokenRotation.SuccessLogs | pkg/auth/goauthn.go:95-108 | a call that succeeds has shown the registry a token of its scope before the last refresh, and asked nothing beside |
| TokenRotation.NothingAsked | pkg/auth/goauthn.go:88-94 | without the provider's endpoint, or a refresh token, nothing is asked |
| TokenRotation.CallKeepsSession | pkg/auth/goauthn.go:87-109 | one call from a session that is signed in presents nothing spent whatever happens; success leaves it signed in and hands out a token without the registry's scope |
| TokenRotation.RotationIsClean | pkg/appcore/appcore.go:491-512 | over any number of successful calls in a row no spent refresh token is presented, the registry sees only its scope and the VPN server never does |
| TokenRotation.CallSpendsExactly | pkg/auth/goauthn.go:95-108 | any call, failed or not, fails and spends the session's refresh token exactly under conditions on the answers and the sign-in token's expiry |
| TokenRotation.SpentForGood | pkg/appcore/appcore.go:506-509 | once it is lost every later call fails, and presents it spent exactly if the call gets as far as a refresh |
| TokenRotation.RotationExactly | pkg/appcore/appcore.go:497-512 | over any calls in a row, successful or not, a spent token is presented exactly if a call that failed had spent it and a later one gets as far as a refresh; the registry sees only its scope |
| TokenRotation.RefusalAfterLapseLosesToken | pkg/auth/goauthn.go:96-107 | a refused key after a lapsed sign-in is enough to lose it |
| TokenRotation.OverlappingCallsExactly | pkg/auth/goauthn.go:81-84 | of two calls on one refresh token, whatever comes of them, the second presents it spent exactly if the first spent it and the second gets as far as a refresh; then the second fails |
| TokenRotation.OverlappingCallsPresentSpent | pkg/auth/goauthn.go:81-84 | so it is when both get to their last refresh at a provider that rotates |
| TokenRaces.AloneIsRegistered | pkg/auth/goauthn.go:87-109 | a call taken request by request, with nothing between, is RegisterKey |
| TokenRaces.InterleavedCallsExactly | pkg/appcore/appcore.go:254-280 | of any number of calls on one refresh token, their requests interleaved in any way, a spent one is presented exactly if a request of one spends it and a later one of another presents it, by what each call is answered alone |
| TokenStore.StoredIsLiveExactly | pkg/appcore/appcore.go:254-280 | at every moment of every interleaving of loads, requests and saves of any number of calls, saves that fail included, the stored refresh token is live exactly if no request of any call spent one since the last that the call which saved last made |
| TokenStore.PresentedIsLiveExactly | pkg/appcore/appcore.go:254-280 | a call's next request presents a live token exactly if none was spent since its own was good, also where it loaded what another call had saved |
| TokenStore.SaveExactly | pkg/appcore/appcore.go:274-278 | a save makes the stored token live exactly if none was spent since that call's last request, whatever it overwrites; one that fails leaves it as it was |
| TokenStore.StoreKeepsSignIn | pkg/appcore/appcore.go:510 | whatever is saved, the sign-in token and its expiry stay |
| TokenStore.FailedSaveLoses | pkg/appcore/appcore.go:274-278 | an input: a rotation, and a save that fails |
| TokenStore.OlderSaveLoses | pkg/appcore/appcore.go:274-278 | an input: two calls that succeed, of which the one answered before the rotation saves last |

## Left out

- Sockets, JSON, HTTP and gRPC: a call is an answer chosen freely. A call that the server carried out and whose answer was lost counts as not made.
- The order in which deregistrations and enrollments reach a server: statements about giving back are about the moment of the decision.
- The uint64 wrap of `gen`, after 2^64 connects and disconnects.
- Route pushes (`watchRoutes`), so also an update of the routes that races the closing of its tunnel.
- `status`, the tenants' list, the texts of errors and logs, device prompts, and what the app shows.
- The bearer that a deregistration carries, read from the session after the mutex is released.
- The two clock readings within `setLeaseLocked` and within the retry branch are one.
- The saturation of `time.Now().Add`, and monotonic against wall-clock time.
- That the newest bearer survives: a re-enrollment that copied the spec before a renewNow brings the older one, as the code does. The bearer's own validity is the server's business.
- What `keepRenewing` does in its loop, apart from its end: it only asks the helper and waits.
- `LeaseClock.SixAttempts` and the other counts take every attempt to fail at once; time spent waiting for an answer makes them fewer.
- The adapter's addresses, metric, MTU and resolvers as the system holds them, and the route commands of the other platforms.
- HelperServer.Server.CommitEnrollment: bringing the tunnel up is its parameter; WireGuard, tun devices and their configuration are not modelled.
- NetPlan.SortPrefixes: `sort.Slice` sorts in place by an algorithm of its own; here it is insertion on values. The routes are distinct, so that the order of the result is the only one there is (NetPlan.OrderUnique).
- Text parsing in net/netip and of keys: partial functions that are parameters.
- How an access-control list is read from Windows, the text of the descriptors, the mapping of generic rights, an owner's implied rights and privileges; conditional and object entries count or not by a parameter.
- AccessControl.RefusalNamesWriters: on lists without denials, since with one the entry named may be overruled, which the check means to disregard.
- The sign-in flows, the providers' discovery documents, `tokenstore`, configuration files, and the choice of the group.
- TokenRaces.InterleavedCallsExactly: for calls that loaded the same refresh token; loads and saves in between are in TokenStore, whose conditions are on what the calls' requests have spent by then.
- What else writes the stored session, a sign-in and the choice of a tenant.
