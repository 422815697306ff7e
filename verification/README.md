# Verification of the Coraza operator's ECDS control plane

A leader accepts WAF configurations, every replica rebuilds and publishes them into a snapshot store,
and a streaming server hands them to proxies that may reject (NACK) them. This project models those
parts in Dafny and proves what they keep over whole runs, under every interleaving of their
lock-protected sections. It also covers the rule-text walks and the versioned rule cache.

`dafny verify dfyconfig.toml` checks everything. One module per file.

| part | modules |
|---|---|
| snapshot store and retry ladder | `RetryVersion`, `Names`, `StoreModel`, `StoreInvariant`, `StoreLaws`, `SnapshotStore` |
| stream callbacks over the store | `Server`, `ServerRefs`, `ServerRetry`, `ServerStore`, `ServerClimb`, `ServerRace`, `ServerPushes`, `ServerKeys` |
| authorization, registry, caps, failure limiter | `AuthzModel`, `AuthzIndex`, `AuthzRuns`, `AuthzRevocation`, `AuthzCauses`, `Registry`, `StreamCaps`, `LimiterModel`, `AuthLimiter`, `LimiterRuns`, `LimiterWindow`, `LimiterPeers` |
| accept, reconstruct, publish | `Cluster`, `DoubleCollect`, `ContentHash`, `Assembly`, `Render`, `Publication`, `PublicationRuns`, `PublicationHistory`, `Bootstrap` |
| rule text and rule cache | `Includes`, `RuleBlocks`, `RuleChains`, `MapSums`, `RuleCache` |
| general | `Strings`, `Sorting`, `Sets` |

How it is built:

- An object that the source updates in place is a class whose methods are tied to a function on its
  value (`View() == Model.Op(old(View()), ...)`); the properties are proved about those functions.
- A concurrent protocol is a state machine. Every lock-protected section is one step, and runs are
  arbitrary sequences of enabled steps.
- Where the source ranges over a map, the loop picks keys in arbitrary order.

Assumptions, all of them parameters or explicit premises of the theorems:

- `SetSnapshot` and `ClearSnapshot` are total map updates.
- Clocks do not go back between atomic steps.
- `rate.Limiter` is a real-valued token bucket. The limiter counts instants in tokens (rate times
  seconds), which `LimiterModel.Units` shows to compare intervals the same way.
- Request and close callbacks of one stream do not overlap; timers interleave with everything.
- Reconciles of one Engine do not overlap; writers act between their reads and their writes.
- JSON documents are values, SHA-256 is a function of the document (collision-free only where a
  theorem says so), and encodings, regular expressions and path rules are functions of the build.
- Kubernetes names: a namespace has no dot or slash, a UID has no dot, no name holds NUL. UIDs are never
  reused and a changed spec has a higher generation.
- Reads of cluster objects are reads of the client's view of them at some instant. Theorems about
  "one instant" are about that view.

Five properties one would expect of this code do not hold as stated. The code is modelled as it is. Each
has a run from the start in which it fails, or the failing inputs, and the exact condition under which it holds.

- A published retry does not always raise the attempt. From every climbing state, a stream of the proxy
  with no retry pending can publish two retries and gain one rung (`ServerRace.RaceFromRest`), also from the
  start (`ServerRace.RungRepeats`). After a published retry the next one is sure to be one rung higher if and
  only if, before the step, no other open stream wants a retry for the proxy and this stream is not
  between reading a version and claiming the retry (`ServerRace.RisesIffSole`).
- The failure bound of burst plus rate times the window holds per bucket if and only if rate times ten
  minutes is at least burst (`LimiterWindow.WindowBoundIff`, `LimiterWindow.SweepBreaksBound`).
- Per peer it holds in all windows only for the name of the overflow bucket (`LimiterPeers.PeerBoundIff`,
  `LimiterPeers.OverflowBreaksBound`); for any peer as long as its reserves all find the map full, or all find
  room (`LimiterPeers.PeerWindow`), and within twice the bound always (`LimiterPeers.PeerTwiceBound`).
- A filter attached after a deletion is not always fail-closed: one deleted between a reconcile's read and
  its apply can come back as allow (`Bootstrap.ReattachedAsAllow`). It is fail-closed if and only if the
  reconcile read after the deletion, or what it read did not qualify for allow (`Bootstrap.AttachFailsIff`).
- The NACK backoff is the doubled base capped at 30s, for every attempt, if and only if doubling the base
  once does not leave int64 (`RetryVersion.BackoffIsRungIff`).

One premise deserves a word. That a live stream stays admitted is proved for ServiceAccounts with a UID
(`AuthzRuns.ResolvedUids`), which the API server always sets. A reader that returned one without a UID, and
later the same account with another UID than the stream's, would break it (`AuthzRuns.UnresolvedRun`).

## Model

| member | source | states |
|---|---|---|
| `RetryVersion.DerivedRoundTripIff` | internal/xds/server.go:97-117 | a derived version decodes to its accepted version and attempt if and only if the version is non-empty and free of the suffix |
| `RetryVersion.DerivedBase` | internal/xds/server.go:98-103 | the base of a derived version is the accepted version for every attempt, also one too large to decode |
| `RetryVersion.GarbageIsNoRetry` | internal/xds/server.go:97-117 | a suffix that no number follows is no retry: attempt 0 of the same version |
| `RetryVersion.NackDelay` | internal/xds/server.go:630-642 | the doubling loop in int64 arithmetic: the wrapped backoff for every base, and min(base * 2^(attempt-1), 30s) for a base that can be doubled; the base itself for a base <= 0 or an attempt <= 1 |
| `RetryVersion.BackoffIsRungIff` | internal/xds/server.go:630-642 | that delay is the capped doubling for every attempt if and only if the base is at most half of int64 |
| `RetryVersion.RungMonotoneIff` | internal/xds/server.go:630-642 | later rungs never wait less, for all attempts, if and only if the base is at most the 30s cap |
| `Names.ResourceNameInjective` | internal/ecds/render/render.go:608-610 | a resource name determines namespace, Engine (which may contain dots) and UID |
| `Names.KeyInjective` | internal/xds/store.go:437-439 | an Engine key determines namespace and name |
| `Names.ProxyKeyIsProxyKey` | internal/xds/server.go:71-79 | a proxy cache key is never an Engine key |
| `Names.ProxyKeyDeterminesEngine` | internal/xds/server.go:71-79 | proxy cache keys of different Engines differ, whatever the hash does |
| `Names.ProxyKeyIff` | internal/xds/server.go:71-79 | with a collision-free hash, streams share a proxy key if and only if they are of one Engine, one identity with one UID, and one proxy name |
| `Names.NackKeyDeterminesSession` | internal/xds/server.go:67-69 | budget keys of different resources or sessions differ |
| `StoreModel.BumpPlan` | internal/xds/store.go:154-181 | what a bump decides before its first write: it never does nothing, takes the next sequence number and keeps a tracked proxy with its Engine |
| `StoreModel.BindPlan` | internal/xds/store.go:263-303 | what a bind decides: an installed record is active, numbered next or keeps its number, and stays with its Engine |
| `StoreInvariant.TrackedBase` | internal/xds/store.go:231-259 | the base version of every tracked proxy's snapshot is its Engine's current version |
| `StoreInvariant.ReplaceInv` | internal/xds/store.go:113-148 | Replace keeps the store invariant: resources and meta inverse, one cached snapshot per Engine and per tracked proxy and no other, distinct sequence numbers, at most 32 retained retries per Engine |
| `StoreInvariant.SurplusIsPrefix` | internal/xds/store.go:205-229 | cutting the candidates sorted by sequence number leaves exactly the newest 32 |
| `StoreInvariant.SortOldestFirst` | internal/xds/store.go:217-223 | sorting any listing of the candidates puts the oldest first |
| `StoreInvariant.EvictBounds` | internal/xds/store.go:205-229 | eviction leaves an Engine at most 32 disconnected unacknowledged snapshots |
| `StoreInvariant.EvictOldest` | internal/xds/store.go:205-229 | only disconnected unacknowledged snapshots of that Engine go, and none newer than a survivor among them |
| `StoreInvariant.EvictKeepsNewest` | internal/xds/store.go:205-229 | the newest snapshot is never evicted |
| `StoreInvariant.BumpInv` | internal/xds/store.go:154-197 | a bump keeps the invariant and every shared snapshot, installs exactly the retry asked for and never evicts the proxy it was made for |
| `StoreInvariant.BindInv` | internal/xds/store.go:263-303 | a bind keeps the invariant and every shared snapshot |
| `StoreInvariant.AckInv` | internal/xds/store.go:331-343 | an ACK keeps the invariant and every shared snapshot |
| `StoreInvariant.ReleaseInv` | internal/xds/store.go:346-372 | a release keeps the invariant and every shared snapshot, and keeps the snapshot of a proxy that just disconnected without acknowledging |
| `StoreInvariant.DeleteInv` | internal/xds/store.go:389-401 | deleting an Engine keeps the invariant |
| `StoreLaws.RetryResource` | internal/xds/store.go:231-259 | a retry is the Engine's resource with the same name and configuration under a new version and a new VM id, both with the attempt as suffix |
| `StoreLaws.RetriesDiffer` | internal/xds/store.go:231-259 | different attempts differ in resource and in version |
| `StoreLaws.PublishServes` | internal/xds/store.go:113-148 | after a publication every subscriber is served the new snapshot, retries are over, and exactly the proxies with a stream are still known |
| `StoreLaws.DeleteServesNone` | internal/xds/store.go:389-401 | after a deletion nobody is served the resource and nothing of the Engine is left |
| `StoreLaws.BumpRefusedIff` | internal/xds/store.go:154-181 | a retry is refused exactly when the Engine is gone or republished, the proxy is another Engine's, or the resource has no VM id |
| `StoreLaws.BumpServes` | internal/xds/store.go:154-197 | a bumped proxy is served exactly the retry asked for, owes an ACK and keeps its streams |
| `StoreLaws.BindResumes` | internal/xds/store.go:263-283 | a proxy that holds a retry of the current version resumes it, whatever version it names |
| `StoreLaws.BindRestores` | internal/xds/store.go:285-303 | a proxy that holds none and names one of the current version is bound to the attempt it names |
| `StoreLaws.RestoreRoundTrip` | internal/xds/store.go:263-328 | a proxy unknown after a restart that names a retry is bound, and its current version is exactly the one it named |
| `StoreLaws.BindNothing` | internal/xds/store.go:263-303 | everybody else is not bound and is served the shared snapshot |
| `StoreLaws.AckIff` | internal/xds/store.go:331-343 | an ACK of the version the proxy is served clears its mark and nothing else; an ACK of any other version changes nothing |
| `StoreLaws.ReleaseKeepsIff` | internal/xds/store.go:346-372 | a proxy that is let go of stays known if and only if another stream holds it or it owes an ACK, and then with the same snapshot |
| `StoreLaws.AckedIsForgotten` | internal/xds/store.go:154-372 | across bump, bind, ACK and release: the snapshot is forgotten if and only if the ACK was for the version served |
| `SnapshotStore.IndexesAgree` | internal/xds/store.go:82-108 | the per-Engine index that Linked keeps describes the same records as proxies, with no empty inner map |
| `SnapshotStore.SnapshotStore.TrackProxy` | internal/xds/store.go:83-91 | a record enters both indexes under its Engine |
| `SnapshotStore.SnapshotStore.UntrackProxy` | internal/xds/store.go:94-108 | a record leaves both indexes, an emptied inner map with it |
| `SnapshotStore.SnapshotStore.EvictInactiveRetries` | internal/xds/store.go:205-229 | collecting, sorting and deleting in place is the eviction of the model |
| `SnapshotStore.SnapshotStore.Candidates` | internal/xds/store.go:206-213 | the first loop lists the disconnected unacknowledged proxies of the Engine, each once, in any map order |
| `SnapshotStore.SnapshotStore.Replace` | internal/xds/store.go:113-148 | publishing in place is the Replace of the model, in any order of the Engine's proxies; a nil snapshot changes nothing |
| `SnapshotStore.SnapshotStore.BumpRejected` | internal/xds/store.go:154-197 | the bump in place is the Bump of the model, whose meaning StoreLaws.BumpServes and BumpRefusedIff state; an error changes nothing |
| `SnapshotStore.SnapshotStore.BindRejectedRetry` | internal/xds/store.go:263-303 | the bind in place is the Bind of the model, with its two results; StoreLaws.BindResumes, BindRestores and BindNothing say what it means |
| `SnapshotStore.SnapshotStore.CurrentVersionFor` | internal/xds/store.go:307-328 | the version a proxy is served: its own retry of the current version, or the shared one |
| `SnapshotStore.SnapshotStore.AckRejected` | internal/xds/store.go:331-343 | the ACK in place is the Ack of the model, whose meaning StoreLaws.AckIff states |
| `SnapshotStore.SnapshotStore.ReleaseRejectedRetry` | internal/xds/store.go:346-372 | letting go in place is the Release of the model, with its eviction |
| `SnapshotStore.SnapshotStore.DeleteEngine` | internal/xds/store.go:389-401 | deleting in place is the Delete of the model |
| `SnapshotStore.SnapshotStore.Get` | internal/xds/store.go:419-431 | in a store that keeps its invariant a snapshot is found exactly for a published Engine, is that Engine's own, and is cached as it will be served |
| `ServerRefs.StepBalanced` | internal/xds/server.go:479-500 | every step but a withdrawal moves a proxy's count and the streams that hold its snapshot together |
| `ServerRefs.WithdrawExactIff` | internal/xds/store.go:389-401 | deleting an Engine keeps the counts exact if and only if no stream holds one of its retry snapshots |
| `ServerRefs.ActiveNeverOver` | internal/xds/server.go:736-766 | in every run a proxy's count never exceeds the streams that hold its snapshot |
| `ServerRefs.ActiveIsHolders` | internal/xds/server.go:479-500 | in every run that deletes Engines only while nobody holds their snapshots the count equals the number of holders |
| `ServerRefs.ActiveIsBound` | internal/xds/server.go:479-500 | in such runs, whenever no callback is under way, the count is the number of streams bound to the proxy |
| `ServerRefs.NoWithdrawalIsQuiet` | internal/xds/store.go:389-401 | runs without Engine deletion are among those |
| `ServerRefs.BoundIsTracked` | internal/xds/store.go:136-146 | in such runs the proxy of a bound stream is tracked and active, so nothing cleared its snapshot |
| `ServerStore.StreamStepInv` | internal/xds/server.go:479-614 | no stream callback breaks the store invariant or alters a shared Engine snapshot |
| `ServerStore.ReachableInv` | internal/xds/store.go:63-69 | the store invariant, with the bound of 32, holds in every reachable state |
| `ServerStore.BoundIsServed` | internal/xds/store.go:263-303 | in runs that delete Engines only while nobody holds their snapshots, a bound stream's proxy has a cached snapshot of its Engine's current version |
| `ServerRetry.StepRetries` | internal/xds/server.go:532-624 | every step keeps: an open stream's outstanding retries are one or none, as retryPending says; a closed stream has none claimed |
| `ServerRetry.AtMostOneRetry` | internal/xds/server.go:560-586 | in every run, however many NACKs arrive, an open stream has at most one retry outstanding |
| `ServerRetry.NoRetryAfterClose` | internal/xds/server.go:591-614 | in every run a timer that fires after its stream closed leaves the store as it is |
| `ServerRetry.LateTimerIsHarmless` | internal/xds/server.go:591-624 | a timer that could not be stopped is still there after the close, and firing it changes nothing else |
| `ServerRetry.ClosedForGood` | internal/xds/server.go:736-757 | a closed stream stays closed |
| `ServerRetry.StepBudgeted` | internal/xds/server.go:644-693 | every step keeps: each budget entry belongs to one stream's session, and each stream's key is listed unless it is just about to be recorded |
| `ServerRetry.BudgetIsOpenKeys` | internal/xds/server.go:644-667 | whenever no callback is under way, the budget map lists exactly the non-empty budget keys of the open streams |
| `ServerClimb.LadderVersion` | internal/xds/server.go:540-547 | what a NACK reads is the accepted version and the proxy's attempt |
| `ServerClimb.PublishedHeight` | internal/xds/store.go:154-197 | a published retry sets the proxy's attempt to its own |
| `ServerClimb.QuietHeight` | internal/xds/store.go:205-372 | every step that publishes no retry for the proxy, and does not republish, delete, evict or restore, leaves its attempt |
| `ServerClimb.ClimbStep` | internal/xds/server.go:540-614 | one step of the climb: a published retry that is the sole one wanted raises the attempt by exactly one, any other step leaves it, and what is wanted next is the next rung |
| `ServerClimb.Climb` | internal/xds/server.go:540-614 | along every undisturbed run whose retries come one by one the attempt rises by exactly one per published retry |
| `ServerClimb.ClimbStarts` | internal/xds/server.go:532-547 | every reachable state in which no stream wants a retry for the proxy is the start of such a run |
| `ServerClimb.SoleIsUnwanted` | internal/xds/server.go:560-614 | a published retry leaves none wanted for the proxy if and only if no other stream wanted one before and this stream was not about to claim one |
| `ServerRace.OneMoreRises` | internal/xds/server.go:540-614 | in a climb, any undisturbed continuation that publishes one retry raises the attempt by one |
| `ServerRace.NotSoleRepeats` | internal/xds/server.go:540-614 | if another retry is wanted, wherever it stands (claiming, tracking, recording, arming or armed), some undisturbed continuation publishes it and leaves the attempt |
| `ServerRace.RisesIffSole` | internal/xds/server.go:532-614 | after a published retry every undisturbed continuation with one more raises the attempt again, if and only if the retry was the sole one wanted before the step |
| `ServerRace.RaceFromRest` | internal/xds/server.go:532-614 | from every climbing state, a stream of the proxy at rest with none pending can publish two retries and gain one rung |
| `ServerRace.RungRepeats` | internal/xds/server.go:532-614 | from the start, with one Engine and one stream, a run ends with two published retries and attempt 1 |
| `ServerPushes.ClimbPushes` | internal/xds/server.go:532-614 | along every undisturbed run whose retries come one by one, what is pushed to the proxy is the next rung, the one after it, and so on, each once |
| `ServerPushes.PushesAreFresh` | internal/xds/store.go:231-259 | so no two retries pushed are the same resource or version and none is the shared one, while all have its configuration |
| `ServerKeys.SharesIff` | internal/xds/server.go:71-95 | in every run two streams use one snapshot if and only if they are about one Engine, have one identity with one UID, and one proxy name |
| `ServerKeys.NackIsOwn` | internal/xds/server.go:532-547 | a NACK is about the stream's own proxy, on the Engine it subscribed to whatever the index says, and else on the one the index names |
| `ServerKeys.WatchBinds` | internal/xds/server.go:479-500 | subscribing binds the stream's own proxy with the version the proxy names |
| `ServerKeys.ReconnectRestores` | internal/xds/server.go:479-500 | a proxy that reconnects after a restart naming a retry goes on with exactly that retry |
| `ServerKeys.AckReaches` | internal/xds/server.go:433-478 | an ACK of a bound stream reaches the store with the version acknowledged, and only of a bound one |
| `ServerKeys.CloseReleases` | internal/xds/server.go:736-766 | closing a stream lets go of its proxy once if it was bound, and leaves nothing pending |
| `ServerKeys.RecordedCounts` | internal/xds/server.go:672-692 | rejections of one version in a row are counted up, another version starts again at one |
| `AuthzModel.UnrevokedKeepsIff` | internal/xds/authorize.go:305-316 | a refresh that revokes nobody keeps every admission if and only if it resolves no unresolved UID |
| `AuthzModel.RevokedIffLoses` | internal/xds/authorize.go:305-316 | identitiesRevoked answers true if and only if an account that was listed loses admission under the very UID listed |
| `AuthzModel.RevokedLocksOut` | internal/xds/authorize.go:305-316 | with all UIDs resolved, identitiesRevoked answers true if and only if somebody loses admission |
| `AuthzIndex.IdentitiesRevoked` | internal/xds/authorize.go:305-316 | the loop decides that in any map order |
| `AuthzIndex.AuthzIndex.Begin` | internal/xds/authorize.go:170-177 | the first section of a refresh registers the Engine only if its generation is current |
| `AuthzIndex.AuthzIndex.Commit` | internal/xds/authorize.go:246-265 | the last section writes only if its generation is current, and says whether streams must close |
| `AuthzIndex.AuthzIndex.RevokeAndNotify` | internal/xds/authorize.go:416-425 | the entry goes, the counter rises, streams close when there was an entry |
| `AuthzIndex.AuthzIndex.ExpireIfStale` | internal/xds/authorize.go:466-479 | the same exactly when the entry is stale |
| `AuthzIndex.AuthzIndex.RevokeEngine` | internal/xds/authorize.go:430-455 | every resource of the Engine that has an entry or is known goes and is counted once; streams close for those with entries |
| `AuthzIndex.AuthzIndex.Authorize` | internal/xds/authorize.go:374-393 | true exactly for a fresh entry that admits the identity |
| `AuthzIndex.AuthzIndex.SoleResource` | internal/xds/authorize.go:398-413 | the one resource that admits the identity, in any map order; "" for none or several |
| `AuthzIndex.AuthzIndex.Capture` | internal/xds/authorize.go:325-333 | a periodic pass captures what is known with the generations of the same instant |
| `AuthzRuns.OneEngine` | internal/ecds/render/render.go:608-610 | a resource name belongs to one Engine, so what RevokeEngine removes it also notifies |
| `AuthzRuns.StepCovers` | internal/xds/authorize.go:246-273 | every step keeps: a live stream that passed its check is admitted by the current entry or a cancel for it is due |
| `AuthzRuns.PassedIsAdmitted` | internal/xds/server.go:410-423 | in every run, whenever no cancel is due, every live stream that passed its check is admitted by its resource's current entry |
| `AuthzRuns.ResolvedUids` | internal/xds/authorize.go:235-243 | with all ServiceAccount UIDs resolved the premise of that holds |
| `AuthzRuns.UnresolvedRun` | internal/xds/authorize.go:235-265 | why the premise is needed: a reader that first returns the account without a UID and then with another leads from the start to a live stream that is not admitted, with no cancel due |
| `AuthzRevocation.RevocationBumps` | internal/xds/authorize.go:416-479 | exactly which steps count as a revocation of a resource |
| `AuthzRevocation.CountsStill` | internal/xds/authorize.go:107-113 | an unchanged counter means no revocation in between |
| `AuthzRevocation.EntryOrigin` | internal/xds/authorize.go:246-264 | every entry was committed by a refresh that captured its generation after the resource's last revocation, with its identities and time |
| `AuthzRevocation.AuthorizedOnEvidence` | internal/xds/authorize.go:374-393 | Authorize answers true only if the last refresh to land was captured after the last revocation, committed within the staleness bound, and lists the identity |
| `AuthzRevocation.EntryStands` | internal/xds/authorize.go:246-264 | a refresh that landed stands, with its identities and time, until the resource is revoked or another lands |
| `AuthzRevocation.AuthorizedIffEvidence` | internal/xds/authorize.go:374-393 | in every run Authorize answers true if and only if there is such a refresh |
| `AuthzRevocation.ExpiryIff` | internal/xds/authorize.go:466-479 | in every run an expiry changes nothing while that refresh is within the bound; past it the entry goes, is counted, and its streams are due |
| `AuthzRevocation.OldRefreshNeverWins` | internal/xds/authorize.go:170-177 | no refresh captured before a revocation is behind an entry seen after it |
| `AuthzCauses.CheckDecides` | internal/xds/server.go:410-423 | in every run a subscription passes if and only if there is such evidence for it, and is cancelled otherwise |
| `AuthzCauses.CancelledWithCause` | internal/xds/auth.go:455-463 | in every run a cancelled stream was cancelled on demand, by a failed check, or by a callback for its own resource |
| `AuthzCauses.DueWithCause` | internal/xds/authorize.go:246-273 | in every run a callback is due only because an entry was taken away or an account it listed lost admission |
| `AuthzCauses.WithdrawnIsDue` | internal/xds/authorize.go:416-479 | and whenever that happens a callback becomes due |
| `AuthzCauses.EngineRevokedStops` | internal/xds/authorize.go:430-455 | revoking an Engine stops every refresh of it that has begun and was not forgotten since: none of them lands |
| `Registry.StreamRegistry.RegisterWithCancel` | internal/xds/auth.go:384-415 | a stream is registered under a new id exactly when both caps leave room; counters equal sessions per identity with no zero entry |
| `Registry.StreamRegistry.Unregister` | internal/xds/auth.go:418-432 | the session goes and the counters stay exact |
| `Registry.StreamRegistry.SetResource` | internal/xds/auth.go:446-452 | only that session's resource changes |
| `Registry.StreamRegistry.RevokeResource` | internal/xds/auth.go:455-463 | exactly the sessions of the resource are cancelled, in any map order |
| `StreamCaps.LiveWithinCap` | internal/xds/server.go:298-327 | under every interleaving of add, roll back, store, delete and decrement the live streams never exceed the cap |
| `StreamCaps.CounterIsLive` | internal/xds/server.go:736-758 | when no open or close is under way the counter is the number of live streams: no slot leaks |
| `StreamCaps.RefusedOnlyWhenFull` | internal/xds/server.go:301-305 | an open is refused exactly when the slots in use fill the cap |
| `LimiterModel.Units` | internal/xds/auth_limiter.go:29-38 | counting instants in tokens compares intervals as seconds do |
| `LimiterModel.PermitCharges` | internal/xds/auth_limiter.go:52-65 | charging a bucket that has a permit out succeeds, takes one token and keeps the other permits covered |
| `LimiterModel.SweptIsFreshIff` | internal/xds/auth_limiter.go:148-159 | every bucket idle long enough to be swept is full if and only if rate times ten minutes is at least burst |
| `AuthLimiter.AuthFailureLimiter.Reserve` | internal/xds/auth_limiter.go:114-139 | sweeping, finding or creating the bucket and taking a permit in place is the reserve of the model |
| `AuthLimiter.AuthFailureLimiter.Finish` | internal/xds/auth_limiter.go:52-65 | giving the permit back, charged on failure |
| `AuthLimiter.AuthFailureLimiter.SweepIdle` | internal/xds/auth_limiter.go:148-159 | at most once a period exactly the idle buckets go |
| `AuthLimiter.SweepBuckets` | internal/xds/auth_limiter.go:152-156 | the sweep loop drops the idle buckets and no other, in any map order |
| `LimiterRuns.StepSound` | internal/xds/auth_limiter.go:114-159 | every step keeps: tokens cover the permits out, pending counts them, at most 4096 peers have buckets |
| `LimiterRuns.PermitHasBucket` | internal/xds/auth_limiter.go:152-156 | in every run a bucket with a permit out is still there when the permit is finished |
| `LimiterRuns.ChargeSucceeds` | internal/xds/auth_limiter.go:58-61 | in every run charging a failure succeeds and takes exactly one token |
| `LimiterRuns.BucketsBounded` | internal/xds/auth_limiter.go:122-133 | in every run at most 4097 buckets exist |
| `LimiterRuns.SweepIff` | internal/xds/auth_limiter.go:148-159 | a sweep, due once a minute, drops exactly the buckets without permits that nobody used for ten minutes |
| `LimiterRuns.UsedStays` | internal/xds/auth_limiter.go:52-65 | in every run a bucket stays for ten minutes after it was last used |
| `LimiterWindow.WindowBound` | internal/xds/auth_limiter.go:114-159 | in any window of any run a bucket is charged at most burst plus rate times the window, if ten minutes refill a bucket |
| `LimiterWindow.WindowBoundIff` | internal/xds/auth_limiter.go:148-159 | that bound holds in all runs if and only if rate times ten minutes is at least burst |
| `LimiterWindow.SweepBreaksBound` | internal/xds/auth_limiter.go:148-159 | otherwise burst failures, ten idle minutes and burst failures exceed it |
| `LimiterPeers.PeerTwiceBound` | internal/xds/auth_limiter.go:114-139 | in any window of any run a peer is charged at most twice burst plus rate times the window, if ten minutes refill a bucket |
| `LimiterPeers.PeerWindow` | internal/xds/auth_limiter.go:121-131 | a peer whose reserves in a window all find room or all find the map full, and whose permits at its start are in that bucket, is charged within the bound of a bucket |
| `LimiterPeers.OverflowBreaksBound` | internal/xds/auth_limiter.go:121-159 | for every configuration and every other peer, a run from the start exceeds the bound: 4096 peers, a burst in the overflow bucket just before they are swept, a burst in the peer's own just after |
| `LimiterPeers.PeerBoundIff` | internal/xds/auth_limiter.go:114-159 | a peer stays within the bound of a bucket in all windows of all runs if and only if ten minutes refill a bucket and the peer bears the overflow bucket's name |
| `Cluster.SameSpec` | internal/controller/ruleset_inputs.go:81-83 | between two sightings of one UID and generation an object was there and its spec never changed |
| `DoubleCollect.LoadRuleSetInputs` | internal/controller/ruleset_inputs.go:44-79 | loads each input at its own instant in spec order, and fails exactly when a read fails or finds nothing |
| `DoubleCollect.InputsChanged` | internal/controller/ruleset_controller_accept.go:76-115 | unchanged exactly when every re-read succeeds and finds the recorded UID and generation; changed only if some re-read differs, an error only if one fails |
| `DoubleCollect.DoubleCollectIsAtomic` | internal/controller/ruleset_controller_accept.go:43-115 | under any interleaving of writers, unchanged re-reads mean that at one instant the RuleSet and all inputs held exactly what was read |
| `DoubleCollect.EngineHeldToo` | internal/controller/ruleset_inputs.go:84-134 | with the Engine re-read first, the Engine held its value at the same instant |
| `DoubleCollect.AcceptRules` | internal/controller/ruleset_controller_accept.go:43-72 | what is accepted is the digest of inputs held at one instant, with that instant's generation; in a quiet cluster without read failures it is accepted, and it is requeued only if something changed |
| `ContentHash.SortedListing` | internal/ecds/render/render.go:175-179 | sorting any listing of a map's names gives one sequence |
| `ContentHash.DocInjective` | internal/ecds/render/render.go:194-205 | different contents have different documents |
| `ContentHash.RuleSetContentHash` | internal/ecds/render/render.go:174-206 | whatever order the map is walked in, the hash is the digest of the canonical document |
| `Assembly.LastListedWins` | internal/rulesets/assemble/assemble.go:128-136 | a file comes from the last listed RuleData that has it, and only from one that has it |
| `Assembly.JoinedAppend` | internal/rulesets/assemble/assemble.go:119-125 | the rules are the sources' rules in order with one line break between each two |
| `Assembly.DuplicateNames` | internal/rulesets/assemble/assemble.go:274-288 | finds exactly the names listed more than once; none exactly when all are distinct |
| `Assembly.ValidateReferences` | internal/rulesets/assemble/assemble.go:204-246 | accepts exactly distinct references with valid names that shadow no embedded file |
| `Assembly.Assemble` | internal/rulesets/assemble/assemble.go:115-154 | the loops compute the joined rules and merged files, with every refusal of the model |
| `Assembly.AssembledIff` | internal/rulesets/assemble/assemble.go:115-154 | exactly which inputs are assembled, into which content, and which of the four refusals the others get; every merged file has a name the plugin can load and does not serve itself |
| `Render.RenderEngine` | internal/ecds/render/render.go:224-348 | rendering with the hash computed by its loop is the Render of the model |
| `Render.RenderedServes` | internal/ecds/render/render.go:224-348 | a rendered artifact serves, under the Engine's resource name and VM id, a plugin that is fail-open if and only if the policy is allow, with the input's module and VM or the defaults, and a document with its rules and files |
| `Render.RenderableIsRendered` | internal/ecds/render/render.go:224-348 | nothing else stops an input: one that passes those checks, with the hash of its content, is rendered |
| `Render.Mismatches` | internal/ecds/render/render.go:354-380 | reports no row exactly when the artifact matches the record, and no row twice |
| `Render.RoundTrip` | internal/controller/engine_controller_wasm_driver.go:435-453 | on the same build and content a replica renders exactly the leader's artifact from the record, and it matches the record |
| `Render.VersionBindsResource` | internal/ecds/render/render.go:445-474 | with a collision-free digest two artifacts of one version have the same payload, resource, name and Engine |
| `Publication.Publisher.Rebuild` | internal/controller/publication_controller.go:214-264 | assembling, rendering from the record, matching and checking limits, in that order |
| `Publication.Publisher.Publish` | internal/controller/publication_controller.go:209-286 | skip, failure or publication, and what each changes |
| `Publication.Publisher.Reconcile` | internal/controller/publication_controller.go:120-207 | one reconcile on the object is one reconcile of the model |
| `PublicationRuns.FailureKeepsStore` | internal/controller/publication_controller.go:163-180 | a reconcile that neither publishes nor forgets leaves the store unchanged |
| `PublicationRuns.ReconcileOutcome` | internal/controller/publication_controller.go:120-286 | when a reconcile forgets, retries, mismatches, skips or publishes, and what each leaves alone |
| `PublicationRuns.RebuiltAgrees` | internal/controller/publication_controller.go:209-264 | what a replica rebuilds has the recorded content hash, version, RuleSet, module, policy and schema, and fits the limits |
| `PublicationRuns.RepeatCoalesces` | internal/controller/publication_controller.go:314-340 | the same reconcile right after a publication changes nothing |
| `PublicationRuns.AcceptsIff` | internal/controller/engine_controller_wasm_driver.go:78-180 | exactly what the leader accepts, and what it then records |
| `PublicationRuns.OthersUntouched` | internal/controller/publication_controller.go:120-286 | whatever a reconcile of one Engine does, publish, forget or fail, every other Engine keeps its snapshot, its proxies, what they are served and its remembered fingerprint |
| `PublicationRuns.RebuildsAccepted` | internal/controller/publication_controller.go:209-260 | a replica that reads the inputs the leader accepted rebuilds exactly the leader's artifact |
| `PublicationRuns.AcceptedIsPublished` | internal/controller/publication_controller.go:187-286 | after such a reconcile the store holds the accepted version, whatever it held before, reachable or not |
| `PublicationRuns.RebuiltVouched` | internal/controller/publication_controller.go:250-275 | a rebuilt snapshot carries the version of the record it was rebuilt from and, without collisions, is the snapshot of what the leader rendered |
| `PublicationRuns.StoredWasAccepted` | internal/controller/publication_controller.go:163-286 | in every run with any stale views and edits, every stored snapshot carries a version the leader recorded for that Engine object and, if the digest has no collisions, is the snapshot of what the leader rendered |
| `PublicationRuns.StoredIsPublishable` | internal/controller/publication_controller.go:266-274 | what is published meets the premises of the store and server theorems |
| `PublicationRuns.StoredFailsAsAccepted` | internal/ecds/render/render.go:562-570 | in every run the plugin of a stored snapshot is fail-open if and only if the record it was rebuilt from says allow, which is so if and only if the Engine did |
| `PublicationHistory.FingerprintBindsInputs` | internal/rulesets/assemble/assemble.go:167-202 | the fingerprint hashes identities only, yet inputs read from one cluster at any instants with equal identities are equal, rules and files included |
| `PublicationHistory.OneRecord` | internal/ecds/render/render.go:445-474 | two acceptances of one version recorded the same for the same Engine object |
| `PublicationHistory.StepBacked` | internal/controller/publication_controller.go:187-286 | every step keeps: each stored snapshot was rebuilt from an accepted record and inputs of the cluster whose fingerprint is still remembered |
| `PublicationHistory.CoalescedHolds` | internal/controller/publication_controller.go:314-328 | in every run, with collision-free hashes, the reconstruction that a skipped reconcile did not do would have succeeded, and the store holds exactly its result |
| `PublicationHistory.AcceptedIsStored` | internal/controller/publication_controller.go:187-286 | in every run a replica that reads an accepted record and the inputs accepted with it ends with the leader's own snapshot in its store, whether it publishes or skips |
| `PublicationHistory.CollectedIsHeld` | internal/controller/engine_controller_wasm_driver.go:78-144 | what the leader read and found unchanged, Engine, module, RuleSet and inputs, is what reading the whole cluster at one instant gives |
| `PublicationHistory.StoredWasHeld` | internal/controller/engine_controller_wasm_driver.go:78-180 | in every run whose leader collects twice, whatever writers do and however stale replicas read, every stored snapshot is the rendering of an Engine, a RuleSet and inputs as the cluster held them at one instant |
| `PublicationHistory.ServedWasHeld` | internal/controller/engine_controller_wasm_driver.go:78-180 | so the module, the policies, the rules and the files a proxy is served were all in the cluster at one instant, and it fails open if and only if the Engine then said allow |
| `Bootstrap.AttachFailsIff` | internal/controller/engine_controller_wasm_driver.go:360-404 | in every run a filter attached where there is none is fail-closed if and only if the reconcile read it after it was gone, or what it read did not qualify for allow |
| `Bootstrap.FirstFilterFails` | internal/controller/engine_controller.go:437-448 | the first filter of every run is fail-closed |
| `Bootstrap.ReattachedAsAllow` | internal/controller/engine_controller_wasm_driver.go:360-404 | a run from the start that deletes the filter between a read and its apply and gets it back as allow |
| `Bootstrap.WeakeningWasEarned` | internal/controller/engine_controller_wasm_driver.go:360-404 | a reconcile that did not read allow applies allow only if it read a filter and an earlier reconcile recorded that version with allow |
| `Bootstrap.AllowWasEarned` | internal/controller/engine_controller_wasm_driver.go:360-404 | in every run no filter is allow before some reconcile recorded a version with allow |
| `Bootstrap.RecordingOrigin` | internal/controller/engine_controller_wasm_driver.go:169-178 | what a reconcile records it applied before |
| `Bootstrap.StatusOrigin` | internal/controller/engine_controller_wasm_driver.go:169-178 | every accepted status was recorded by a reconcile that was past its apply |
| `Bootstrap.TighteningIsImmediate` | internal/controller/engine_controller.go:437-448 | applying any other policy closes the filter at once, and it is not allow again before a reconcile that wants allow applies one |
| `Bootstrap.TwoReconcilesConverge` | internal/controller/engine_controller_wasm_driver.go:184-189 | a reconcile that attached and recorded a version with allow, and any later one that wants the same, end with allow, whatever happens in between that keeps the filter and the recorded status |
| `Bootstrap.AllowIsStable` | internal/controller/engine_controller.go:437-448 | an allow filter stays allow throughout a stretch of a run if and only if no step in it deletes the filter or applies another policy |
| `Includes.Enqueue` | internal/rulesets/validation/validate.go:478-491 | the inner loop queues exactly the provided targets not scanned yet, once each |
| `Includes.Scan` | internal/rulesets/validation/validate.go:466-494 | the worklist ends on every input, also cyclic ones, scans each text at most once, and accepts exactly when the root and every reachable file pass |
| `Includes.ValidateIncludes` | internal/rulesets/validation/validate.go:461-494 | accepts exactly when both the include contract and the directive guard hold of the root and everything reachable |
| `RuleBlocks.JoinSplit` | tools/corerulesetgen/rules.go:32 | joining the lines of a text gives the text |
| `RuleBlocks.SplitIntoLines` | tools/corerulesetgen/rules.go:32 | no line holds a line break |
| `RuleBlocks.TrimIs` | tools/corerulesetgen/rules.go:27-29 | trimming drops the blanks at the end of a line and nothing else |
| `RuleBlocks.ContinuedIff` | tools/corerulesetgen/rules.go:27-60 | a line is continued if and only if it ends in a backslash but for blanks |
| `RuleBlocks.BlocksAre` | tools/corerulesetgen/rules.go:31-64 | the blocks cut all lines into directives, each up to its first line that is not continued, and single other lines |
| `RuleBlocks.JoinBlocks` | tools/corerulesetgen/rules.go:31-64 | joining the blocks of lines gives the joined lines |
| `RuleBlocks.SplitIntoRules` | tools/corerulesetgen/rules.go:31-64 | the blocks are the directives with their continuation lines and every other line by itself, and joined they are the input |
| `RuleChains.ChainSecRuleGroups` | tools/corerulesetgen/rules.go:82-118 | the groups list the SecRule blocks in order, each once; rules of a group are linked, neighbouring groups are not |
| `RuleChains.GroupsAreChains` | tools/corerulesetgen/rules.go:82-118 | two SecRules are in one group exactly when every SecRule from one up to the other has the chain action and no other directive stands between |
| `RuleChains.DropsAreChains` | tools/corerulesetgen/rules.go:153-170 | marking by groups drops exactly the chains with a wished member, so other blocks survive |
| `RuleChains.MarkDrops` | tools/corerulesetgen/rules.go:153-170 | the marking loops drop a block when it is wished away or its group holds one that is |
| `RuleChains.DroppedIff` | tools/corerulesetgen/rules.go:82-170 | in terms of the text: a block goes if and only if it is in a chain, passing over comments and blanks, with a SecRule that has an ignored id or, on request, reads a phrase file |
| `RuleChains.RemainingAppend` | tools/corerulesetgen/rules.go:203-210 | what remains is what is not dropped, block by block and in order |
| `RuleChains.ProcessContent` | tools/corerulesetgen/rules.go:125-210 | the output is the remaining blocks joined; a block goes exactly when its chain has a member the options ask to go; with none the output is the input |
| `MapSums.SumPick` | internal/rulesets/cache/cache.go:337-344 | a sum over a map does not depend on the order |
| `RuleCache.EntrySize` | internal/rulesets/cache/cache.go:337-344 | the size of an entry in any map order |
| `RuleCache.SizeOf` | internal/rulesets/cache/cache.go:337-344 | an entry is as big as its rules and, file by file, its names and contents |
| `RuleCache.Latest` | internal/rulesets/cache/cache.go:207-223 | the search by UUID finds the newest revision |
| `RuleCache.PruneOld` | internal/rulesets/cache/cache.go:266-280 | the inner loop keeps the young revisions and the latest, and measures the rest |
| `RuleCache.PruneBig` | internal/rulesets/cache/cache.go:308-326 | the inner loop drops the oldest revisions only, while the cache is too big, never the latest, and no more than needed |
| `RuleCache.YoungIsSubsequence` | internal/rulesets/cache/cache.go:266-281 | survivors of Prune keep their order |
| `RuleCache.YoungKeepsLatest` | internal/rulesets/cache/cache.go:268-271 | Prune keeps the latest revision where it is |
| `RuleCache.RuleSetCache.Get` | internal/rulesets/cache/cache.go:78-100 | returns the newest revision |
| `RuleCache.RuleSetCache.Put` | internal/rulesets/cache/cache.go:104-136 | appends the revision as latest; both totals stay the true sums |
| `RuleCache.RuleSetCache.Delete` | internal/rulesets/cache/cache.go:140-155 | the instance goes and both totals stay the true sums |
| `RuleCache.RuleSetCache.Prune` | internal/rulesets/cache/cache.go:255-285 | in any map order each instance keeps its latest and its young revisions in order, so Get is unaffected, and the totals stay the true sums |
| `RuleCache.RuleSetCache.PruneBySize` | internal/rulesets/cache/cache.go:290-331 | in any map order only oldest revisions go, Get is unaffected, the totals stay the true sums, and the cache fits or every instance holds only its latest |
| `RuleCache.RuleSetCache.EntryMatches` | internal/rulesets/cache/cache.go:192-204 | true exactly when the newest revision has this content |

## Left out

- AuthzIndex.AuthzIndex.SoleResource: no entry has the empty name; resource names start with a fixed prefix.
- RuleCache.RuleSetCache.Put: the new UUID is unused in that instance; uuid.New is random.
- AuthLimiter.AuthFailureLimiter.Finish: a reservation is finished once and names its bucket by key; LimiterRuns.PermitHasBucket shows the bucket is still there.
- LimiterModel.Units: a zero or negative rate is not a configuration the operator uses.
- ServerClimb.Climb: attempts beyond int64 are excluded.
- ServerRace.RisesIffSole: attempts beyond int64 are excluded.
- ServerStore.ReachableInv: snapshots carry a rendered resource name and a digest as version, as PublicationRuns.StoredIsPublishable shows of what the controller publishes.
- TLS listener, certificates, asset handler, token review and JWT parsing: foreign libraries and I/O.
- Coraza compilation, protobuf, gzip and base64: functions of the build.
- Building of EnvoyFilter, NetworkPolicy and Telemetry objects: large literals without a deep property.
- Metrics, logs, events, warning texts, readiness deadlines: no effect on the modelled state.
- Error returns of SetSnapshot: a partly failed Replace is outside the invariant.
- Wrap-around of the uint64 and int counters.
- The compare-and-swap loop of recordNack: one atomic step, because budget keys belong to one session.
- Contents of the per-line directive patterns and of the body-limit walk: the guard's per-text check is a parameter.
- Sizes compared with the delivery limits: predicates of the configuration.
- The Engine controller's wait for the RuleSet's accepted content hash: one more refusal, so the model accepts whenever the source does.
- RevokeEngine for a resource that is neither known nor has an entry bumps nothing, as AuthzRevocation.RevocationBumps states.
- Revalidation of streams by token and lifetime: cancelling more streams, modelled as a step that may cancel any.
