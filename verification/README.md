# Model of the service provider integration operator

This project models the control-plane protocol of the operator and the OAuth service, and proves what
it keeps whatever fails on the way.

**The token and binding protocol.** `Cluster` is the shared state: tokens, bindings, token data, synced
dependents, upload secrets and the clock, as a value (`World`) and as a class that is changed in place
(`ApiServer`). `TokenReconciler`, `BindingReconciler` and `TokenUpload` give each reconcile twice:
as a specification, a function that goes through the stages of the code, and as a class that does the
same step by step and is proved equal to it. Every call that can fail takes its outcome from the
environment (`TokenEnv`, `BindingEnv`, `UploadEnv`), so each proof covers every combination of
failures; a status written half way through a reconcile is the last one of the reconcile that fails
right after. `Invariant`, `TokenSafety` and `BindingSafety` prove stage by stage what one reconcile
keeps, `Runs` lifts that to all runs of all actors, `LinkFaults` says exactly which faults break a
link, and `TokenProgress`, `BindingProgress`, `Normalisation` and `TokenLife` prove wake-ups,
lifetimes, kept links and the end of normalisation. `TokenOutcome` and `BindingOutcome` say, without
the stages, what a reconcile ends with: when a token is Ready and a binding injected, what ends them,
and which error tells which cause.

**Notification.** `DataUpdates` has the in-memory storage, the notifying storage, the mapping of
data-update objects to requests and their reconciler. `Notification` lets writers (with write and
notification as two steps), event delivery, mapping, queues, reconciles and the consumption of the
updates interleave freely.

**Caches, lookup and matching.** `MetadataCache` and `QuayCache` are the two caches with the clock and
the truncation of stamps to seconds. `Lookup` is the concurrent lookup as a machine of goroutines,
where appending to a shared slice is a read and a write. `GithubScope`, `GitlabScope`, `QuayScope`,
`ScopeFilters` and `Permissions` are scopes over arbitrary strings; `ProviderConfig` is the choice of
the provider configuration by the operator and by the OAuth service, and `ProviderChoice` says what
is chosen by what is listed.

**Representations.** `QuayRepositoryId` and `LinkAnnotation`, over the string functions in `Strings`.

## Assumptions

- Users write neither status nor link label nor the operator's finalizers, and delete a token only
  after its first reconcile has added the finalizers. Nobody else puts finalizers on tokens.
- Update leaves the stored status alone and brings it into memory; Status().Update leaves all else
  alone; an object being deleted goes with its last finalizer, and the server accepts no new ones on it.
- A pass over the finalizers runs all of them and persists nothing when one fails.
- Generated names are new. The clock does not run backwards.
- Syncing dependents succeeds with at least one object, or leaves any objects behind; reverting
  restores the checkpoint and cleaning up empties, or they fail.
- Parsing of URLs, durations and struct validation are arbitrary functions; for the agreement of
  operator and OAuth service, parsing scheme://host gives that scheme and host again.
- Nobody but the reconciles of a binding changes or deletes its synced dependents.
- A change of a data-update object is delivered to each controller at least once, in any order.
- The comma-separated list helper of the remote-secret library is not part of this model. It is taken
  to split at commas, an empty value standing for no names, to append a name that is absent, and to
  join again.

## Where the code differs from what is promised

Each point has its exact condition and an input at which it shows; the inputs that are runs are in
`Findings`.

- GitHub's implication of scopes is not transitive: `user`, `admin:user` and `write:user` imply
  `read:user`, which implies `user:email` and `user:follow`, which they do not imply
  (`GithubScope.TransitiveExactly`, `GithubScope.UserEmailIsNotPassedOn`). So a required scope that
  another required one implies may be dropped unless that is `read:user`
  (`ScopeFilters.GithubDropExactly`).
- The message at oauth/oauth_config.go:30 says that the operator finds the same configuration. For
  all secrets and shared configurations that holds exactly for URLs at the default base URL of
  GitHub, GitLab or Quay (`ProviderConfig.AgreeExactlyAtDefaults`). Elsewhere the operator may pick
  Quay for the URL, while the service looks for it under https://quay.io: for another host, and also
  for http://quay.io, which the option at docs/ADMIN.md:61 makes possible
  (`ProviderConfig.QuayOnOtherHostsDisagrees`, `ProviderConfig.InsecureQuayDisagrees`).
- docs/USER.md:227-229 says that negative lifetimes and lifetimes of less than 60 seconds are ignored.
  The code reports an error instead and does not link the binding
  (`BindingProgress.LifetimeIsRefusedExactlyWhen`, `Findings.ShortLifetimeIsAnError`).
- A failed update of the normalised URL is not reported: the error is shadowed at
  controllers/spiaccesstokenbinding_controller.go:666-669, and the reconcile ends like one in which
  the update succeeded (`BindingProgress.UrlEndsReconcileExactlyWhen`,
  `Findings.FailedUrlUpdateIsNotReported`).
- A Quay binding that has only the deprecated finalizer and old areas when it is deleted cannot be
  finalized until somebody edits it (`BindingProgress.DeprecatedFinalizerBlocksDeletion`,
  `Normalisation.StuckUntilEdited`, `Findings.DeletionGetsStuck`).
- A link comes apart when the status write fails after the label was written and the failure is not
  recorded, or the new token is rolled back (`LinkFaults.LinkBreaksExactlyWhen`,
  `Runs.LinkIsLostOnlyByFaults`, `Findings.LinkComesApart`).
- The comment at controllers/spiaccesstoken_controller.go:272 says that missing data clears the metadata
  of a token, which then awaits data. When the same reconcile changes the labels and the provider
  finds nothing, the update of the labels brings the stored metadata back and the token stays Ready
  (`TokenOutcome.StaysReadyWithoutDataExactlyWhen`, `Findings.TokenStaysReadyWithoutData`).
- A write is announced to the bindings when its data update appears and again when that is consumed.
  A binding that is linked to the token and that nothing else queues misses the write for good
  exactly when none of the mappings of these events that find it linked can list the bindings
  (`Notification.WakeUpIsLostExactlyWhen`, `Findings.WakeUpIsLost`).

## Model

| member | source | states |
|---|---|---|
| `Runs.LinksAreSound` | controllers/spiaccesstokenbinding_controller.go:516-626 | in every run in which no reconcile of the binding meets the faults that take a link apart (label written, status not, and then the error not recorded or a new token rolled back), whatever else fails, its link label equals the linked token in its status and, when not empty, names an existing token |
| `Runs.LinkIsLostOnlyByFaults` | controllers/spiaccesstokenbinding_controller.go:576-626 | a step of any run after which a sound link is no longer sound is a reconcile of that binding with those faults |
| `Runs.LinkStaysSound` | controllers/spiaccesstokenbinding_controller.go:602-626 | every other step of any process keeps a sound link sound |
| `Runs.OthersKeepBinding` | controllers/spiaccesstokenbinding_controller.go:198-422 | steps about other objects leave a binding alone |
| `Runs.LinkedTokenStays` | controllers/spiaccesstoken_controller.go:150-190 | whatever fails, no step of any run removes a token that a link label names; a token that goes was being deleted and went in its own pass, with the link check, the data deletion and the finalizer update all successful |
| `Runs.NoOrphanedData` | controllers/spiaccesstoken_controller.go:447-453 | whatever fails, after any run the storage has data only under keys of tokens that exist; each writer's get-then-store is one step |
| `Runs.StatusesAreConsistent` | controllers/spiaccesstoken_controller.go:290-336 | whatever fails, every persisted token status has an exceptional phase exactly when it has an error reason, and no OAuth URL when it is Ready |
| `Runs.DependentsMatchStatus` | controllers/spiaccesstokenbinding_controller.go:344-407 | while reverting and cleaning up succeed when called in its own reconciles, whatever happens to others, a live binding has dependents exactly when its status refers to a synced object, and any binding with dependents refers to one |
| `Runs.DependentsAreGuarded` | controllers/spiaccesstokenbinding_controller.go:720-760 | whatever fails, dependents exist only for a binding that exists and carries one of the two finalizers that clean them up |
| `Runs.BindingNeverAccumulatesTokens` | controllers/spiaccesstokenbinding_controller.go:524-589 | whatever label and status writes fail, the tokens created for a binding minus those rolled back are at most one, and none while it is not linked, provided that the roll-backs of its own reconciles succeed |
| `Runs.StepKeepsInv` | controllers/spiaccesstokenbinding_controller.go:198-422 | every step of the system keeps the invariant, under the assumptions of the mode only |
| `Runs.RunKeepsInv` | controllers/spiaccesstoken_controller.go:131-270 | the invariant holds after every run from an empty cluster |
| `Runs.UploadGrows` | controllers/tokenupload_controller.go:122-154 | an upload takes no token away, leaves all token statuses consistent and all bindings alone, and stores data only for a token |
| `Runs.BindingActionKeepsInv` | controllers/spiaccesstokenbinding_controller.go:198-211 | users that create, edit within the assumptions and delete bindings keep the invariant |
| `Runs.TokenActionKeepsInv` | oauth/token_upload.go:54-71 | users that create, edit and delete tokens, and the OAuth service depositing data, keep the invariant |
| `Invariant.BindingStepKeepsInv` | controllers/spiaccesstokenbinding_controller.go:198-422 | a step that touches one binding and only adds tokens keeps the invariant of all others |
| `Invariant.TokenStepKeepsInv` | controllers/spiaccesstoken_controller.go:131-190 | a step that touches one token, and removes it only when nothing links to it, keeps the invariant |
| `TokenReconciler.Reconciler.Reconcile` | controllers/spiaccesstoken_controller.go:131-270 | one reconcile in place: the resulting state and ending are those of the specification, for every combination of failures |
| `TokenReconciler.Reconciler.Finalize` | controllers/spiaccesstoken_controller.go:150-161 | adds both finalizers to a live token; for a token being deleted succeeds exactly when the link check and the data deletion do, and only then takes the finalizers off |
| `TokenReconciler.Reconciler.FlipToExceptionalPhase` | controllers/spiaccesstoken_controller.go:290-300 | writes phase and reason over the status in memory, or changes nothing |
| `TokenReconciler.Reconciler.ReconcileTokenData` | controllers/spiaccesstoken_controller.go:273-284 | clears the metadata in memory exactly when a Ready token with metadata has no data in the storage |
| `TokenReconciler.Reconciler.EnsureMetadata` | pkg/serviceprovider/cache.go:105-139 | what the metadata cache leaves in memory and in the cluster, in each of its five cases |
| `TokenReconciler.Reconciler.EnsureLabels` | controllers/spiaccesstoken_controller.go:468-490 | sets the provider label and, when the URL has a host, the host label; reports a change exactly when there was one |
| `TokenReconciler.Reconciler.UpdateTokenStatusSuccess` | controllers/spiaccesstoken_controller.go:302-336 | writes the success status filled in from the metadata, or leaves the cluster as it was |
| `TokenReconciler.Reconciler.RefreshToken` | controllers/spiaccesstoken_controller.go:375-415 | stores the refreshed data exactly when reading, refreshing and storing succeed |
| `TokenReconciler.Reconciler.FinishReconcile` | controllers/spiaccesstoken_controller.go:238-269 | the tail of the reconcile: labels, success status, refresh on request, next visit |
| `TokenReconciler.Reconciler.ReconcileLiveToken` | controllers/spiaccesstoken_controller.go:192-269 | the part after the lifetime check, with all its early endings |
| `TokenSafety.ReconcileTouches` | controllers/spiaccesstoken_controller.go:131-270 | a reconcile changes only its own token and data, leaves a consistent status in it, and removes it only when it is being deleted and nothing is linked to it |
| `TokenSafety.TokenLeaves` | controllers/spiaccesstoken_controller.go:150-170 | a token leaves if and only if it was being deleted and read, link check, data deletion and update succeeded; if link check or data deletion fails, all persisted tokens stay as they are |
| `TokenSafety.CheckLifetimeTouches` | controllers/spiaccesstoken_controller.go:172-190 | deleting an overdue token only marks it, as the finalizers are in place by then |
| `TokenSafety.PersistTouches` | controllers/spiaccesstoken_controller.go:217-236 | the outcomes of persisting the metadata keep the status consistent, with the error reasons the code gives |
| `TokenProgress.SuccessWrite` | controllers/spiaccesstoken_controller.go:302-336 | every success status makes the token Ready if and only if the metadata names a user, and clears the error |
| `TokenProgress.ReconcileConcluded` | controllers/spiaccesstoken_controller.go:238-288 | only a live token that got through every stage asks for a wake-up; its status is a success status and the delay leads to creation plus lifetime plus grace period |
| `TokenProgress.WakeUpIsSound` | controllers/spiaccesstoken_controller.go:172-190 | a reconcile at or after the requested wake-up that reaches the lifetime check deletes the token when no binding is linked to it |
| `TokenOutcome.EndedExactlyWhen` | controllers/spiaccesstoken_controller.go:172-190 | a reconcile ends a live token exactly when it is older than its time to live, or awaits data and is older than the grace period, no binding is linked to it, and reading, finalizer update, link check and deletion succeed; status and data stay |
| `TokenOutcome.FailureTellsCause` | controllers/spiaccesstoken_controller.go:197-236 | phase, reason and ending tell the cause: provider not configured properly or unknown, unsupported permissions, a refused access token, metadata that cannot be fetched or written |
| `TokenOutcome.SuccessTellsMetadata` | controllers/spiaccesstoken_controller.go:192-269 | a reconcile that gets through leaves the token Ready exactly when the metadata believed or fetched names a user, with that metadata, else awaiting data with an OAuth URL; labelled so that the lookup finds it as a candidate; refreshed on request; with the next visit asked for |
| `TokenOutcome.StaysReadyWithoutDataExactlyWhen` | controllers/spiaccesstoken_controller.go:243-252 | a Ready token whose data is gone and for which nothing is found stays Ready through a reconcile exactly when that changes its labels |
| `Findings.TokenStaysReadyWithoutData` | controllers/spiaccesstoken_controller.go:243-252 | a token without data and a reconcile that leaves it Ready |
| `TokenLife.OnlyUserOrLifetimeEndsToken` | controllers/spiaccesstoken_controller.go:172-190 | in every run, a live token is ended only by a user, or by its own reconcile when it is too old, or too old without data, and no binding is linked to it |
| `TokenLife.BindingPassKeepsTokens` | controllers/spiaccesstokenbinding_controller.go:516-589 | a reconcile of a binding leaves every token that is there as it is, apart from metadata that the lookup refreshed |
| `BindingReconciler.Reconciler.Reconcile` | controllers/spiaccesstokenbinding_controller.go:198-422 | one reconcile in place: the resulting state and ending are those of the specification, for every combination of failures |
| `BindingReconciler.Reconciler.ReconcileExisting` | controllers/spiaccesstokenbinding_controller.go:214-222 | URL and finalizer normalisation before anything else, with the in-memory migration while being deleted |
| `BindingReconciler.Reconciler.ReconcileWithProvider` | controllers/spiaccesstokenbinding_controller.go:222-262 | provider errors, area migration, finalizers |
| `BindingReconciler.Reconciler.FinalizeDeletedBinding` | controllers/spiaccesstokenbinding_controller.go:242-262 | the finalizer goes only after the dependents were cleaned up; a clean-up that fails keeps it |
| `BindingReconciler.Reconciler.ReconcileLiveBinding` | controllers/spiaccesstokenbinding_controller.go:264-310 | lifetime check, consistency and validation, each with its ending |
| `BindingReconciler.Reconciler.LinkAndSyncToken` | controllers/spiaccesstokenbinding_controller.go:312-407 | link, mismatch of a Ready token, syncing |
| `BindingReconciler.Reconciler.SyncToken` | controllers/spiaccesstokenbinding_controller.go:344-384 | dependents and status after a sync that succeeds, finds no data, or fails and is reverted |
| `BindingReconciler.Reconciler.SettleDependents` | controllers/spiaccesstokenbinding_controller.go:390-421 | a failed status write reverts to the checkpoint; anything but Injected is cleaned up; the next visit is scheduled |
| `BindingReconciler.Reconciler.EstablishLink` | controllers/spiaccesstokenbinding_controller.go:516-589 | linkToken as a whole: look up, pick or create, persist, roll back |
| `BindingReconciler.Reconciler.FindOrCreateToken` | controllers/spiaccesstokenbinding_controller.go:524-570 | keeps the linked token when it is among those found, else takes the first; falls back to the linked token, else creates one |
| `BindingReconciler.Reconciler.PersistOrRollbackLink` | controllers/spiaccesstokenbinding_controller.go:574-588 | persists the link to the token picked, and on failure takes away a token that was created for it |
| `BindingReconciler.Reconciler.RollbackToken` | controllers/spiaccesstokenbinding_controller.go:576-584 | deletes the token that was just created |
| `BindingReconciler.Reconciler.PersistWithMatchingLabels` | controllers/spiaccesstokenbinding_controller.go:602-626 | writes the label when it differs, then the linked token into the status when it differs, with an error status on either failure |
| `BindingReconciler.Reconciler.CheckQuayPermissionAreasMigration` | controllers/spiaccesstokenbinding_controller.go:466-481 | rewrites exactly the two old areas, position by position, only for Quay; reports a change exactly when there was an old one |
| `BindingReconciler.Reconciler.UpdateBindingStatusError` | controllers/spiaccesstokenbinding_controller.go:629-635 | writes the status in memory with the reason, or nothing |
| `BindingReconciler.Reconciler.UpdateBindingStatusSuccess` | controllers/spiaccesstokenbinding_controller.go:638-646 | clears the reason and writes the status, or changes memory only |
| `BindingReconciler.PossibleLookupFindsReady` | pkg/serviceprovider/lookup.go:110-156 | whatever a lookup finds is a Ready token of the namespace |
| `BindingSafety.ReconcileKept` | controllers/spiaccesstokenbinding_controller.go:198-422 | a reconcile touches only its own binding, dependents and new tokens and, in each mode, keeps link, dependents and count in order on every path |
| `BindingSafety.LinkTokenKept` | controllers/spiaccesstokenbinding_controller.go:516-589 | linking keeps the invariant on all its paths, faulty ones included |
| `BindingSafety.LinkCreatedKept` | controllers/spiaccesstokenbinding_controller.go:534-584 | a token created for the binding ends up linked, or is gone again |
| `BindingSafety.PersistLinkShape` | controllers/spiaccesstokenbinding_controller.go:602-626 | persisting the link changes label and status of this binding only, and leaves the status on the old or the new token |
| `BindingSafety.SyncDependentsKept` | controllers/spiaccesstokenbinding_controller.go:344-407 | every outcome of the sync keeps dependents and status in agreement |
| `BindingSafety.FinalizeDeletedKept` | controllers/spiaccesstokenbinding_controller.go:720-760 | the binding goes with its last finalizer only when its dependents are gone |
| `LinkFaults.LinkBreaksExactlyWhen` | controllers/spiaccesstokenbinding_controller.go:576-626 | linkToken takes a sound link apart if and only if the label was written for another token, the status was not, and then either the error status failed too or a newly created token is rolled back |
| `BindingSafety.PersistLinkOutcome` | controllers/spiaccesstokenbinding_controller.go:602-626 | label and status after the two writes, fault by fault |
| `BindingProgress.ReconcileProceeds` | controllers/spiaccesstokenbinding_controller.go:198-422 | a reconcile ends early to normalise, or keeps the spec, moves the link only as allowed, and deletes the binding only past its lifetime |
| `BindingProgress.MatchingLinkIsKept` | controllers/spiaccesstokenbinding_controller.go:564-572 | a binding linked to a token that still matches stays linked to it, wherever the token comes in the result, and also when the lookup fails |
| `BindingProgress.MatchingIsFound` | pkg/serviceprovider/lookup.go:151-156 | a lookup succeeds if and only if the tokens are listed and no candidate fails, and then finds the matching token |
| `Normalisation.MatchingLinkIsNeverMoved` | controllers/spiaccesstokenbinding_controller.go:483-491 | in every run in which the binding's token matches at each of its reconciles, it is never relinked, whichever lookups fail |
| `BindingProgress.LifetimeIsRefusedExactlyWhen` | controllers/spiaccesstokenbinding_controller.go:448-464 | a live binding that reaches the lifetime check ends in a retry that records a lifetime error and links nothing, if and only if its lifetime is neither empty nor -1 and does not parse or is below 60 seconds |
| `Findings.ShortLifetimeIsAnError` | controllers/spiaccesstokenbinding_controller.go:264-269 | a run in which a binding with a lifetime of 30 seconds ends with a lifetime error and unlinked |
| `BindingProgress.UrlEndsReconcileExactlyWhen` | controllers/spiaccesstokenbinding_controller.go:653-673 | a reconcile ends early for the URL if and only if the binding is read and its URL is to be normalised, whether or not the update succeeds; a failed update changes nothing |
| `Findings.FailedUrlUpdateIsNotReported` | controllers/spiaccesstokenbinding_controller.go:664-669 | a reconcile with a failed update of the URL that ends as if it had succeeded |
| `Findings.LinkComesApart` | controllers/spiaccesstokenbinding_controller.go:576-626 | a run of two steps from an empty cluster that ends with a label that names no token and a status without a link |
| `Findings.DeletionGetsStuck` | controllers/spiaccesstokenbinding_controller.go:231-237 | a run after which a reconcile in which everything succeeds ends in a retry and changes nothing |
| `Normalisation.StuckUntilEdited` | controllers/spiaccesstokenbinding_controller.go:231-237 | such a binding stays, and stays stuck, in every run in which nobody edits it and its URL stands for Quay |
| `BindingProgress.ReconcileNormalises` | controllers/spiaccesstokenbinding_controller.go:426-445 | when the updates of finalizers and areas succeed, a reconcile that gets past the URL leaves no deprecated finalizer, no old Quay area, and the same number and types of permissions |
| `BindingProgress.ProperRepoUrlIsIdempotent` | controllers/spiaccesstokenbinding_controller.go:676-698 | a URL that was made proper stays as it is |
| `BindingProgress.MigratedAreasHasNoOldArea` | controllers/spiaccesstokenbinding_controller.go:466-481 | after the migration no old area is left, and number and types are as before |
| `BindingProgress.DeprecatedFinalizerBlocksDeletion` | controllers/spiaccesstokenbinding_controller.go:231-237 | a Quay binding being deleted with old areas is stuck, every reconcile changing nothing, exactly when it has only the deprecated finalizer or the update fails |
| `BindingProgress.WakeUpIsSound` | controllers/spiaccesstokenbinding_controller.go:412-421 | a requested wake-up is at least the grace period away, and a reconcile at or after it that reaches the lifetime check deletes the binding |
| `BindingProgress.CheckLifetimeProceeds` | controllers/spiaccesstokenbinding_controller.go:264-281 | the lifetime check and all that follows keep the spec and schedule by the lifetime in it |
| `BindingOutcome.InjectedExactlyWhen` | controllers/spiaccesstokenbinding_controller.go:312-421 | a live binding whose reconcile gets through the link, with every later call but the sync successful, is injected if and only if the linked token is Ready and matches and the sync succeeded, with exactly what was synced; awaits data, with nothing synced, if and only if the token is not Ready or has no data; else records the failed sync, or that the Ready token does not match, and keeps what was synced. Link, URLs, a created token and the next visit are told too |
| `BindingOutcome.FaultsAfterLink` | controllers/spiaccesstokenbinding_controller.go:344-407 | what each fault after the link leaves: a checkpoint or status write that fails leaves what was synced before, a clean-up that fails is recorded |
| `BindingOutcome.ErrorTellsFirstCause` | controllers/spiaccesstokenbinding_controller.go:214-310 | the error in the status tells the first thing wrong with a binding: URL, provider, lifetime, consistency or permissions, and nothing else has changed |
| `BindingOutcome.UnlinkedErrorTellsCause` | controllers/spiaccesstokenbinding_controller.go:516-560 | a failed lookup, a missing base URL and a failed creation are recorded, and link and create nothing |
| `BindingOutcome.EndedExactlyWhen` | controllers/spiaccesstokenbinding_controller.go:264-281 | a reconcile ends a live binding exactly when it gets to the lifetime check, the binding has lived out its lifetime and deleting succeeds |
| `BindingOutcome.LeavesExactlyWhen` | controllers/spiaccesstokenbinding_controller.go:242-262 | a reconcile removes a binding exactly when it is being deleted, only the operator holds it, provider and clean-up are right and the update succeeds; then nothing synced is left |
| `Normalisation.AtMostTwoEarlyEnds` | controllers/spiaccesstokenbinding_controller.go:214-237 | in any run without edits of the binding in which its URL can be written, at most two of its reconciles end early to normalise it |
| `Normalisation.StepUsesUpPending` | controllers/spiaccesstokenbinding_controller.go:653-673 | ending early uses up something to normalise, and no other step makes anything to normalise |
| `Normalisation.OnlyUserOrLifetimeEnds` | controllers/spiaccesstokenbinding_controller.go:264-281 | in every run, a live binding is ended only by a user, or by its own reconcile strictly after creation plus lifetime: the configured one when it has none, never for -1 |
| `Cluster.ApiServer.ListHasLinkedBindings` | controllers/spiaccesstoken_controller.go:455-464 | true exactly when a binding of the namespace carries the token's name in the link label |
| `Cluster.ApiServer.SendToken` | controllers/spiaccesstoken_controller.go:158-161 | Update: keeps the stored status, refreshes it in memory, removes an object being deleted that has no finalizer left |
| `Cluster.ApiServer.SendTokenStatus` | controllers/spiaccesstoken_controller.go:290-300 | Status().Update: changes nothing but the status |
| `Cluster.ApiServer.RemoveToken` | controllers/spiaccesstoken_controller.go:181-187 | Delete: removes, or marks while there are finalizers |
| `Cluster.ApiServer.SendBinding` | controllers/spiaccesstokenbinding_controller.go:436-442 | Update of a binding, refused when it adds a finalizer to one being deleted |
| `Cluster.ApiServer.SendBindingStatus` | controllers/spiaccesstokenbinding_controller.go:629-646 | Status().Update of a binding |
| `Cluster.ApiServer.RemoveBinding` | controllers/spiaccesstokenbinding_controller.go:271-281 | Delete of a binding |
| `TokenUpload.TokenUploadReconciler.Reconcile` | controllers/tokenupload_controller.go:71-120 | one reconcile of an upload secret in place, equal to the specification |
| `TokenUpload.TokenUploadReconciler.ReconcileToken` | controllers/tokenupload_controller.go:122-154 | finds or creates the token, then stores the data |
| `TokenUpload.TokenUploadReconciler.FindSpiAccessToken` | controllers/tokenupload_controller.go:218-239 | error, no token or the token named in the secret |
| `TokenUpload.TokenUploadReconciler.FailWithEvent` | controllers/tokenupload_controller.go:181-201 | replaces the event of the secret |
| `TokenUpload.TokenUploadReconciler.DeleteEvent` | controllers/tokenupload_controller.go:205-216 | takes the event of the secret away, if it can be read and deleted |
| `TokenUpload.UploadOnce` | controllers/tokenupload_controller.go:71-154 | a secret that was taken up is gone or being deleted; the data gets through exactly when the secret is labelled, its token is read or created, and storing and notifying succeed; it has an event exactly when they did not; data that got through is stored for an existing token, a created one being for the URL of the secret; no other token or data changes |
| `TokenUpload.TakenUpSecretIsIgnored` | controllers/tokenupload_controller.go:77-91 | a secret that is gone or being deleted is not taken up again |
| `TokenUpload.ProcessEffect` | controllers/tokenupload_controller.go:122-154 | the upload creates at most the target token and writes at most its data |
| `DataUpdates.RequestForDataUpdateOwner` | controllers/enqueue.go:45-69 | at most one request per object: the named owner, in the namespace of the object, exactly when it is a data update of this group and of that kind |
| `DataUpdates.UpdateReachesItsOwner` | controllers/enqueue.go:45-69 | an update posted for a token is mapped to exactly that token, and only an update of this group, kind, namespace and name is |
| `DataUpdates.MemoryTokenStorage.Store` | pkg/spi-shared/tokenstorage/memorystorage/memory.go:56-68 | stores under the owner's key, or fails and changes nothing |
| `DataUpdates.MemoryTokenStorage.Get` | pkg/spi-shared/tokenstorage/memorystorage/memory.go:70-86 | what is stored, nothing, or the injected error |
| `DataUpdates.MemoryTokenStorage.Delete` | pkg/spi-shared/tokenstorage/memorystorage/memory.go:88-100 | removes the owner's data, or fails and changes nothing |
| `DataUpdates.LastWriteIsRead` | pkg/spi-shared/tokenstorage/memorystorage/memory.go:56-100 | after any writes by any owners, what is read for an owner is what was stored for it last, and nothing once it was deleted |
| `DataUpdates.NotifyingTokenStorage.Store` | pkg/spi-shared/tokenstorage/notifyingtokenstorage.go:45-51 | succeeds exactly when write and post do; nothing is posted unless the data was written |
| `DataUpdates.NotifyingTokenStorage.Get` | pkg/spi-shared/tokenstorage/notifyingtokenstorage.go:53-58 | reads through |
| `DataUpdates.NotifyingTokenStorage.Delete` | pkg/spi-shared/tokenstorage/notifyingtokenstorage.go:60-66 | as Store, for removal |
| `DataUpdates.NotifyingTokenStorage.CreateDataUpdate` | pkg/spi-shared/tokenstorage/notifyingtokenstorage.go:68-91 | posts one data update that names the owner |
| `DataUpdates.DataUpdateReconciler.Reconcile` | controllers/spiaccesstokendataupdate_controller.go:69-106 | deletes a data update that is not being deleted yet; errors leave everything for a retry |
| `DataUpdates.FilteredBindingsAsRequests` | controllers/spiaccesstokenbinding_controller.go:179-196 | requests exactly the listed bindings that are linked to the token |
| `Notification.NoLostWakeUp` | pkg/spi-shared/tokenstorage/notifyingtokenstorage.go:45-91 | in every interleaving, after a notifying write that succeeded an event about the token is on its way, a reconcile is queued, or one has started since the write |
| `Notification.EveryWriteIsMappedForBindings` | controllers/spiaccesstokenbinding_controller.go:126-147 | the event of every such write is mapped for bindings, or still will be |
| `Notification.NoLostWakeUpOfBindings` | controllers/spiaccesstokenbinding_controller.go:126-147 | a binding linked to the written token when an event of the write is mapped with the bindings listed is, from then on, queued or has started a reconcile since the write, whatever happens before and after and whichever other lists fail |
| `Notification.WritesWakeLinkedBindings` | controllers/spiaccesstokenbinding_controller.go:126-147 | end to end: after a notifying write that succeeded, an event of it is still on its way to the bindings, or was mapped by a step of the run; and every binding linked to the token at such a step at which the bindings could be listed is queued or has started a reconcile since the write |
| `Notification.MappedByStep` | controllers/spiaccesstokenbinding_controller.go:126-147 | what counts as mapped was mapped by a step of the run for an event of that write |
| `Notification.WakeUpIsLostExactlyWhen` | controllers/spiaccesstokenbinding_controller.go:126-147 | once no event of a write is on its way to the bindings or still to come, a binding that is not queued when the write is made and that nothing else queues is served because of it, then and ever after, if and only if one of the mappings of the write found it linked and could list the bindings |
| `Notification.ServedExactlyWhenListed` | controllers/spiaccesstokenbinding_controller.go:135-142 | the same at any point of the run: served so far if and only if a mapping so far found it linked and could list |
| `Notification.SettledIsKept` | controllers/spiaccesstokendataupdate_controller.go:93-99 | a write of which no event is on its way or still to come has none ever after |
| `Findings.WakeUpIsLost` | controllers/spiaccesstokenbinding_controller.go:135-142 | a run in which the list fails when the update appears and when it is consumed: nothing about the write is left, the linked binding is not served, nor is it in any longer run in which nothing else queues it |
| `Notification.MappingServesExactlyWhenListed` | controllers/spiaccesstokenbinding_controller.go:135-142 | right after one mapping of an event, a binding linked to its token is served exactly when that mapping could list, or it was served before |
| `DataUpdates.ConsumeOnlyMarks` | controllers/spiaccesstokendataupdate_controller.go:83-99 | consuming a data update takes it away or marks it, and changes no other |
| `Notification.QuietTokensAreUpToDate` | controllers/spiaccesstoken_controller.go:97-99 | once the last write to a token was announced and nothing about it is pending, its last reconcile could see exactly what the storage holds |
| `Notification.StepKeepsInv` | controllers/spiaccesstokendataupdate_controller.go:93-99 | every step, the consumption of data updates included, keeps all pending wake-ups |
| `Notification.TokenLane` | controllers/enqueue.go:45-69 | no step of any process loses the wake-up of a token |
| `Notification.BindingLane` | controllers/spiaccesstokenbinding_controller.go:126-147 | no step loses the event for bindings |
| `MetadataCache.Cache.Ensure` | pkg/serviceprovider/cache.go:105-139 | memory and cluster afterwards, and the error, in every case of expiry, fetch and write |
| `MetadataCache.Cache.Persist` | pkg/serviceprovider/cache.go:79-89 | stamps the metadata with the truncated time and writes it |
| `MetadataCache.Cache.Refresh` | pkg/serviceprovider/cache.go:92-101 | clears expired metadata in memory and nothing else |
| `MetadataCache.RunKeepsStamps` | pkg/serviceprovider/cache.go:79-89 | along every run each stored stamp is the truncation of the instant at which it was made |
| `MetadataCache.EnsureMeetsTtl` | pkg/serviceprovider/cache.go:65-67 | after any run, what a successful Ensure serves was stamped at most ttl ago, it fetches only later than ttl minus one second after the stamp, and it keeps memory and cluster in agreement |
| `MetadataCache.EnsureServesTheAnswer` | pkg/serviceprovider/cache.go:92-139 | metadata stamped at most ttl ago is served as it is; otherwise memory is exactly the stamped answer of the fetch, which goes to the cluster when it can be written, or nothing when the fetch fails |
| `MetadataCache.RunServesAnswers` | pkg/serviceprovider/cache.go:79-139 | along every run the metadata in memory and in the cluster is what the fetch at its stamp answered |
| `MetadataCache.CacheRefinesFetching` | pkg/serviceprovider/cache.go:105-139 | what a successful Ensure serves after any run is, apart from the stamp, what the provider answered at an instant at most ttl before |
| `QuayCache.MetadataProvider.DoFetchRepo` | pkg/serviceprovider/quay/metadataprovider.go:155-268 | result, memory and cluster equal the specification, with lazy and remembered login |
| `QuayCache.MetadataProvider.GetEntityRecord` | pkg/serviceprovider/quay/metadataprovider.go:278-316 | the cached record while it is fresh, else one with the scopes and the time of the fetch, which replaces it, or an error |
| `QuayCache.MetadataProvider.PersistTokenState` | pkg/serviceprovider/quay/metadataprovider.go:319-336 | writes the encoded state to memory and, when it can, to the cluster |
| `QuayCache.MetadataProvider.LoginTokenInfo` | pkg/serviceprovider/quay/metadataprovider.go:204-236 | a login that succeeded is remembered, any other is tried again |
| `QuayCache.FetchRepoAnswers` | pkg/serviceprovider/quay/metadataprovider.go:155-316 | records are returned exactly when state, data, URL, logins, fetches and the write are right; they are the cached ones while fresh and else have the scopes that were fetched, and are then in memory and cluster; nothing is written when nothing was fetched |
| `QuayCache.CacheRefinesFetching` | pkg/serviceprovider/quay/metadataprovider.go:155-316 | after any run every returned record has the scopes that a fetch of exactly that organization or repository answered at most ttl before it was looked up |
| `QuayCache.RunIsSound` | pkg/serviceprovider/quay/metadataprovider.go:278-316 | every cached record has the scopes that a fetch for its own key answered at its stamp |
| `QuayCache.FetchRepoWrites` | pkg/serviceprovider/quay/metadataprovider.go:238-268 | an error writes nothing to the cluster; at most one entry per map changes |
| `QuayCache.OtherEntriesUntouched` | pkg/serviceprovider/quay/metadataprovider.go:278-316 | the entries of all other organizations and repositories stay |
| `QuayRepositoryId.ParseUndoesPrint` | pkg/serviceprovider/quay/utils.go:102-138 | the parser undoes the printer for all plain names, in both forms, with or without version and scheme |
| `QuayRepositoryId.ParsedNamesHaveNoSlash` | pkg/serviceprovider/quay/utils.go:102-138 | no parsed organization or repository contains a slash |
| `QuayRepositoryId.OnlyQuayIsParsed` | pkg/serviceprovider/quay/utils.go:102-138 | nothing is parsed that does not lead to quay.io, after an optional scheme |
| `QuayRepositoryId.RepositoryKeysDistinct` | pkg/serviceprovider/quay/metadataprovider.go:248 | different repositories never share a cache key |
| `Lookup.LookupTokens` | pkg/serviceprovider/lookup.go:89-157 | a lookup that cannot list the tokens fails; any other terminates, under any scheduler, with the promised multiset, or with an error exactly when a candidate failed |
| `Lookup.EverySchedule` | pkg/serviceprovider/lookup.go:110-156 | every schedule is finite, never stuck before all goroutines are done, and ends with that outcome |
| `Lookup.StepInv` | pkg/serviceprovider/lookup.go:118-145 | every step keeps mutual exclusion and the accounting of both shared slices |
| `Lookup.NoDeadlock` | pkg/serviceprovider/lookup.go:118-149 | as long as a goroutine is not done, one can move |
| `Permissions.GetAllScopes` | pkg/serviceprovider/util.go:23-41 | an enumeration, without repetition and in any order, of exactly the requested scopes |
| `GithubScope.ImpliesMeaning` | pkg/serviceprovider/github/state.go:75-123 | the string surgery means three named rules and the ladder admin, write, read |
| `GithubScope.Reflexive` | pkg/serviceprovider/github/state.go:75-79 | every scope implies itself |
| `GithubScope.Antisymmetric` | pkg/serviceprovider/github/state.go:75-123 | no two different strings imply each other |
| `GithubScope.TransitiveExactly` | pkg/serviceprovider/github/state.go:75-123 | two implications compose if and only if they are not in the one exceptional family around read:user |
| `GithubScope.UserEmailIsNotPassedOn` | pkg/serviceprovider/github/state.go:80-95 | user implies read:user, which implies user:email, which user does not imply |
| `GithubScope.AroundReadUser` | pkg/serviceprovider/github/state.go:80-95 | what implies read:user does not imply the scopes that read:user implies |
| `GitlabScope.PartialOrder` | pkg/serviceprovider/gitlab/state.go:37-53 | a partial order over all strings |
| `GitlabScope.OAuthScopesFor` | pkg/serviceprovider/gitlab/gitlab.go:173-183 | exactly the requested scopes and the two that are always there |
| `GitlabScope.WritingCoversReading` | pkg/serviceprovider/gitlab/gitlab.go:185-202 | the permission to write an area asks for at least what the permission to read it does |
| `QuayScope.WritingCoversReading` | pkg/serviceprovider/quay/quay.go:156-179 | the same, if and only if it is not the write-only permission on the registry: pushing does not imply pulling |
| `ScopeFilters.GithubWritingCoversReading` | pkg/serviceprovider/github/github.go:193-212 | the permission to write an area asks for at least what the permission to read it does |
| `QuayScope.WhatGrants` | pkg/serviceprovider/quay/quay.go:156-179 | repo:read grants exactly the read permissions, repo:write all, pull exactly reading and push exactly writing the registry |
| `GitlabScope.WhatGrants` | pkg/serviceprovider/gitlab/gitlab.go:185-202 | which permissions each of the seven scopes grants |
| `ScopeFilters.WhatGithubGrants` | pkg/serviceprovider/github/github.go:193-212 | which permissions each scope that is asked for grants: the hooks and user scopes only their own areas, the read scopes only reading |
| `QuayScope.PartialOrder` | pkg/serviceprovider/quay/state.go:68-85 | a partial order over all strings |
| `QuayScope.OrgAdminStandsAlone` | pkg/serviceprovider/quay/state.go:68-85 | org:admin neither implies another scope nor is implied by one |
| `QuayScope.OAuthScopesFor` | pkg/serviceprovider/quay/quay.go:131-154 | exactly the four fixed scopes and the additional ones |
| `QuayScope.TranslationIsRequested` | pkg/serviceprovider/quay/quay.go:156-179 | whatever a permission translates to is implied by a scope that is always requested |
| `ScopeFilters.GitlabMatches` | pkg/serviceprovider/gitlab/tokenfilter.go:30-59 | the answer is the same for every order of the required scopes |
| `ScopeFilters.GitlabMonotone` | pkg/serviceprovider/gitlab/tokenfilter.go:30-59 | monotone in the token's scopes, antitone in the required ones |
| `ScopeFilters.GitlabDropImplied` | pkg/serviceprovider/gitlab/tokenfilter.go:30-59 | a required scope implied by another required one may be dropped |
| `ScopeFilters.GitlabGrantedMatches` | pkg/serviceprovider/gitlab/tokenfilter.go:30-59 | a token granted what the OAuth flow requests matches |
| `ScopeFilters.QuayMatches` | pkg/serviceprovider/quay/tokenfilter.go:32-71 | the answer is the same for every order of the required scopes |
| `ScopeFilters.QuayMonotone` | pkg/serviceprovider/quay/tokenfilter.go:32-71 | monotone in both records, antitone in the required scopes |
| `ScopeFilters.QuayDropImplied` | pkg/serviceprovider/quay/tokenfilter.go:32-71 | a required scope implied by another required one may be dropped |
| `ScopeFilters.QuayGrantedMatches` | pkg/serviceprovider/quay/tokenfilter.go:32-71 | a token with everything requested on both records matches |
| `ScopeFilters.GithubMatches` | pkg/serviceprovider/github/tokenfilter.go:30-74 | the answer is the same for every order of repositories and required scopes |
| `ScopeFilters.GithubMonotone` | pkg/serviceprovider/github/tokenfilter.go:49-74 | monotone in the token's scopes, antitone in the required ones |
| `ScopeFilters.GithubDropImplied` | pkg/serviceprovider/github/tokenfilter.go:49-74 | an implied required scope may be dropped unless the implying one is read:user |
| `ScopeFilters.GithubDropExactly` | pkg/serviceprovider/github/tokenfilter.go:49-74 | dropping an implied required scope changes no answer if and only if the implying scope is not read:user |
| `ScopeFilters.GithubDropFails` | pkg/serviceprovider/github/tokenfilter.go:49-74 | in that case a token with the scope user tells the two apart |
| `ProviderConfig.FindUserServiceProviderConfigSecret` | pkg/spi-shared/config/userconfig.go:50-110 | one pass in place over the listed secrets finds what the specification does; none when listing is not permitted |
| `ProviderChoice.FindSecretChooses` | pkg/spi-shared/config/userconfig.go:77-110 | a secret is found exactly when it is the only one for the host, or none is for the host and it is the only one without a host for the default host; several of the kind that applies are an error; else there is none |
| `ProviderChoice.SecretStandsFor` | pkg/spi-shared/config/userconfig.go:126-153 | the client fields and the two optional endpoint fields of a secret |
| `ProviderChoice.ServiceFindsWhatIsConfigured` | oauth/oauth_config.go:36-68 | the OAuth service finds OAuth data exactly when they are in the user's one secret, or, when the user has none, in the first shared entry of the type at the base URL |
| `ProviderChoice.FirstConfiguredTypeIsPicked` | pkg/serviceprovider/serviceprovider.go:105-131 | the operator picks the first supported type with a secret, a shared entry or the URL as default, with that configuration, and else host credentials |
| `ProviderConfig.InitializeOAuthConfigFromSecret` | pkg/spi-shared/config/userconfig.go:126-153 | the client and endpoint that the secret's data stands for, filled in field by field |
| `ProviderConfig.FindSecretIgnoresOrder` | pkg/spi-shared/config/userconfig.go:77-110 | the outcome is the same for every order in which the secrets are listed |
| `ProviderConfig.OperatorAndServiceAgree` | oauth/oauth_config.go:36-68 | for GitHub and GitLab the OAuth service finds the client and endpoint of the configuration that the operator picked, for all secrets in all orders and all shared configurations; for Quay, when the base URL of the URL is https://quay.io |
| `ProviderConfig.AgreeExactlyAtDefaults` | oauth/oauth_config.go:36-68 | operator and OAuth service agree on a URL for all secrets, orders, shared configurations and validations if and only if its scheme and host make the default base URL of GitHub, GitLab (where Quay is never picked) or Quay |
| `ProviderConfig.DefaultTypeIsPicked` | pkg/serviceprovider/serviceprovider.go:105-131 | at the default base URL of a type no later type is picked |
| `ProviderConfig.InsecureQuayDisagrees` | oauth/oauth_config.go:36-68 | they do not agree on http://quay.io |
| `ProviderConfig.WhereOAuthComesFrom` | pkg/serviceprovider/serviceprovider.go:105-131 | a picked configuration with OAuth data is the user's or the shared one for the URL's scheme and host |
| `ProviderConfig.QuayOnOtherHostsDisagrees` | oauth/oauth_config.go:36-68 | for every host other than quay.io, away from the default base URLs of GitHub and GitLab, there is a secret with which the operator picks Quay with OAuth data and the service finds none |
| `ProviderConfig.OAuthService.ObtainOauthConfig` | oauth/oauth_config.go:36-68 | the outcome equals the specification, and the assignment of the redirect URL through the shared pointer changes no client data |
| `LinkAnnotation.RunRefinesSet` | controllers/bindingtarget/objectmarker.go:78-145 | after any calls the annotation decodes to exactly the bindings whose last reference operation was a mark, is absent when there is none, and at most one binding manages the object |
| `LinkAnnotation.ApplyRefinesSet` | controllers/bindingtarget/objectmarker.go:78-145 | each call acts on the annotation as on a set and keeps it well-formed |
| `LinkAnnotation.LastManagerIsNamed` | controllers/bindingtarget/objectmarker.go:78-124 | after any calls the label names a binding exactly when it took the object over and since then no other did and it has not let go |
| `LinkAnnotation.JoinIsDecoded` | controllers/bindingtarget/objectmarker.go:98-115 | a written list of names reads back as that list |
| `LinkAnnotation.MarkedObject.IsReferencedBy` | controllers/bindingtarget/objectmarker.go:57-64 | membership in the annotation |
| `LinkAnnotation.MarkedObject.IsManagedBy` | controllers/bindingtarget/objectmarker.go:38-41 | referenced, and named by the label |
| `LinkAnnotation.MarkedObject.MarkReferenced` | controllers/bindingtarget/objectmarker.go:98-115 | adds the reference, reports whether it was new, keeps all other annotations |
| `LinkAnnotation.MarkedObject.MarkManaged` | controllers/bindingtarget/objectmarker.go:78-95 | adds the reference and takes over the label, keeps all other labels and annotations |
| `LinkAnnotation.MarkedObject.UnmarkManaged` | controllers/bindingtarget/objectmarker.go:118-124 | removes the label only when it is this binding's; reports whether there was one |
| `LinkAnnotation.MarkedObject.UnmarkReferenced` | controllers/bindingtarget/objectmarker.go:127-145 | removes the reference, and the annotation with the last one |
| `LinkAnnotation.MarkedObject.GetReferencingTargets` | controllers/bindingtarget/objectmarker.go:147-160 | the keys of exactly the referencing bindings |

## Left out

- Error messages, log output and metrics: reasons and phases are modelled, texts are not.
- The rounding of durations to float seconds, the whole seconds of creation timestamps and the saturation of durations.
- The order of finalizers in their list: finalizers are sets.
- Refused updates because of a stale resource version: a write that is refused counts as one that fails and changes nothing.
- Interleaving inside a reconcile: token, binding and upload reconciles are atomic with respect to each other; only the lookup and the notification path are split.
- HTTP calls and the clients of GitHub, GitLab and Quay: fetches and validation are arbitrary answers that may fail.
- JSON and base64: encodings are injective, and undecodable bytes are one value.
- Syncing of secrets and service accounts behind DependentsHandler: only the contract under Assumptions.
- DefaultTokenStorage: the in-memory storage gives the semantics of reading, storing and deleting.
- Informers, rate limits and leader election of the controller runtime.
- An absent label and an empty one are the same on tokens and bindings.
- The wiring of the exact Quay filter: the filter is modelled with a metadata provider.
- Access checks, file content requests, remote secrets, the other finalizers, secret types, the command line, HTML and session handling of the OAuth service.
- MetadataCache.EnsureMeetsTtl: is about one token; several tokens do not share metadata.
- BindingProgress.WakeUpIsSound: takes configuration, creation time and lifetime of the binding as unchanged in between, as an edit wakes the reconciler up anyway.
- LinkFaults.LinkBreaksExactlyWhen: is about linkToken, the only part of a reconcile that writes the link; for whole runs Runs.LinkIsLostOnlyByFaults says that nothing else loses a link.
