# wordpress-operator reconcile passes, in Dafny

This project models the two reconcile passes of the Presslabs wordpress-operator
and proves properties of them.

- **The WordpressPolicy pass** (`ReconcileWordpressPolicy.Reconcile`) fetches a
  policy, lists the Wordpress sites its label selector picks (all sites when it
  has no selector), and stamps each site in list order. It sets the annotation
  `policy.wordpress.presslabs.org/<policy name>` to the policy's resource
  version, then writes the site back. The first failed write ends the loop, and
  the pass still returns success.
- **The Wordpress pass** (`WordpressReconciler.Reconcile` and `sync`) fetches a
  site, applies defaults and builds the ordered syncer list. The list is secret,
  deployment (built from the secret's object), service, ingress and wp-cron,
  then code-PVC and media-PVC when the site asks for claim-backed volumes. It
  runs the syncers in order and stops at the first error.

Files:

- `common.dfy`: `Option`, `Result` and the store's error kinds.
- `v1alpha1.dfy`: the API types, the annotation prefix, and the key format with
  its round trip.
- `wordpresspolicy_controller.dfy`: the store (`WordpressStore`, a class whose
  `objects` map and `calls` log are updated in place), the reconciler class with
  its imperative loop, the specification function `PolicyPass`, and the lemmas
  about it.
- `wordpress_controller.dfy`: the syncer list, the fail-fast `Sync` loop,
  `Reconcile`, and lemmas about ordering and inclusion.

External answers are parameters of the passes:

- what the store answers to Get, List and Update (`fetched`, `listed`,
  `updateFails[i]` for the i-th listed site);
- whether the selector fails to convert (`conversionError`);
- the two defaulting steps (`schemeDefault`, `setDefaults`);
- the outcome of each syncer's Sync (`outcome`).

Lemmas about the pass state what they assume of the List answer. Two
predicates are used:

- `Snapshot`: the listed sites are the store's current copies and no site is
  listed twice. `PassOnlyStamps`, `PassKeepsOtherPolicyStamps`,
  `PassOverStampedSitesChangesNothing` and `PassStopsAtFirstFailedUpdate`
  assume only this.
- `ListAnswers`: `Snapshot`, and exactly the matching sites are listed.
  `PassStampsEveryMatch`, `NilSelectorStampsEverySite`, `PassIdempotent` and
  the lemmas they use assume this.

A NotFound fetch of the site does not end the Wordpress pass. `ignoreNotFound`
maps it to nil (pkg/controllers/wordpress/wordpress_controller.go:53-60), so the
empty object `&Wordpress{}` is defaulted and synced. `WordpressController.Reconcile`
states this: on NotFound the empty object's secret syncer is invoked.

## Model

| member | source | states |
|---|---|---|
| `V1alpha1.PolicyAnnotationKey` | pkg/apis/wordpress/v1alpha1/wordpresspolicy_types.go:24 | a policy's key is the fixed prefix followed by exactly the policy name |
| `V1alpha1.PolicyNameOf` | pkg/apis/wordpress/v1alpha1/wordpresspolicy_types.go:24 | a name is recovered exactly when the key starts with the prefix, and it is the rest of the key |
| `V1alpha1.PolicyNameOfAnnotationKey` | pkg/apis/wordpress/v1alpha1/wordpresspolicy_types.go:24 | stripping the prefix from a policy's key gives back the policy name |
| `V1alpha1.AnnotationKeyOfPolicyName` | pkg/apis/wordpress/v1alpha1/wordpresspolicy_types.go:24 | every prefixed key is the key of the name it carries (the other half of the round trip) |
| `V1alpha1.PolicyAnnotationKeyInjective` | pkg/controller/wordpresspolicy/wordpresspolicy_controller.go:120 | two policies share a key if and only if they have the same name |
| `WordpressPolicyController.Stamp` | pkg/controller/wordpresspolicy/wordpresspolicy_controller.go:117-122 | the stamped site has the policy key set to the version; every other annotation, the labels, the name and the spec are unchanged; an empty map becomes exactly the one-entry map |
| `WordpressPolicyController.StampIdempotent` | pkg/controller/wordpresspolicy/wordpresspolicy_controller.go:122 | stamping a second time with the same version changes nothing |
| `WordpressPolicyController.FirstFailure` | pkg/controller/wordpresspolicy/wordpresspolicy_controller.go:124-127 | the position where the loop exits early: every earlier update succeeds and the update at that position fails, unless it is the list's end |
| `WordpressPolicyController.LabelSelectorAsSelector` | pkg/controller/wordpresspolicy/wordpresspolicy_controller.go:103-108 | conversion fails exactly when it reports an error, returns that error, and otherwise requires exactly the selector's label equalities |
| `WordpressPolicyController.Matches` | pkg/controller/wordpresspolicy/wordpresspolicy_controller.go:111 | the List filter: no selector or an empty selector matches every site, and a match carries every required label |
| `WordpressPolicyController.MatchesExactlyRequiredLabels` | pkg/controller/wordpresspolicy/wordpresspolicy_controller.go:111 | a selector matches a site exactly when every required label is present on the site with the required value, in both directions |
| `WordpressPolicyController.StampFrom` | pkg/controller/wordpresspolicy/wordpresspolicy_controller.go:116-128 | the loop from a position on: updates go only to listed sites, in list order, at most one per site |
| `WordpressPolicyController.StampFromUpdates` | pkg/controller/wordpresspolicy/wordpresspolicy_controller.go:116-128 | the loop issues one update per listed site, in list order, up to and including the first failing one, and no more |
| `WordpressPolicyController.StampFromFrame` | pkg/controller/wordpresspolicy/wordpresspolicy_controller.go:116-128 | a key that no site before the first failure carries is left exactly as it was |
| `WordpressPolicyController.StampFromStamped` | pkg/controller/wordpresspolicy/wordpresspolicy_controller.go:116-128 | every site before the first failure is stored stamped |
| `WordpressPolicyController.ListOptionsFor` | pkg/controller/wordpresspolicy/wordpresspolicy_controller.go:100-109 | the List is unfiltered exactly when the policy has no selector, and a present selector filters by exactly its own `matchLabels` |
| `WordpressPolicyController.PolicyPass` | pkg/controller/wordpresspolicy/wordpresspolicy_controller.go:84-131 | NotFound on the fetch gives success; another fetch error is returned; neither lists or writes. A selector conversion error is returned before any List. A List error is returned and nothing is written. The List is sent first and every later request is an update. Once the List succeeds the pass succeeds even if an update fails. A failing pass never changes the store |
| `WordpressPolicyController.PassStampsEveryMatch` | pkg/controller/wordpresspolicy/wordpresspolicy_controller.go:100-130 | when every update succeeds, each matching site ends up stamped, each other site is unchanged, and one update per listed site follows the List |
| `WordpressPolicyController.StampAllAt` | pkg/controller/wordpresspolicy/wordpresspolicy_controller.go:116-128 | when no update fails, each stored site ends up stamped if it matches the selector and unchanged otherwise |
| `WordpressPolicyController.StampAll` | pkg/controller/wordpresspolicy/wordpresspolicy_controller.go:116-128 | when no update fails, the loop keeps exactly the store's keys and stamps exactly the sites that match the selector |
| `WordpressPolicyController.StampStep` | pkg/controller/wordpresspolicy/wordpresspolicy_controller.go:116-128 | one loop step: after the update of site `i` the run is the updates issued so far followed by the rest of the loop, or it ends at `i` when that update fails |
| `WordpressPolicyController.StampAllAdds` | pkg/controller/wordpresspolicy/wordpresspolicy_controller.go:116-128 | the loop adds no site to the store |
| `WordpressPolicyController.NilSelectorStampsEverySite` | pkg/apis/wordpress/v1alpha1/wordpresspolicy_types.go:31-33 | with no selector and no failed update, every site in the store carries the policy key with the policy's version |
| `WordpressPolicyController.PassStopsAtFirstFailedUpdate` | pkg/controller/wordpresspolicy/wordpresspolicy_controller.go:124-127 | if the k-th update is the first to fail, the pass returns no error. Sites 0..k-1 are stamped, sites k and later are unchanged, and updates were sent for sites 0..k only |
| `WordpressPolicyController.PassOnlyStamps` | pkg/controller/wordpresspolicy/wordpresspolicy_controller.go:116-128 | whatever the answers, provided a successful List returns the store's current copies (`Snapshot`): no site is added or removed, unlisted sites are unchanged, and a changed site differs only by the policy's stamp |
| `WordpressPolicyController.PassKeepsOtherPolicyStamps` | pkg/controller/wordpresspolicy/wordpresspolicy_controller.go:120-122 | a pass never adds, removes or changes the stamp of a policy with another name |
| `WordpressPolicyController.PassOverStampedSitesChangesNothing` | pkg/controller/wordpresspolicy/wordpresspolicy_controller.go:117-124 | a pass that lists only sites already stamped with its version leaves the store as it is |
| `WordpressPolicyController.PassIdempotent` | pkg/controller/wordpresspolicy/wordpresspolicy_controller.go:116-128 | a second pass with the same version leaves the store unchanged, and still sends an update for every listed site |
| `WordpressPolicyController.WordpressStore.List` | pkg/controller/wordpresspolicy/wordpresspolicy_controller.go:111 | a List request is recorded and answered |
| `WordpressPolicyController.WordpressStore.Update` | pkg/controller/wordpresspolicy/wordpresspolicy_controller.go:124 | an Update is recorded; the site is replaced only if the write does not fail |
| `WordpressPolicyController.ReconcileWordpressPolicy.Reconcile` | pkg/controller/wordpresspolicy/wordpresspolicy_controller.go:84-131 | the store afterwards, the requests sent and the error returned are exactly those of `PolicyPass` |
| `WordpressPolicyController.ReconcileWordpressPolicy.StampEach` | pkg/controller/wordpresspolicy/wordpresspolicy_controller.go:116-128 | the loop leaves the store and the request log as the stamping specification says |
| `WordpressController.HasCodePVC` | pkg/controllers/wordpress/wordpress_controller.go:73 | the two nil checks hold exactly when the site has a code volume backed by some claim |
| `WordpressController.HasMediaPVC` | pkg/controllers/wordpress/wordpress_controller.go:77 | the two nil checks hold exactly when the site has a media volume backed by some claim |
| `WordpressController.Defaulted` | pkg/controllers/wordpress/wordpress_controller.go:52-60 | the fetched site, or the empty object on NotFound, with scheme defaults and then spec defaults applied |
| `WordpressController.SyncerList` | pkg/controllers/wordpress/wordpress_controller.go:62-79 | the list has 5 to 7 syncers. It starts with secret, deployment, service, ingress, wp-cron. The deployment is built from the secret syncer's object. Every syncer belongs to the site. The DB-upgrade job is never included and no kind appears twice. Code-PVC is present iff a claim-backed code volume is asked for, media-PVC likewise, and code comes before media. Only the deployment syncer carries a secret |
| `WordpressController.FixedSyncers` | pkg/controllers/wordpress/wordpress_controller.go:62-71 | the five fixed syncers in order, all owned by the site, with only the deployment carrying a secret, namely the secret syncer's object |
| `WordpressController.VolumeSyncers` | pkg/controllers/wordpress/wordpress_controller.go:73-79 | at most a code-PVC then a media-PVC syncer, each present iff its claim-backed volume is asked for, owned by the site, with no secret |
| `WordpressController.FirstFailing` | pkg/controllers/wordpress/wordpress_controller.go:88-94 | the position of the first failing syncer: all before it succeed |
| `WordpressController.FailFastRunsUpToFirstFailure` | pkg/controllers/wordpress/wordpress_controller.go:88-94 | the fail-fast contract fixes the run: exactly the syncers up to the first failing one are invoked, and that one's error (or none) is returned |
| `WordpressController.Sync` | pkg/controllers/wordpress/wordpress_controller.go:88-95 | syncers run in list order. With no error all ran and succeeded. Otherwise the last one invoked failed with that error, every earlier one succeeded, and no later one ran |
| `WordpressController.Reconcile` | pkg/controllers/wordpress/wordpress_controller.go:47-86 | a fetch error other than NotFound is returned before any syncer runs. Otherwise, NotFound included, the defaulted site's syncer list runs fail-fast and its error is returned. On NotFound the empty object's secret syncer is invoked |
| `WordpressController.AllSucceedRunsAll` | pkg/controllers/wordpress/wordpress_controller.go:81-85 | if every syncer succeeds, the pass returns no error and has run every syncer |
| `WordpressController.SecretSyncedBeforeDeployment` | pkg/controllers/wordpress/wordpress_controller.go:62-65 | whenever the deployment syncer runs, it is second, and the secret syncer it was built from ran before it and succeeded |
| `WordpressController.NoCodePVCNeverSynced` | pkg/controllers/wordpress/wordpress_controller.go:73-75 | a site without a claim-backed code volume never has a code-PVC syncer invoked |
| `WordpressController.CodePVCAddsOneSyncer` | pkg/controllers/wordpress/wordpress_controller.go:73-79 | asking for a claim-backed code volume adds exactly the code-PVC syncer, after the fixed five and before any media syncer |

## Left out

- Manager wiring and watches (`Add`, `newReconciler`, `add`, `SetupWithManager`) are framework registration, not logic.
- The controller-runtime client's Get, List and Update are external I/O. Their answers are parameters, and the store is a map keyed by namespace and name.
- Label-selector parsing and matching belong to a library that is not part of this model. A selector is reduced to its matchLabels equalities, with matchExpressions left out. Whether conversion fails is a parameter.
- `r.scheme.Default`, `wp.SetDefaults`, the `newXxxSyncer` constructors and the inside of `syncer.Sync` are not part of this model. The defaulting steps and each syncer's outcome are parameters. A syncer is its kind, its owner and, for the deployment, the secret object it mounts.
- `ignoreNotFound` is not part of this model. It is taken to map NotFound to nil and keep every other error, as its use at line 54 implies.
- pkg/apis/wordpress/v1alpha1/wordpress_types.go is not part of this model. The site type keeps only its metadata and the two volume specs the pass reads.
- The event recorder, `log.Printf` and `r.Log` are observability side effects only.
- RBAC markers, `init` scheme registration, deepcopy and JSON tags are declarative metadata. So are the contents of `Template` and of the runtime spec.
- `Priority` is modelled as a signed 32-bit integer and nothing more. The reverse-priority application order is only documented, and no code shown reads it.
- The site pass's "second run makes no writes" idempotence depends on what the syncers do inside, which is left out.
- Worker-pool concurrency, context deadlines and optimistic-concurrency conflicts belong to the external runtime. A conflicting write is one of the failures `updateFails` can describe.
- `WordpressStore.Update` does not model the new `metadata.resourceVersion` the store assigns on every write it persists. The stored site is exactly the submitted one. So the equalities `r.objects[n] == Stamp(objects[n], …)` in `PassStampsEveryMatch` hold only up to that version bump, and so does "a changed site differs only by the policy's stamp" in `PassOnlyStamps`.
- The policy loop writes each listed copy back, as the source's `range` copy does. The model reads the stamped site from the List's answer, not from the store.
