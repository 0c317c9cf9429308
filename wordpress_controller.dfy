/**
 * The Wordpress reconcile pass: fetch the site, apply defaults, build the
 * ordered list of syncers that own its child objects, and run them one
 * after another, stopping at the first that fails.
 *
 * Each syncer owns one child object; what its Sync does to the cluster is
 * outside this model, and whether it fails is given by `outcome`. The
 * `invoked` result records which syncers were run, in order.
 */
module WordpressController {
  import opened Common
  import opened V1alpha1

  /** The kinds of child object a site owns. The DB-upgrade job is known but never synced. */
  datatype Component = Secret | Deployment | Service | Ingress | WPCron | DBUpgradeJob | CodePVC | MediaPVC

  /** The child object of kind `component` owned by the site `owner`. */
  datatype ObjectRef = ObjectRef(component: Component, owner: NamespacedName)

  /**
   * A syncer: the child object it owns (its GetObject) and, for the
   * deployment syncer, the secret object it was built from.
   */
  datatype Syncer = Syncer(child: ObjectRef, secret: Option<ObjectRef>)

  /** The syncer of the `component` child of `wp`. */
  function NewSyncer(component: Component, wp: Wordpress): Syncer {
    Syncer(ObjectRef(component, KeyOf(wp)), None)
  }

  /** The deployment syncer of `wp`, mounting the given secret object. */
  function NewDeploymentSyncer(wp: Wordpress, secret: ObjectRef): Syncer {
    Syncer(ObjectRef(Deployment, KeyOf(wp)), Some(secret))
  }

  /** The syncers every site gets, in order. */
  const FixedComponents: seq<Component> := [Secret, Deployment, Service, Ingress, WPCron]

  /** The site asks for a claim-backed code volume. */
  function HasCodePVC(spec: WordpressSpec): (has: bool)
    ensures has <==> exists claim :: spec.codeVolumeSpec == Some(CodeVolumeSpec(Some(claim)))
  {
    spec.codeVolumeSpec.Some? && spec.codeVolumeSpec.value.persistentVolumeClaim.Some?
  }

  /** The site asks for a claim-backed media volume. */
  function HasMediaPVC(spec: WordpressSpec): (has: bool)
    ensures has <==> exists claim :: spec.mediaVolumeSpec == Some(MediaVolumeSpec(Some(claim)))
  {
    spec.mediaVolumeSpec.Some? && spec.mediaVolumeSpec.value.persistentVolumeClaim.Some?
  }

  function Components(syncers: seq<Syncer>): (cs: seq<Component>)
    ensures |cs| == |syncers|
    ensures forall i :: 0 <= i < |syncers| ==> cs[i] == syncers[i].child.component
  {
    seq(|syncers|, i requires 0 <= i < |syncers| => syncers[i].child.component)
  }

  /**
   * The syncer list for a (defaulted) site: secret, deployment built from
   * the secret's object, service, ingress and wp-cron, then a code-PVC
   * syncer if requested, then a media-PVC syncer if requested.
   */
  function SyncerList(wp: Wordpress): (r: seq<Syncer>)
    ensures 5 <= |r| <= 7
    ensures Components(r[..5]) == FixedComponents
    ensures r[1].secret == Some(r[0].child)
    ensures forall i :: 0 <= i < |r| && i != 1 ==> r[i].secret == None
    ensures forall i :: 0 <= i < |r| ==> r[i].child.owner == KeyOf(wp)
    ensures forall i :: 0 <= i < |r| ==> r[i].child.component != DBUpgradeJob
    ensures forall i, j :: 0 <= i < j < |r| ==> r[i].child.component != r[j].child.component
    ensures (exists i :: 0 <= i < |r| && r[i].child.component == CodePVC) <==> HasCodePVC(wp.spec)
    ensures (exists i :: 0 <= i < |r| && r[i].child.component == MediaPVC) <==> HasMediaPVC(wp.spec)
    ensures forall i, j ::
      0 <= i < |r| && 0 <= j < |r| && r[i].child.component == CodePVC && r[j].child.component == MediaPVC
      ==> i < j
  {
    var fixed := FixedSyncers(wp);
    var pvcs := VolumeSyncers(wp);
    var r := fixed + pvcs;
    assert Components(r[..5]) == FixedComponents by {
      assert r[..5] == fixed;
    }
    forall i | 5 <= i < |r| ensures r[i] == pvcs[i - 5] {
    }
    r
  }

  /** Secret, deployment built from the secret's object, service, ingress and wp-cron. */
  function FixedSyncers(wp: Wordpress): (r: seq<Syncer>)
    ensures |r| == 5 && Components(r) == FixedComponents
    ensures r[1].secret == Some(r[0].child)
    ensures forall i :: 0 <= i < 5 && i != 1 ==> r[i].secret == None
    ensures forall i :: 0 <= i < 5 ==> r[i].child.owner == KeyOf(wp)
  {
    var secret := NewSyncer(Secret, wp);
    [secret, NewDeploymentSyncer(wp, secret.child), NewSyncer(Service, wp),
     NewSyncer(Ingress, wp), NewSyncer(WPCron, wp)]
  }

  /** A code-PVC syncer if the site claims a code volume, then a media-PVC syncer if it claims a media volume. */
  function VolumeSyncers(wp: Wordpress): (r: seq<Syncer>)
    ensures |r| <= 2
    ensures forall i :: 0 <= i < |r| ==> r[i].secret == None && r[i].child.owner == KeyOf(wp)
    ensures forall i :: 0 <= i < |r| ==> r[i].child.component in {CodePVC, MediaPVC}
    ensures forall i, j :: 0 <= i < j < |r| ==> r[i].child.component == CodePVC && r[j].child.component == MediaPVC
    ensures (exists i :: 0 <= i < |r| && r[i].child.component == CodePVC) <==> HasCodePVC(wp.spec)
    ensures (exists i :: 0 <= i < |r| && r[i].child.component == MediaPVC) <==> HasMediaPVC(wp.spec)
  {
    var code := if HasCodePVC(wp.spec) then [NewSyncer(CodePVC, wp)] else [];
    var media := if HasMediaPVC(wp.spec) then [NewSyncer(MediaPVC, wp)] else [];
    assert HasCodePVC(wp.spec) ==> (code + media)[0].child.component == CodePVC;
    assert HasMediaPVC(wp.spec) ==> (code + media)[|code|].child.component == MediaPVC;
    code + media
  }

  /**
   * The fail-fast contract of `sync`: the syncers were invoked in list
   * order; if no error is returned all of them ran and succeeded, otherwise
   * the last one invoked failed with that error, every earlier one
   * succeeded, and none after it ran.
   */
  predicate FailFast(syncers: seq<Syncer>, outcome: Syncer -> Option<ApiError>,
                     err: Option<ApiError>, invoked: seq<Syncer>)
  {
    && invoked <= syncers
    && (err.None? ==> invoked == syncers && forall i :: 0 <= i < |invoked| ==> outcome(invoked[i]).None?)
    && (err.Some? ==> |invoked| > 0 && err == outcome(invoked[|invoked| - 1]) &&
                      forall i :: 0 <= i < |invoked| - 1 ==> outcome(invoked[i]).None?)
  }

  /** The position of the first syncer whose Sync fails, or the list length if none does. */
  function FirstFailing(syncers: seq<Syncer>, outcome: Syncer -> Option<ApiError>): (k: nat)
    ensures k <= |syncers|
    ensures forall j :: 0 <= j < k ==> outcome(syncers[j]).None?
    ensures k < |syncers| ==> outcome(syncers[k]).Some?
  {
    if syncers == [] then 0
    else if outcome(syncers[0]).Some? then 0
    else 1 + FirstFailing(syncers[1..], outcome)
  }

  /**
   * The fail-fast contract determines the pass completely: it runs exactly
   * the syncers up to and including the first failing one, and returns
   * that one's error, or nothing if none fails.
   */
  lemma FailFastRunsUpToFirstFailure(syncers: seq<Syncer>, outcome: Syncer -> Option<ApiError>,
                                     err: Option<ApiError>, invoked: seq<Syncer>)
    requires FailFast(syncers, outcome, err, invoked)
    ensures var k := FirstFailing(syncers, outcome);
            && invoked == syncers[..if k < |syncers| then k + 1 else k]
            && err == if k < |syncers| then outcome(syncers[k]) else None
  {
    assert forall j :: 0 <= j < |invoked| ==> invoked[j] == syncers[j];
  }

  /** Runs `syncers` in order, stopping at the first error (the source's `sync`). */
  method Sync(syncers: seq<Syncer>, outcome: Syncer -> Option<ApiError>)
    returns (err: Option<ApiError>, invoked: seq<Syncer>)
    ensures FailFast(syncers, outcome, err, invoked)
  {
    invoked := [];
    for i := 0 to |syncers|
      invariant invoked == syncers[..i]
      invariant forall j :: 0 <= j < i ==> outcome(syncers[j]).None?
    {
      invoked := invoked + [syncers[i]];
      var e := outcome(syncers[i]);
      if e.Some? {
        return e, invoked;
      }
    }
    return None, invoked;
  }

  /**
   * The site a pass works on: the fetched one, or the empty object when the
   * Get reported NotFound, with scheme defaults and then spec defaults applied.
   */
  function Defaulted(fetched: Result<Wordpress>, schemeDefault: Wordpress -> Wordpress,
                     setDefaults: Wordpress -> Wordpress): (wp: Wordpress)
    // Whatever the Get error, the empty object is what gets defaulted.
    ensures fetched.Failure? ==> wp == setDefaults(schemeDefault(EmptyWordpress))
    ensures fetched.Success? ==> wp == setDefaults(schemeDefault(fetched.value))
  {
    setDefaults(schemeDefault(if fetched.Success? then fetched.value else EmptyWordpress))
  }

  /**
   * One reconcile pass for a site. `fetched` is the store's answer to the
   * Get, `schemeDefault` and `setDefaults` the two defaulting steps, and
   * `outcome` the result of each syncer's Sync.
   */
  method Reconcile(fetched: Result<Wordpress>, schemeDefault: Wordpress -> Wordpress,
                   setDefaults: Wordpress -> Wordpress, outcome: Syncer -> Option<ApiError>)
    returns (err: Option<ApiError>, invoked: seq<Syncer>)
    // A Get error other than NotFound is returned before any syncer runs.
    ensures fetched.Failure? && fetched.error != NotFound ==> err == Some(fetched.error) && invoked == []
    // Otherwise, NotFound included, the syncers of the defaulted site run fail-fast.
    ensures fetched.Success? || fetched.error == NotFound ==>
      FailFast(SyncerList(Defaulted(fetched, schemeDefault, setDefaults)), outcome, err, invoked)
    // In particular NotFound does not end the pass: the empty object's secret is synced.
    ensures fetched == Failure(NotFound) ==>
      |invoked| > 0 && invoked[0] == NewSyncer(Secret, setDefaults(schemeDefault(EmptyWordpress)))
  {
    if fetched.Failure? && fetched.error != NotFound {
      return Some(fetched.error), [];
    }
    var wp := if fetched.Success? then fetched.value else EmptyWordpress;
    wp := schemeDefault(wp);
    wp := setDefaults(wp);

    var secretSyncer := NewSyncer(Secret, wp);
    var deploySyncer := NewDeploymentSyncer(wp, secretSyncer.child);
    var syncers := [secretSyncer, deploySyncer, NewSyncer(Service, wp), NewSyncer(Ingress, wp), NewSyncer(WPCron, wp)];
    if HasCodePVC(wp.spec) {
      syncers := syncers + [NewSyncer(CodePVC, wp)];
    }
    if HasMediaPVC(wp.spec) {
      syncers := syncers + [NewSyncer(MediaPVC, wp)];
    }
    assert syncers == SyncerList(wp);

    err, invoked := Sync(syncers, outcome);
  }

  /** When every syncer of the list succeeds, the pass succeeds having run all of them. */
  lemma AllSucceedRunsAll(syncers: seq<Syncer>, outcome: Syncer -> Option<ApiError>,
                          err: Option<ApiError>, invoked: seq<Syncer>)
    requires FailFast(syncers, outcome, err, invoked)
    requires forall i :: 0 <= i < |syncers| ==> outcome(syncers[i]).None?
    ensures err == None && invoked == syncers
  {
    FailFastRunsUpToFirstFailure(syncers, outcome, err, invoked);
  }

  /**
   * Nothing runs out of dependency order: whenever the deployment syncer
   * of a site's list is invoked, the secret syncer it was built from ran
   * before it and succeeded.
   */
  lemma SecretSyncedBeforeDeployment(wp: Wordpress, outcome: Syncer -> Option<ApiError>,
                                     err: Option<ApiError>, invoked: seq<Syncer>, i: nat)
    requires FailFast(SyncerList(wp), outcome, err, invoked)
    requires i < |invoked| && invoked[i].child.component == Deployment
    ensures i == 1 && invoked[0].child == invoked[1].secret.value && invoked[0].child.component == Secret
    ensures outcome(invoked[0]).None?
  {
    var r := SyncerList(wp);
    assert invoked[i] == r[i];
    assert Components(r[..5])[1] == Deployment;
    assert r[1].child.component == Deployment;
    assert Components(r[..5])[0] == Secret;
  }

  /** A site without a claim-backed code volume never has its code-PVC syncer invoked. */
  lemma NoCodePVCNeverSynced(wp: Wordpress, outcome: Syncer -> Option<ApiError>,
                             err: Option<ApiError>, invoked: seq<Syncer>)
    requires FailFast(SyncerList(wp), outcome, err, invoked)
    requires !HasCodePVC(wp.spec)
    ensures forall i :: 0 <= i < |invoked| ==> invoked[i].child.component != CodePVC
  {
    var r := SyncerList(wp);
    forall i | 0 <= i < |invoked| ensures invoked[i].child.component != CodePVC {
      assert invoked[i] == r[i];
    }
  }

  /**
   * Requesting a claim-backed code volume adds exactly one syncer, the
   * code-PVC one, right after the fixed five and before any media syncer.
   */
  lemma CodePVCAddsOneSyncer(wp: Wordpress, claim: PersistentVolumeClaimSpec)
    requires !HasCodePVC(wp.spec)
    ensures var wp' := wp.(spec := wp.spec.(codeVolumeSpec := Some(CodeVolumeSpec(Some(claim)))));
            SyncerList(wp') == SyncerList(wp)[..5] + [NewSyncer(CodePVC, wp)] + SyncerList(wp)[5..]
  {
  }
}
