/**
 * The WordpressPolicy reconcile pass: fetch a policy, list the Wordpress
 * sites its selector picks, and stamp each of them, in list order, with the
 * annotation `policy.wordpress.presslabs.org/<policy name>` set to the
 * policy's resource version, writing each site back to the store.
 *
 * The store is the `WordpressStore` class; the answers the store gives to
 * Get, List and Update, and the outcome of converting the selector, are
 * parameters of the pass.
 */
module WordpressPolicyController {
  import opened Common
  import opened V1alpha1

  /** A converted selector (`labels.Selector`): label equalities every match must carry. */
  datatype Selector = Selector(requirements: map<string, string>)

  /** The options of a List request; no selector lists every Wordpress site. */
  datatype ListOptions = ListOptions(labelSelector: Option<Selector>)

  /** A request the pass sends to the Wordpress store. */
  datatype Call = ListCall(opts: ListOptions) | UpdateCall(key: NamespacedName)

  /** `metav1.LabelSelectorAsSelector`; `conversionError` is its failure, if any. */
  function LabelSelectorAsSelector(ls: LabelSelector, conversionError: Option<ApiError>): (r: Result<Selector>)
    ensures r.Failure? <==> conversionError.Some?
    ensures r.Failure? ==> r.error == conversionError.value
    // A converted selector requires exactly the selector's label equalities.
    ensures r.Success? ==> r.value.requirements == ls.matchLabels
  {
    if conversionError.Some? then Failure(conversionError.value) else Success(Selector(ls.matchLabels))
  }

  /** Whether a site with these labels is returned by a List with `opts`. */
  function Matches(opts: ListOptions, labels: map<string, string>): (matched: bool)
    // No selector, or a selector with no requirements, matches every site.
    ensures opts.labelSelector.None? ==> matched
    ensures opts.labelSelector.Some? && opts.labelSelector.value.requirements == map[] ==> matched
    // A match carries every label the selector requires.
    ensures matched && opts.labelSelector.Some? ==> opts.labelSelector.value.requirements.Keys <= labels.Keys
  {
    match opts.labelSelector
    case None => true
    case Some(sel) => forall k :: k in sel.requirements ==> k in labels && labels[k] == sel.requirements[k]
  }

  /** A selector matches exactly the sites carrying every required label with the required value. */
  lemma MatchesExactlyRequiredLabels(sel: Selector, labels: map<string, string>)
    ensures Matches(ListOptions(Some(sel)), labels) <==> sel.requirements.Items <= labels.Items
  {
    if Matches(ListOptions(Some(sel)), labels) {
      forall p | p in sel.requirements.Items ensures p in labels.Items {
        assert p.0 in sel.requirements && sel.requirements[p.0] == p.1;
      }
    }
    if sel.requirements.Items <= labels.Items {
      forall k | k in sel.requirements ensures k in labels && labels[k] == sel.requirements[k] {
        assert (k, sel.requirements[k]) in sel.requirements.Items;
      }
    }
  }

  /** The site `wp` with annotation `key` set to `value`, the map created if empty. */
  function Stamp(wp: Wordpress, key: string, value: string): (r: Wordpress)
    ensures KeyOf(r) == KeyOf(wp) && r.spec == wp.spec
    ensures r.metadata == wp.metadata.(annotations := r.metadata.annotations)
    ensures key in r.metadata.annotations && r.metadata.annotations[key] == value
    ensures r.metadata.annotations.Keys == wp.metadata.annotations.Keys + {key}
    ensures forall k :: k in wp.metadata.annotations && k != key ==>
      r.metadata.annotations[k] == wp.metadata.annotations[k]
    ensures |wp.metadata.annotations| == 0 ==> r.metadata.annotations == map[key := value]
  {
    var annotations := if |wp.metadata.annotations| == 0 then map[] else wp.metadata.annotations;
    wp.(metadata := wp.metadata.(annotations := annotations[key := value]))
  }

  /** Stamping twice with the same key and value is stamping once. */
  lemma StampIdempotent(wp: Wordpress, key: string, value: string)
    ensures Stamp(Stamp(wp, key, value), key, value) == Stamp(wp, key, value)
  {
    var once := Stamp(wp, key, value);
    assert once.metadata.annotations[key := value] == once.metadata.annotations;
  }

  /** Whether the oracle says the update at position `i` of the list fails. */
  predicate UpdateFails(updateFails: seq<bool>, i: nat) {
    i < |updateFails| && updateFails[i]
  }

  /** The position of the first failing update at or after `i`, or `n` if none fails. */
  function FirstFailure(updateFails: seq<bool>, i: nat, n: nat): (k: nat)
    requires i <= n
    ensures i <= k <= n
    ensures forall j :: i <= j < k ==> !UpdateFails(updateFails, j)
    ensures k < n ==> UpdateFails(updateFails, k)
    decreases n - i
  {
    if i == n then n
    else if UpdateFails(updateFails, i) then i
    else FirstFailure(updateFails, i + 1, n)
  }

  /** The update requests issued for `items`, in order. */
  function Updates(items: seq<Wordpress>): (calls: seq<Call>)
    ensures |calls| == |items|
    ensures forall j :: 0 <= j < |items| ==> calls[j] == UpdateCall(KeyOf(items[j]))
  {
    seq(|items|, j requires 0 <= j < |items| => UpdateCall(KeyOf(items[j])))
  }

  /** The keys of the listed sites. */
  function Keys(items: seq<Wordpress>): set<NamespacedName> {
    set wp | wp in items :: KeyOf(wp)
  }

  /** Listed sites are distinct objects (no key listed twice). */
  predicate DistinctKeys(items: seq<Wordpress>) {
    forall i, j :: 0 <= i < j < |items| ==> KeyOf(items[i]) != KeyOf(items[j])
  }

  /** Every listed site is the store's current copy, and no site is listed twice. */
  predicate Snapshot(objects: map<NamespacedName, Wordpress>, items: seq<Wordpress>) {
    DistinctKeys(items) &&
    forall i :: 0 <= i < |items| ==> KeyOf(items[i]) in objects && objects[KeyOf(items[i])] == items[i]
  }

  /** What a List with `opts` returns: a snapshot of exactly the matching sites, in some order. */
  predicate ListAnswers(objects: map<NamespacedName, Wordpress>, opts: ListOptions, items: seq<Wordpress>) {
    Snapshot(objects, items) &&
    (forall i :: 0 <= i < |items| ==> Matches(opts, items[i].metadata.labels)) &&
    (forall n :: n in objects && Matches(opts, objects[n].metadata.labels) ==> n in Keys(items))
  }

  /** The store after the stamping loop from position `i` on, and the updates it issued. */
  datatype StampRun = StampRun(objects: map<NamespacedName, Wordpress>, updates: seq<Call>)

  /**
   * The stamping loop from position `i`: each site is stamped and written;
   * a failed write leaves the store as it was and ends the loop.
   */
  function StampFrom(objects: map<NamespacedName, Wordpress>, items: seq<Wordpress>,
                     key: string, value: string, updateFails: seq<bool>, i: nat): (r: StampRun)
    requires i <= |items|
    // Updates are issued for listed sites only, in list order, at most one per site.
    ensures |r.updates| <= |items| - i
    ensures forall j :: 0 <= j < |r.updates| ==> r.updates[j] == UpdateCall(KeyOf(items[i + j]))
    decreases |items| - i
  {
    if i == |items| then StampRun(objects, [])
    else
      var wp := Stamp(items[i], key, value);
      if UpdateFails(updateFails, i) then StampRun(objects, [UpdateCall(KeyOf(wp))])
      else
        var rest := StampFrom(objects[KeyOf(wp) := wp], items, key, value, updateFails, i + 1);
        StampRun(rest.objects, [UpdateCall(KeyOf(wp))] + rest.updates)
  }

  /**
   * One step of the stamping loop at position `i`: if the run from `start`
   * is the updates already issued followed by the run from `objects` at
   * `i`, then after the Update of site `i` it is the updates issued so far
   * followed by the run from the new store at `i + 1`, or it ends there
   * when that Update fails.
   */
  lemma StampStep(start: map<NamespacedName, Wordpress>, objects: map<NamespacedName, Wordpress>,
                  items: seq<Wordpress>, key: string, value: string, updateFails: seq<bool>,
                  updates: seq<Call>, i: nat)
    requires i < |items|
    requires var rest := StampFrom(objects, items, key, value, updateFails, i);
             StampFrom(start, items, key, value, updateFails, 0) == StampRun(rest.objects, updates + rest.updates)
    ensures var wp := Stamp(items[i], key, value);
            var done := updates + [UpdateCall(KeyOf(wp))];
            var rest := StampFrom(objects[KeyOf(wp) := wp], items, key, value, updateFails, i + 1);
            StampFrom(start, items, key, value, updateFails, 0)
              == if UpdateFails(updateFails, i) then StampRun(objects, done)
                 else StampRun(rest.objects, done + rest.updates)
  {
    var wp := Stamp(items[i], key, value);
    var rest := StampFrom(objects[KeyOf(wp) := wp], items, key, value, updateFails, i + 1);
    if !UpdateFails(updateFails, i) {
      assert updates + ([UpdateCall(KeyOf(wp))] + rest.updates) == (updates + [UpdateCall(KeyOf(wp))]) + rest.updates;
    }
  }

  /** The updates the loop issues from position `i`: one per site up to and including the first failing one. */
  lemma {:induction false} StampFromUpdates(objects: map<NamespacedName, Wordpress>, items: seq<Wordpress>,
                                           key: string, value: string, updateFails: seq<bool>, i: nat)
    requires i <= |items|
    ensures var k := FirstFailure(updateFails, i, |items|);
            var hi := if k < |items| then k + 1 else k;
            var updates := StampFrom(objects, items, key, value, updateFails, i).updates;
            |updates| == hi - i &&
            forall j :: i <= j < hi ==> updates[j - i] == UpdateCall(KeyOf(items[j]))
    decreases |items| - i
  {
    if i < |items| && !UpdateFails(updateFails, i) {
      var wp := Stamp(items[i], key, value);
      StampFromUpdates(objects[KeyOf(wp) := wp], items, key, value, updateFails, i + 1);
    }
  }

  /** A key no site before the first failure carries is left exactly as it was. */
  lemma {:induction false} StampFromFrame(objects: map<NamespacedName, Wordpress>, items: seq<Wordpress>,
                                         key: string, value: string, updateFails: seq<bool>, i: nat,
                                         n: NamespacedName)
    requires i <= |items|
    requires forall j :: i <= j < FirstFailure(updateFails, i, |items|) ==> KeyOf(items[j]) != n
    ensures var r := StampFrom(objects, items, key, value, updateFails, i);
            (n in r.objects <==> n in objects) && (n in objects ==> r.objects[n] == objects[n])
    decreases |items| - i
  {
    if i < |items| && !UpdateFails(updateFails, i) {
      var wp := Stamp(items[i], key, value);
      assert FirstFailure(updateFails, i, |items|) == FirstFailure(updateFails, i + 1, |items|);
      StampFromFrame(objects[KeyOf(wp) := wp], items, key, value, updateFails, i + 1, n);
      assert StampFrom(objects, items, key, value, updateFails, i).objects
          == StampFrom(objects[KeyOf(wp) := wp], items, key, value, updateFails, i + 1).objects;
    }
  }

  /** Each site before the first failure ends up stored stamped, provided no site is listed twice. */
  lemma {:induction false} StampFromStamped(objects: map<NamespacedName, Wordpress>, items: seq<Wordpress>,
                                           key: string, value: string, updateFails: seq<bool>, i: nat, j: nat)
    requires DistinctKeys(items)
    requires i <= j < |items| && j < FirstFailure(updateFails, i, |items|)
    ensures var r := StampFrom(objects, items, key, value, updateFails, i);
            KeyOf(items[j]) in r.objects && r.objects[KeyOf(items[j])] == Stamp(items[j], key, value)
    decreases |items| - i
  {
    var wp := Stamp(items[i], key, value);
    if j == i {
      StampFromFrame(objects[KeyOf(wp) := wp], items, key, value, updateFails, i + 1, KeyOf(wp));
    } else {
      StampFromStamped(objects[KeyOf(wp) := wp], items, key, value, updateFails, i + 1, j);
    }
  }

  /** The result of one pass: the store afterwards, the requests sent, the error returned. */
  datatype PassResult = PassResult(objects: map<NamespacedName, Wordpress>, calls: seq<Call>, err: Option<ApiError>)

  /** The List options a policy's selector yields once converted. */
  function ListOptionsFor(selector: Option<LabelSelector>): (opts: ListOptions)
    ensures opts.labelSelector.None? <==> selector.None?
    // A present selector filters by its own label equalities.
    ensures selector.Some? ==> opts.labelSelector.value.requirements == selector.value.matchLabels
  {
    match selector
    case None => ListOptions(None)
    case Some(ls) => ListOptions(Some(LabelSelectorAsSelector(ls, None).value))
  }

  /**
   * One policy pass over the store `objects`. `fetched` is the store's answer
   * to the Get of the policy, `conversionError` the failure of converting its
   * selector (if any), `listed` the answer to the List, and `updateFails[i]`
   * whether the update of the i-th listed site fails.
   */
  function PolicyPass(objects: map<NamespacedName, Wordpress>, fetched: Result<WordpressPolicy>,
                      conversionError: Option<ApiError>, listed: Result<seq<Wordpress>>,
                      updateFails: seq<bool>): (r: PassResult)
    // Fetching: NotFound is a silent success, any other error is returned; neither lists nor writes.
    ensures fetched.Failure? ==> r.objects == objects && r.calls == []
    ensures fetched.Failure? ==> (r.err == None <==> fetched.error == NotFound)
    ensures fetched.Failure? && r.err.Some? ==> r.err.value == fetched.error
    // A selector that does not convert aborts with its error before any List.
    ensures fetched.Success? && fetched.value.spec.selector.Some? && conversionError.Some? ==>
      r == PassResult(objects, [], conversionError)
    // Otherwise exactly one List is sent first, unfiltered exactly when there is no selector,
    // and every later request is an update.
    ensures fetched.Success? && (fetched.value.spec.selector.None? || conversionError.None?) ==>
      |r.calls| >= 1 && r.calls[0].ListCall? &&
      (r.calls[0].opts.labelSelector.None? <==> fetched.value.spec.selector.None?) &&
      forall i :: 1 <= i < |r.calls| ==> r.calls[i].UpdateCall?
    // A List error is returned and nothing is written.
    ensures fetched.Success? && (fetched.value.spec.selector.None? || conversionError.None?) && listed.Failure? ==>
      r.objects == objects && |r.calls| == 1 && r.err == Some(listed.error)
    // Once the List succeeds the pass succeeds, even if an update fails.
    ensures fetched.Success? && (fetched.value.spec.selector.None? || conversionError.None?) && listed.Success? ==>
      r.err == None
    // Every failing pass leaves the store untouched.
    ensures r.err.Some? ==> r.objects == objects
  {
    match fetched
    case Failure(e) => PassResult(objects, [], if e == NotFound then None else Some(e))
    case Success(policy) =>
      if policy.spec.selector.Some? && conversionError.Some? then PassResult(objects, [], conversionError)
      else
        var opts := ListOptionsFor(policy.spec.selector);
        match listed
        case Failure(e) => PassResult(objects, [ListCall(opts)], Some(e))
        case Success(items) =>
          var run := StampFrom(objects, items, PolicyAnnotationKey(policy.metadata.name),
                               policy.metadata.resourceVersion, updateFails, 0);
          PassResult(run.objects, [ListCall(opts)] + run.updates, None)
  }

  /** The first failing update of a list whose earlier updates all succeed is found as such. */
  lemma FirstFailureAt(updateFails: seq<bool>, n: nat, k: nat)
    requires k < n && UpdateFails(updateFails, k)
    requires forall j :: 0 <= j < k ==> !UpdateFails(updateFails, j)
    ensures FirstFailure(updateFails, 0, n) == k
  {
  }

  /** The index of a listed site with key `n`. */
  lemma ListedAt(items: seq<Wordpress>, n: NamespacedName) returns (j: nat)
    requires n in Keys(items)
    ensures j < |items| && KeyOf(items[j]) == n
  {
    var w :| w in items && KeyOf(w) == n;
    j :| 0 <= j < |items| && items[j] == w;
  }

  /**
   * A pass whose every update succeeds stamps every site the selector
   * matches (and only those), issues one update per listed site after the
   * List, and returns success.
   */
  lemma PassStampsEveryMatch(objects: map<NamespacedName, Wordpress>, policy: WordpressPolicy,
                             conversionError: Option<ApiError>, items: seq<Wordpress>, updateFails: seq<bool>)
    requires policy.spec.selector.None? || conversionError.None?
    requires ListAnswers(objects, ListOptionsFor(policy.spec.selector), items)
    requires forall j :: 0 <= j < |items| ==> !UpdateFails(updateFails, j)
    ensures var r := PolicyPass(objects, Success(policy), conversionError, Success(items), updateFails);
            var opts := ListOptionsFor(policy.spec.selector);
            var key := PolicyAnnotationKey(policy.metadata.name);
            && r.err == None
            && r.calls == [ListCall(opts)] + Updates(items)
            && r.objects.Keys == objects.Keys
            && forall n :: n in objects ==>
                 r.objects[n] == if Matches(opts, objects[n].metadata.labels)
                                 then Stamp(objects[n], key, policy.metadata.resourceVersion)
                                 else objects[n]
  {
    var r := PolicyPass(objects, Success(policy), conversionError, Success(items), updateFails);
    var opts := ListOptionsFor(policy.spec.selector);
    var key := PolicyAnnotationKey(policy.metadata.name);
    var value := policy.metadata.resourceVersion;
    var run := StampFrom(objects, items, key, value, updateFails, 0);
    assert r.objects == run.objects;
    var k := FirstFailure(updateFails, 0, |items|);
    assert k == |items|;
    StampFromUpdates(objects, items, key, value, updateFails, 0);
    assert run.updates == Updates(items);
    StampAll(objects, opts, items, key, value, updateFails);
  }

  /** When no update fails, the loop keeps the store's keys and stamps exactly the matching sites. */
  lemma StampAll(objects: map<NamespacedName, Wordpress>, opts: ListOptions, items: seq<Wordpress>,
                 key: string, value: string, updateFails: seq<bool>)
    requires ListAnswers(objects, opts, items)
    requires forall j :: 0 <= j < |items| ==> !UpdateFails(updateFails, j)
    ensures var run := StampFrom(objects, items, key, value, updateFails, 0);
            && run.objects.Keys == objects.Keys
            && forall n :: n in objects ==>
                 run.objects[n] == if Matches(opts, objects[n].metadata.labels) then Stamp(objects[n], key, value) else objects[n]
  {
    var run := StampFrom(objects, items, key, value, updateFails, 0);
    forall n | n in objects
      ensures n in run.objects
      ensures run.objects[n] == if Matches(opts, objects[n].metadata.labels) then Stamp(objects[n], key, value) else objects[n]
    {
      StampAllAt(objects, opts, items, key, value, updateFails, n);
    }
    forall n | n in run.objects ensures n in objects {
      StampAllAdds(objects, opts, items, key, value, updateFails, n);
    }
  }

  /** When no update fails, a stored site ends up stamped if it matches and unchanged otherwise. */
  lemma StampAllAt(objects: map<NamespacedName, Wordpress>, opts: ListOptions, items: seq<Wordpress>,
                   key: string, value: string, updateFails: seq<bool>, n: NamespacedName)
    requires ListAnswers(objects, opts, items)
    requires forall j :: 0 <= j < |items| ==> !UpdateFails(updateFails, j)
    requires n in objects
    ensures var run := StampFrom(objects, items, key, value, updateFails, 0);
            n in run.objects &&
            run.objects[n] == if Matches(opts, objects[n].metadata.labels) then Stamp(objects[n], key, value) else objects[n]
  {
    var k := FirstFailure(updateFails, 0, |items|);
    assert k == |items|;
    if Matches(opts, objects[n].metadata.labels) {
      var j := ListedAt(items, n);
      StampFromStamped(objects, items, key, value, updateFails, 0, j);
    } else {
      forall j | 0 <= j < k ensures KeyOf(items[j]) != n {
        assert Matches(opts, items[j].metadata.labels);
      }
      StampFromFrame(objects, items, key, value, updateFails, 0, n);
    }
  }

  /** The stamping loop adds no site to the store that was not there. */
  lemma StampAllAdds(objects: map<NamespacedName, Wordpress>, opts: ListOptions, items: seq<Wordpress>,
                     key: string, value: string, updateFails: seq<bool>, n: NamespacedName)
    requires ListAnswers(objects, opts, items)
    requires n in StampFrom(objects, items, key, value, updateFails, 0).objects
    ensures n in objects
  {
    var k := FirstFailure(updateFails, 0, |items|);
    if n !in Keys(items) {
      forall j | 0 <= j < k ensures KeyOf(items[j]) != n {
        assert items[j] in items;
      }
      StampFromFrame(objects, items, key, value, updateFails, 0, n);
    } else {
      var j := ListedAt(items, n);
    }
  }

  /** With no selector, a pass whose updates all succeed stamps every site in the store. */
  lemma NilSelectorStampsEverySite(objects: map<NamespacedName, Wordpress>, policy: WordpressPolicy,
                                   conversionError: Option<ApiError>, items: seq<Wordpress>, updateFails: seq<bool>)
    requires policy.spec.selector.None?
    requires ListAnswers(objects, ListOptions(None), items)
    requires forall j :: 0 <= j < |items| ==> !UpdateFails(updateFails, j)
    ensures var r := PolicyPass(objects, Success(policy), conversionError, Success(items), updateFails);
            var key := PolicyAnnotationKey(policy.metadata.name);
            forall n :: n in objects ==>
              n in r.objects && key in r.objects[n].metadata.annotations &&
              r.objects[n].metadata.annotations[key] == policy.metadata.resourceVersion
  {
    PassStampsEveryMatch(objects, policy, conversionError, items, updateFails);
  }

  /**
   * When the update at position `k` is the first to fail, the pass still
   * returns success: sites `0..k-1` are stamped, the update of site `k` was
   * issued but changed nothing, and no later site is written or updated.
   */
  lemma PassStopsAtFirstFailedUpdate(objects: map<NamespacedName, Wordpress>, policy: WordpressPolicy,
                                     conversionError: Option<ApiError>, items: seq<Wordpress>,
                                     updateFails: seq<bool>, k: nat)
    requires policy.spec.selector.None? || conversionError.None?
    requires Snapshot(objects, items)
    requires k < |items| && UpdateFails(updateFails, k)
    requires forall j :: 0 <= j < k ==> !UpdateFails(updateFails, j)
    ensures var r := PolicyPass(objects, Success(policy), conversionError, Success(items), updateFails);
            var key := PolicyAnnotationKey(policy.metadata.name);
            && r.err == None
            && r.calls == [ListCall(ListOptionsFor(policy.spec.selector))] + Updates(items[..k + 1])
            && (forall j :: 0 <= j < k ==>
                  KeyOf(items[j]) in r.objects &&
                  r.objects[KeyOf(items[j])] == Stamp(items[j], key, policy.metadata.resourceVersion))
            && (forall j :: k <= j < |items| ==> KeyOf(items[j]) in r.objects && r.objects[KeyOf(items[j])] == items[j])
  {
    var key := PolicyAnnotationKey(policy.metadata.name);
    var value := policy.metadata.resourceVersion;
    var run := StampFrom(objects, items, key, value, updateFails, 0);
    FirstFailureAt(updateFails, |items|, k);
    StampFromUpdates(objects, items, key, value, updateFails, 0);
    assert run.updates == Updates(items[..k + 1]);
    forall j | 0 <= j < k
      ensures KeyOf(items[j]) in run.objects && run.objects[KeyOf(items[j])] == Stamp(items[j], key, value)
    {
      StampFromStamped(objects, items, key, value, updateFails, 0, j);
    }
    forall j | k <= j < |items|
      ensures KeyOf(items[j]) in run.objects && run.objects[KeyOf(items[j])] == items[j]
    {
      StampFromFrame(objects, items, key, value, updateFails, 0, KeyOf(items[j]));
    }
  }

  /**
   * Whatever the store answers, a pass changes no site that was not
   * listed, adds or removes no site, and changes a listed site at most by
   * stamping it with the policy's key and version.
   */
  lemma PassOnlyStamps(objects: map<NamespacedName, Wordpress>, fetched: Result<WordpressPolicy>,
                       conversionError: Option<ApiError>, listed: Result<seq<Wordpress>>, updateFails: seq<bool>)
    requires listed.Success? ==> Snapshot(objects, listed.value)
    ensures var r := PolicyPass(objects, fetched, conversionError, listed, updateFails);
            && r.objects.Keys == objects.Keys
            && (forall n :: n in objects && (listed.Failure? || n !in Keys(listed.value)) ==>
                  r.objects[n] == objects[n])
            && (forall n :: n in objects && r.objects[n] != objects[n] ==>
                  fetched.Success? &&
                  r.objects[n] == Stamp(objects[n], PolicyAnnotationKey(fetched.value.metadata.name),
                                        fetched.value.metadata.resourceVersion))
  {
    var r := PolicyPass(objects, fetched, conversionError, listed, updateFails);
    if r.objects != objects {
      var policy := fetched.value;
      var items := listed.value;
      var key := PolicyAnnotationKey(policy.metadata.name);
      var value := policy.metadata.resourceVersion;
      var k := FirstFailure(updateFails, 0, |items|);
      forall n | n in objects || n in r.objects
        ensures (n in r.objects <==> n in objects)
        ensures n in objects && n !in Keys(items) ==> r.objects[n] == objects[n]
        ensures n in objects && r.objects[n] != objects[n] ==> r.objects[n] == Stamp(objects[n], key, value)
      {
        if j :| 0 <= j < k && KeyOf(items[j]) == n {
          StampFromStamped(objects, items, key, value, updateFails, 0, j);
          assert items[j] in items;
        } else {
          StampFromFrame(objects, items, key, value, updateFails, 0, n);
        }
      }
    }
  }

  /**
   * A policy pass never disturbs the stamp of a policy with another name:
   * its key is present afterwards exactly when it was before, with the same value.
   */
  lemma PassKeepsOtherPolicyStamps(objects: map<NamespacedName, Wordpress>, fetched: Result<WordpressPolicy>,
                                   conversionError: Option<ApiError>, listed: Result<seq<Wordpress>>,
                                   updateFails: seq<bool>, otherPolicy: string)
    requires listed.Success? ==> Snapshot(objects, listed.value)
    requires fetched.Success? ==> fetched.value.metadata.name != otherPolicy
    ensures var r := PolicyPass(objects, fetched, conversionError, listed, updateFails);
            var other := PolicyAnnotationKey(otherPolicy);
            forall n :: n in objects ==>
              n in r.objects &&
              (other in r.objects[n].metadata.annotations <==> other in objects[n].metadata.annotations) &&
              (other in objects[n].metadata.annotations ==>
                 r.objects[n].metadata.annotations[other] == objects[n].metadata.annotations[other])
  {
    PassOnlyStamps(objects, fetched, conversionError, listed, updateFails);
    if fetched.Success? {
      PolicyAnnotationKeyInjective(fetched.value.metadata.name, otherPolicy);
    }
  }

  /** A pass that lists only sites already carrying its stamp leaves the store as it is. */
  lemma PassOverStampedSitesChangesNothing(objects: map<NamespacedName, Wordpress>, policy: WordpressPolicy,
                                           conversionError: Option<ApiError>, items: seq<Wordpress>,
                                           updateFails: seq<bool>)
    requires Snapshot(objects, items)
    requires forall j :: 0 <= j < |items| ==>
      Stamp(items[j], PolicyAnnotationKey(policy.metadata.name), policy.metadata.resourceVersion) == items[j]
    ensures PolicyPass(objects, Success(policy), conversionError, Success(items), updateFails).objects == objects
  {
    var r := PolicyPass(objects, Success(policy), conversionError, Success(items), updateFails);
    PassOnlyStamps(objects, Success(policy), conversionError, Success(items), updateFails);
    forall n | n in objects ensures r.objects[n] == objects[n] {
      if n in Keys(items) {
        var j := ListedAt(items, n);
      }
    }
  }

  /**
   * Stamping is idempotent: a second pass with the same policy version,
   * listing the same selection from the store the first pass left, leaves
   * the store exactly as it is, whatever its updates do. No write is
   * skipped: when they all succeed, it still updates every listed site.
   */
  lemma PassIdempotent(objects: map<NamespacedName, Wordpress>, policy: WordpressPolicy,
                       conversionError: Option<ApiError>, items: seq<Wordpress>, updateFails: seq<bool>,
                       items': seq<Wordpress>, updateFails': seq<bool>)
    requires policy.spec.selector.None? || conversionError.None?
    requires ListAnswers(objects, ListOptionsFor(policy.spec.selector), items)
    requires forall j :: 0 <= j < |items| ==> !UpdateFails(updateFails, j)
    requires var first := PolicyPass(objects, Success(policy), conversionError, Success(items), updateFails);
             ListAnswers(first.objects, ListOptionsFor(policy.spec.selector), items')
    ensures var first := PolicyPass(objects, Success(policy), conversionError, Success(items), updateFails);
            var second := PolicyPass(first.objects, Success(policy), conversionError, Success(items'), updateFails');
            && second.objects == first.objects
            && second.err == None
            && ((forall j :: 0 <= j < |items'| ==> !UpdateFails(updateFails', j)) ==>
                  second.calls == [ListCall(ListOptionsFor(policy.spec.selector))] + Updates(items'))
  {
    var opts := ListOptionsFor(policy.spec.selector);
    var key := PolicyAnnotationKey(policy.metadata.name);
    var value := policy.metadata.resourceVersion;
    var first := PolicyPass(objects, Success(policy), conversionError, Success(items), updateFails);
    PassStampsEveryMatch(objects, policy, conversionError, items, updateFails);
    forall j | 0 <= j < |items'| ensures Stamp(items'[j], key, value) == items'[j] {
      var n := KeyOf(items'[j]);
      assert Matches(opts, first.objects[n].metadata.labels);
      StampIdempotent(objects[n], key, value);
    }
    PassOverStampedSitesChangesNothing(first.objects, policy, conversionError, items', updateFails');
    if forall j :: 0 <= j < |items'| ==> !UpdateFails(updateFails', j) {
      PassStampsEveryMatch(first.objects, policy, conversionError, items', updateFails');
    }
  }

  /** The store of Wordpress sites, as the policy pass sees it through its client. */
  class WordpressStore {
    var objects: map<NamespacedName, Wordpress>
    /** Every List and Update request received, in order. */
    var calls: seq<Call>

    constructor (objects: map<NamespacedName, Wordpress>)
      ensures this.objects == objects && calls == []
    {
      this.objects := objects;
      calls := [];
    }

    /** A List request; the store answers with `answer`. */
    method List(opts: ListOptions, answer: Result<seq<Wordpress>>) returns (r: Result<seq<Wordpress>>)
      modifies this`calls
      ensures calls == old(calls) + [ListCall(opts)]
      ensures r == answer
    {
      calls := calls + [ListCall(opts)];
      r := answer;
    }

    /** An Update of `wp`: replaces the stored copy unless the write fails. */
    method Update(wp: Wordpress, fails: bool) returns (err: Option<ApiError>)
      modifies this
      ensures calls == old(calls) + [UpdateCall(KeyOf(wp))]
      ensures objects == if fails then old(objects) else old(objects)[KeyOf(wp) := wp]
      ensures err.Some? <==> fails
    {
      calls := calls + [UpdateCall(KeyOf(wp))];
      if fails {
        err := Some(Conflict);
      } else {
        objects := objects[KeyOf(wp) := wp];
        err := None;
      }
    }
  }

  /** The policy controller's reconciler; its client is the Wordpress store. */
  class ReconcileWordpressPolicy {
    const client: WordpressStore

    constructor (client: WordpressStore)
      ensures this.client == client
    {
      this.client := client;
    }

    /** One reconcile pass for a policy; see `PolicyPass` for the meaning of the answers. */
    method Reconcile(fetched: Result<WordpressPolicy>, conversionError: Option<ApiError>,
                     listed: Result<seq<Wordpress>>, updateFails: seq<bool>) returns (err: Option<ApiError>)
      modifies client
      ensures var r := PolicyPass(old(client.objects), fetched, conversionError, listed, updateFails);
              client.objects == r.objects && client.calls == old(client.calls) + r.calls && err == r.err
    {
      if fetched.Failure? {
        if fetched.error == NotFound {
          return None;
        }
        return Some(fetched.error);
      }
      var policy := fetched.value;

      var opts := ListOptions(None);
      if policy.spec.selector.Some? {
        var selector := LabelSelectorAsSelector(policy.spec.selector.value, conversionError);
        if selector.Failure? {
          return Some(selector.error);
        }
        opts := ListOptions(Some(selector.value));
      }

      var wps := client.List(opts, listed);
      if wps.Failure? {
        return Some(wps.error);
      }

      StampEach(wps.value, PolicyAnnotationKey(policy.metadata.name), policy.metadata.resourceVersion, updateFails);
      return None;
    }

    /**
     * The loop of the pass: stamp each listed site in order and write it
     * back, stopping at the first write that fails.
     */
    method StampEach(items: seq<Wordpress>, key: string, value: string, updateFails: seq<bool>)
      modifies client
      ensures var run := StampFrom(old(client.objects), items, key, value, updateFails, 0);
              client.objects == run.objects && client.calls == old(client.calls) + run.updates
    {
      ghost var updates: seq<Call> := [];
      var i := 0;
      while i < |items|
        invariant 0 <= i <= |items|
        invariant client.calls == old(client.calls) + updates
        invariant var rest := StampFrom(client.objects, items, key, value, updateFails, i);
                  StampFrom(old(client.objects), items, key, value, updateFails, 0)
                    == StampRun(rest.objects, updates + rest.updates)
      {
        StampStep(old(client.objects), client.objects, items, key, value, updateFails, updates, i);
        var wp := Stamp(items[i], key, value);
        var err := client.Update(wp, UpdateFails(updateFails, i));
        updates := updates + [UpdateCall(KeyOf(wp))];
        if err.Some? {
          return;
        }
        i := i + 1;
      }
    }
  }
}
