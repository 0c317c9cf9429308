/**
 * The API types of the `wordpress.presslabs.org/v1alpha1` group that the two
 * reconcile passes read: the WordpressPolicy resource with its annotation-key
 * format, and the parts of the Wordpress site resource the passes use.
 */
module V1alpha1 {
  import opened Common

  /** The fixed namespace under which a policy stamps its version on a site. */
  const WordpressPolicyAnnotationPrefix: string := "policy.wordpress.presslabs.org/"

  /** Go's `int32`. */
  newtype Int32 = x: int | -0x8000_0000 <= x < 0x8000_0000

  /** The key of an object in the store (`types.NamespacedName`). */
  datatype NamespacedName = NamespacedName(namespace: string, name: string)

  /** The object metadata both resources carry (`metav1.ObjectMeta`, reduced). */
  datatype ObjectMeta = ObjectMeta(
    namespace: string,
    name: string,
    labels: map<string, string>,
    annotations: map<string, string>,
    resourceVersion: string)

  /** `metav1.LabelSelector`, reduced to its equality requirements (matchLabels). */
  datatype LabelSelector = LabelSelector(matchLabels: map<string, string>)

  /** The template a policy enforces; its runtime spec has no behaviour in either pass. */
  datatype WordpressTemplateSpec = WordpressTemplateSpec(metadata: ObjectMeta)

  /**
   * The desired state of a WordpressPolicy. An absent selector means the
   * policy applies to every Wordpress resource; policies are documented to
   * apply in reverse priority order.
   */
  datatype WordpressPolicySpec = WordpressPolicySpec(
    selector: Option<LabelSelector>,
    priority: Int32,
    template: WordpressTemplateSpec)

  datatype WordpressPolicy = WordpressPolicy(metadata: ObjectMeta, spec: WordpressPolicySpec)

  /** A persistent-volume-claim request; its contents are read only by the PVC syncers. */
  datatype PersistentVolumeClaimSpec = PersistentVolumeClaimSpec(storageClassName: Option<string>)

  /** The code volume of a site; only whether it is backed by a claim matters here. */
  datatype CodeVolumeSpec = CodeVolumeSpec(persistentVolumeClaim: Option<PersistentVolumeClaimSpec>)

  /** The media volume of a site; only whether it is backed by a claim matters here. */
  datatype MediaVolumeSpec = MediaVolumeSpec(persistentVolumeClaim: Option<PersistentVolumeClaimSpec>)

  /** The parts of a site's spec that decide which syncers run. */
  datatype WordpressSpec = WordpressSpec(
    codeVolumeSpec: Option<CodeVolumeSpec>,
    mediaVolumeSpec: Option<MediaVolumeSpec>)

  /** A Wordpress site resource. */
  datatype Wordpress = Wordpress(metadata: ObjectMeta, spec: WordpressSpec)

  /** The zero value `&Wordpress{}`: no name, no labels, no annotations, no volumes. */
  const EmptyWordpress: Wordpress :=
    Wordpress(ObjectMeta("", "", map[], map[], ""), WordpressSpec(None, None))

  function KeyOf(wp: Wordpress): NamespacedName {
    NamespacedName(wp.metadata.namespace, wp.metadata.name)
  }

  /** The annotation key under which the policy named `policyName` stamps its version. */
  function PolicyAnnotationKey(policyName: string): (key: string)
    ensures |key| == |WordpressPolicyAnnotationPrefix| + |policyName|
    ensures key[..|WordpressPolicyAnnotationPrefix|] == WordpressPolicyAnnotationPrefix
    ensures key[|WordpressPolicyAnnotationPrefix|..] == policyName
  {
    WordpressPolicyAnnotationPrefix + policyName
  }

  /** The policy name an annotation key belongs to, if it carries the policy prefix. */
  function PolicyNameOf(key: string): (name: Option<string>)
    ensures name.Some? <==>
      |WordpressPolicyAnnotationPrefix| <= |key| &&
      key[..|WordpressPolicyAnnotationPrefix|] == WordpressPolicyAnnotationPrefix
    ensures name.Some? ==> name.value == key[|WordpressPolicyAnnotationPrefix|..]
  {
    var n := |WordpressPolicyAnnotationPrefix|;
    if n <= |key| && key[..n] == WordpressPolicyAnnotationPrefix then Some(key[n..]) else None
  }

  /** Stripping the prefix from a policy key gives back the policy name. */
  lemma PolicyNameOfAnnotationKey(policyName: string)
    ensures PolicyNameOf(PolicyAnnotationKey(policyName)) == Some(policyName)
  {
  }

  /** Every prefixed key is the annotation key of exactly the name it carries. */
  lemma AnnotationKeyOfPolicyName(key: string, policyName: string)
    requires PolicyNameOf(key) == Some(policyName)
    ensures PolicyAnnotationKey(policyName) == key
  {
    var n := |WordpressPolicyAnnotationPrefix|;
    assert key == key[..n] + key[n..];
  }

  /** Distinct policies never share an annotation key. */
  lemma PolicyAnnotationKeyInjective(a: string, b: string)
    ensures PolicyAnnotationKey(a) == PolicyAnnotationKey(b) <==> a == b
  {
    if PolicyAnnotationKey(a) == PolicyAnnotationKey(b) {
      PolicyNameOfAnnotationKey(a);
      PolicyNameOfAnnotationKey(b);
    }
  }
}
