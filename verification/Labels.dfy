/**
 The labels of generated pod templates (jobs.go, deployments.go, kfcommon.go, raycluster.go and daskcluster.go
 under internal/helpers/managers) and the instance selector that has to find those pods.
 */
module Labels {
  import opened Prelude

  const INSTANCE_LABEL := "app.kubernetes.io/instance"
  const NAME_LABEL := "app.kubernetes.io/name"

  datatype Template = JobPod | ServicePod | KubeflowReplica | RayHead | RayWorker | DaskReplica

  function Kept(labels: map<string, string>, skip: Option<string>): map<string, string> {
    map k | k in labels && skip != Some(k) :: labels[k]
  }

  /** The loops all generators share: copy one map, then another over it, leaving out one key if asked. */
  method MergeLabels(first: map<string, string>, second: map<string, string>, skip: Option<string>)
    returns (l: map<string, string>)
    ensures l == Kept(first, skip) + Kept(second, skip)
  {
    l := map[];
    l := CopyOver(l, first, skip);
    l := CopyOver(l, second, skip);
  }

  method CopyOver(l: map<string, string>, labels: map<string, string>, skip: Option<string>)
    returns (r: map<string, string>)
    ensures r == l + Kept(labels, skip)
  {
    r := l;
    var left := labels.Keys;
    while left != {}
      invariant left <= labels.Keys
      invariant forall k :: k in r <==> k in l || (k in labels.Keys - left && skip != Some(k))
      invariant forall k :: k in r ==> r[k] == if k in labels.Keys - left && skip != Some(k) then labels[k] else l[k]
      decreases |left|
    {
      var k :| k in left;
      if skip != Some(k) {
        r := r[k := labels[k]];
      }
      left := left - {k};
    }
    assert r == l + Kept(labels, skip);
  }

  /** The instance the operation looks its pods up by; a missing label reads as the empty string. */
  function InstanceOf(labels: map<string, string>): string {
    if INSTANCE_LABEL in labels then labels[INSTANCE_LABEL] else ""
  }

  /** The instance selector matches the pod; it never matches a pod without the label. */
  predicate Selects(instance: string, pod: map<string, string>) {
    INSTANCE_LABEL in pod && pod[INSTANCE_LABEL] == instance
  }

  /** Templates that carry the replica's own labels. */
  predicate TakesOwn(template: Template) { template.KubeflowReplica? || template.RayHead? || template.DaskReplica? }

  /**
   The labels of a generated pod, from those of the replica's own template and those of the operation. A labelled
   operation finds every pod it generates, except Dask ones exactly when their own template says otherwise; an
   operation without the label finds only pods whose own template carries it empty.
   */
  method PodLabels(template: Template, own: map<string, string>, labels: map<string, string>)
    returns (l: map<string, string>)
    ensures INSTANCE_LABEL in labels ==>
              (Selects(InstanceOf(labels), l) <==>
                 (template.DaskReplica? && INSTANCE_LABEL in own ==> own[INSTANCE_LABEL] == labels[INSTANCE_LABEL]))
    ensures INSTANCE_LABEL !in labels ==> (Selects(InstanceOf(labels), l) <==> TakesOwn(template) && Selects("", own))
    ensures forall k :: k in labels && !(k == NAME_LABEL && (template.RayHead? || template.RayWorker?)) ==>
              k in l && l[k] == if template.DaskReplica? && k in own then own[k] else labels[k]
    ensures NAME_LABEL in l ==> !template.RayHead? && !template.RayWorker?
  {
    NamesDiffer();
    match template
    case JobPod | ServicePod => l := MergeLabels(map[], labels, None);
    case KubeflowReplica => l := MergeLabels(own, labels, None);
    case RayHead => l := MergeLabels(own, labels, Some(NAME_LABEL));
    case RayWorker => l := MergeLabels(map[], labels, Some(NAME_LABEL));
    case DaskReplica => l := MergeLabels(labels, own, None);
  }

  lemma NamesDiffer()
    ensures INSTANCE_LABEL != NAME_LABEL
  {
    assert |INSTANCE_LABEL| == 26 && |NAME_LABEL| == 22;
  }
}
