/** The cluster objects behind an endpoint and the effect of single API-server calls on them. */
module Cluster {
  import opened Base
  import opened Address

  /** What a compute is told: the parts of the spec that come from the catalog. */
  datatype Spec = Spec(tenant: Id, timeline: Id, role: string, verifier: string)

  datatype Phase = PodPending | PodRunning | PodFailed

  /** `spec` is the configuration the container read when it came up. */
  datatype Pod = Pod(phase: Phase, ip: string, spec: Option<Spec>, created: Time)

  datatype ConfigMap = ConfigMap(spec: Spec, version: nat)

  /** `version` is the last resource version handed out. */
  datatype Objects = Objects(pods: map<string, Pod>, configMaps: map<string, ConfigMap>, version: nat)

  function PodOf(k: Objects, e: Id): Option<Pod> { Get(k.pods, PodName(e)) }

  function ConfigOf(k: Objects, e: Id): Option<ConfigMap> { Get(k.configMaps, ConfigMapName(e)) }

  function PutPod(k: Objects, e: Id, pod: Option<Pod>): Objects {
    k.(pods := Put(k.pods, PodName(e), pod))
  }

  function PutConfig(k: Objects, e: Id, cm: Option<ConfigMap>): Objects {
    k.(configMaps := Put(k.configMaps, ConfigMapName(e), cm), version := k.version + 1)
  }

  // ---- single calls; an object that already exists is left alone by a create

  function CreatePod(pod: Option<Pod>, now: Time): Option<Pod> {
    if pod.Some? then pod else Some(Pod(PodPending, "", None, now))
  }

  function CreateConfig(cm: Option<ConfigMap>, spec: Spec, version: nat): Option<ConfigMap> {
    if cm.Some? then cm else Some(ConfigMap(spec, version))
  }

  predicate Current(cm: Option<ConfigMap>, seen: nat) { cm.Some? && cm.value.version == seen }

  /** Update with the resource version of an earlier Get: refused when the object has changed since. */
  function UpdateConfig(cm: Option<ConfigMap>, spec: Spec, seen: nat, version: nat): Option<ConfigMap> {
    if Current(cm, seen) then Some(ConfigMap(spec, version)) else cm
  }

  /** Writing one endpoint's objects leaves every other endpoint's objects as they were. */
  lemma OtherEndpointsKeepTheirObjects(k: Objects, e: Id, pod: Option<Pod>, cm: Option<ConfigMap>)
    ensures PodOf(PutPod(k, e, pod), e) == pod && ConfigOf(PutConfig(k, e, cm), e) == cm
    ensures forall d: Id :: d != e ==> PodOf(PutPod(k, e, pod), d) == PodOf(k, d)
    ensures forall d: Id :: d != e ==> ConfigOf(PutConfig(k, e, cm), d) == ConfigOf(k, d)
    ensures forall d: Id ::
        ConfigOf(PutPod(k, e, pod), d) == ConfigOf(k, d) && PodOf(PutConfig(k, e, cm), d) == PodOf(k, d)
  {
    forall d: Id | d != e ensures PodName(d) != PodName(e) && ConfigMapName(d) != ConfigMapName(e) {
      NamesAreInjective(d, e);
    }
  }
}
