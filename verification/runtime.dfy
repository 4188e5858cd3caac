/** The Kubernetes runtime: Start, Stop and Status over named objects, each call able to fail. */
module Runtime {
  import opened Base
  import opened Address
  import opened Cluster

  /** Outcome of one API call: done, failed without effect, or done with the reply lost. */
  datatype Fate = Done | Failed | Unheard

  /** The configmap is created, or read and updated, and the caller knows. */
  predicate Stored(cm: Option<ConfigMap>, create: Fate, get: Fate, update: Fate) {
    create == Done && (cm.Some? ==> get == Done && update == Done)
  }

  /** It is created or updated, whether or not the caller knows. */
  predicate Writes(cm: Option<ConfigMap>, create: Fate, get: Fate, update: Fate) {
    if cm.None? then create != Failed else create == Done && get == Done && update != Failed
  }

  class K8sRuntime {
    var objects: Objects

    constructor () ensures objects == Objects(map[], map[], 0) { objects := Objects(map[], map[], 0); }

    /** Every other endpoint's objects are as in `before`. */
    ghost predicate OthersKept(before: Objects, e: Id) reads this {
      forall d: Id :: d != e ==> PodOf(objects, d) == PodOf(before, d) && ConfigOf(objects, d) == ConfigOf(before, d)
    }

    method WritePod(e: Id, pod: Option<Pod>)
      modifies this
      ensures PodOf(objects, e) == pod && ConfigOf(objects, e) == ConfigOf(old(objects), e)
          && OthersKept(old(objects), e)
    {
      OtherEndpointsKeepTheirObjects(objects, e, pod, None);
      objects := PutPod(objects, e, pod);
    }

    method WriteConfig(e: Id, cm: Option<ConfigMap>)
      modifies this
      ensures ConfigOf(objects, e) == cm && PodOf(objects, e) == PodOf(old(objects), e) && OthersKept(old(objects), e)
    {
      OtherEndpointsKeepTheirObjects(objects, e, None, cm);
      objects := PutConfig(objects, e, cm);
    }

    /**
     * Start: afterwards the configmap carries this spec and the pod exists, an existing pod
     * being kept. A failed start creates a pod only over its configmap, and touches nobody else.
     */
    method Start(e: Id, spec: Spec, now: Time, create: Fate, get: Fate, update: Fate, makePod: Fate) returns (ok: bool)
      modifies this
      ensures OthersKept(old(objects), e)
      ensures ok ==>
        && ConfigOf(objects, e).Some? && ConfigOf(objects, e).value.spec == spec
        && PodOf(objects, e) == Some(if PodOf(old(objects), e).Some? then PodOf(old(objects), e).value
              else Pod(PodPending, "", None, now))
      ensures !ok && PodOf(objects, e) != PodOf(old(objects), e) ==>
        PodOf(old(objects), e).None? && ConfigOf(objects, e).Some? && ConfigOf(objects, e).value.spec == spec
      // it succeeds exactly when the calls it makes do
      ensures ok <==> Stored(ConfigOf(old(objects), e), create, get, update) && makePod == Done
      ensures PodOf(objects, e) != PodOf(old(objects), e) ==>
        Stored(ConfigOf(old(objects), e), create, get, update) && makePod != Failed
      // the configmap is written unless a call before or the write itself has failed
      ensures if Writes(ConfigOf(old(objects), e), create, get, update) then
          ConfigOf(objects, e).Some? && ConfigOf(objects, e).value.spec == spec
        else ConfigOf(objects, e) == ConfigOf(old(objects), e)
    {
      var cm := ConfigOf(objects, e);
      if create != Failed && cm.None? {
        WriteConfig(e, CreateConfig(cm, spec, objects.version + 1));
      }
      if create != Done {
        return false;
      }
      if cm.Some? {
        if get != Done {
          return false;
        }
        if update != Failed {
          WriteConfig(e, UpdateConfig(cm, spec, cm.value.version, objects.version + 1));
        }
        if update != Done {
          return false;
        }
      }
      if makePod != Failed {
        WritePod(e, CreatePod(PodOf(objects, e), now));
      }
      ok := makePod == Done;
    }

    /**
     * Stop: success means both objects are gone. It deletes the pod first and the configmap
     * only after that, so whatever fails, a pod is never left without its configmap.
     */
    method Stop(e: Id, delPod: Fate, delConfig: Fate) returns (ok: bool)
      modifies this
      ensures OthersKept(old(objects), e)
      ensures ok <==> delPod == Done && delConfig == Done
      ensures ok ==> PodOf(objects, e).None? && ConfigOf(objects, e).None?
      ensures PodOf(objects, e) == if delPod == Failed then PodOf(old(objects), e) else None
      ensures ConfigOf(objects, e) == if delPod == Done && delConfig != Failed then None else ConfigOf(old(objects), e)
    {
      if delPod != Failed {
        WritePod(e, None);
      }
      if delPod != Done {
        return false;
      }
      if delConfig != Failed {
        WriteConfig(e, None);
      }
      ok := delConfig == Done;
    }

    method Status(e: Id, up: bool) returns (r: Result<Option<Pod>>)
      ensures r == if up then Ok(PodOf(objects, e)) else Err(Unavailable)
    {
      r := if up then Ok(PodOf(objects, e)) else Err(Unavailable);
    }
  }
}
