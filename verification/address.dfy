/**
 * Names of the cluster objects of an endpoint and the textual compute addresses:
 * "ip:55433" as the waker stores it, and the two places that take it apart again.
 */
module Address {
  import opened Base

  const COMPUTE_PORT := "55433"

  function PodName(endpoint: Id): string { "compute-" + endpoint }

  function ConfigMapName(endpoint: Id): string { "compute-" + endpoint + "-config" }

  /** Two endpoints never share a pod name or a configmap name. */
  lemma NamesAreInjective(a: Id, b: Id)
    ensures PodName(a) == PodName(b) <==> a == b
    ensures ConfigMapName(a) == ConfigMapName(b) <==> a == b
  {
    assert PodName(a)[8..] == a && PodName(b)[8..] == b;
    assert ConfigMapName(a)[8..|ConfigMapName(a)| - 7] == a;
    assert ConfigMapName(b)[8..|ConfigMapName(b)| - 7] == b;
  }

  /** The address the waker stores and returns for a pod. */
  function ComputeAddr(ip: string): string { ip + ":" + COMPUTE_PORT }

  predicate HasPort(a: string) { |a| >= 6 && a[|a| - 6..] == ":55433" }

  /** Its port is 55433. */
  lemma PortIs55433(ip: string)
    ensures ComputeAddr(ip) == ip + ":55433" && HasPort(ComputeAddr(ip))
  {
    assert ip + (":" + "55433") == ip + ":" + "55433";
    assert ":" + "55433" == ":55433";
  }

  function LastColon(s: string): (i: int)
    ensures -1 <= i < |s|
    ensures i >= 0 ==> s[i] == ':'
    ensures forall k :: i < k < |s| ==> s[k] != ':'
  {
    if s == "" then -1
    else if s[|s| - 1] == ':' then |s| - 1
    else LastColon(s[..|s| - 1])
  }

  /** The host part of a stored address: everything before the last colon. */
  function IpOf(addr: string): string {
    var i := LastColon(addr);
    if i >= 0 then addr[..i] else addr
  }

  /** The suspender recovers the pod IP from a stored address, whatever the IP looks like. */
  lemma IpOfStoredAddress(ip: string)
    ensures IpOf(ComputeAddr(ip)) == ip
  {
    var a := ComputeAddr(ip);
    var i := LastColon(a);
    assert a[|ip|] == ':';
    assert a[|ip| + 1..] == COMPUTE_PORT;
    assert forall k :: |ip| < k < |a| ==> a[k] == COMPUTE_PORT[k - |ip| - 1] && a[k] != ':';
    assert i == |ip|;
    assert a[..i] == ip;
  }

  /** The test by which a waker decides that a stored address still names the pod. */
  predicate NamesPod(addr: string, podIp: string) {
    podIp + ":" <= addr
  }

  /**
   * What the prefix test decides, for every pair of strings: the IPs are equal, or the
   * stored IP continues the current one after a colon.
   */
  lemma NamesPodExactly(stored: string, current: string)
    ensures NamesPod(ComputeAddr(stored), current) <==> stored == current || current + ":" <= stored
  {
    var a, p := ComputeAddr(stored), current + ":";
    assert p[|current|] == ':';
    if p <= a {
      assert a[|current|] == ':';
      if |current| > |stored| {
        assert false;
      } else if |current| == |stored| {
        assert stored == a[..|stored|] == p[..|current|] == current;
      } else {
        assert p == a[..|p|] == stored[..|p|];
      }
    }
    if stored == current {
      assert a == p + COMPUTE_PORT;
    }
  }

  /** For IPs without a colon (IPv4) the prefix test is equality of the IPs. */
  lemma NamesPodIffSameIp(stored: string, current: string)
    requires ':' !in stored
    ensures NamesPod(ComputeAddr(stored), current) <==> stored == current
  {
    NamesPodExactly(stored, current);
    assert ':' in current + ":" by { assert (current + ":")[|current|] == ':'; }
    assert forall p: string :: p <= stored && ':' in p ==> ':' in stored;
  }

  /** With IPv6 the test also accepts a different pod. */
  lemma PrefixTestAcceptsAnotherIp()
    ensures "fd00::1" != "fd00::1:2" && NamesPod(ComputeAddr("fd00::1:2"), "fd00::1")
  {
    NamesPodExactly("fd00::1:2", "fd00::1");
    assert "fd00::1" + ":" == "fd00::1:2"[..8];
  }
}
