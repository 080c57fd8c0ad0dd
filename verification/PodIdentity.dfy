/** Pod names, indexes and addresses, and the MaxScale servers derived from them. */
module PodIdentity {
  import opened Optional
  import opened Text

  datatype Meta = Meta(name: string, namespace: string)

  function PodName(m: Meta, index: int): string {
    m.name + "-" + Format(index)
  }

  function ServiceFQDN(m: Meta, service: string, cluster: string): string {
    service + ['.'] + (m.namespace + ['.'] + ("svc" + ['.'] + cluster))
  }

  function PodFQDN(m: Meta, index: int, service: string, cluster: string): string {
    PodName(m, index) + ("." + ServiceFQDN(m, service, cluster))
  }

  function PodIndex(podName: string): Option<int> {
    var parts := Split(podName, '-');
    Atoi(parts[|parts| - 1])
  }

  // The index comes back exactly when it is not negative, whatever hyphens the name has; a negative one
  // comes back with its sign lost.
  lemma PodIndexOfPodName(m: Meta, i: int)
    requires Int64(i)
    ensures PodIndex(PodName(m, i)) == Some(i) <==> i >= 0
    ensures i < 0 && Int64(-i) ==> PodIndex(PodName(m, i)) == Some(-i)
  {
    if i >= 0 {
      assert PodName(m, i) == m.name + ['-'] + Digits(i);
      SplitLast(m.name, Digits(i), '-');
      AtoiOfFormat(i);
    } else {
      assert PodName(m, i) == (m.name + "-") + ['-'] + Digits(-i);
      SplitLast(m.name + "-", Digits(-i), '-');
      ValueOfDigits(-i);
      assert Digits(-i)[0] in Digits(-i);
    }
  }

  lemma FormatInjective(a: string, i: int, j: int)
    requires Int64(i) && Int64(j) && a + Format(i) == a + Format(j)
    ensures i == j
  {
    assert Format(i) == (a + Format(i))[|a|..] == (a + Format(j))[|a|..] == Format(j);
    AtoiOfFormat(i);
    AtoiOfFormat(j);
  }

  lemma SuffixCancels(x: string, y: string, b: string)
    requires x + b == y + b
    ensures x == y
  {
    assert |x| == |y|;
    assert x == (x + b)[..|x|] == (y + b)[..|y|] == y;
  }

  // A pod's name and its address identify it.
  lemma PodIdentityInjective(m: Meta, i: int, j: int, service: string, cluster: string)
    requires Int64(i) && Int64(j)
    ensures PodName(m, i) == PodName(m, j) <==> i == j
    ensures PodFQDN(m, i, service, cluster) == PodFQDN(m, j, service, cluster) <==> i == j
  {
    if PodFQDN(m, i, service, cluster) == PodFQDN(m, j, service, cluster) {
      SuffixCancels(PodName(m, i), PodName(m, j), "." + ServiceFQDN(m, service, cluster));
    }
    if PodName(m, i) == PodName(m, j) {
      FormatInjective(m.name + "-", i, j);
    }
  }

  // An address is the pod, the service, the namespace and the cluster's domain, whose own dots are kept.
  lemma AddressParts(m: Meta, i: int, service: string, cluster: string)
    requires '.' !in m.name && '.' !in m.namespace && '.' !in service
    ensures Split(PodFQDN(m, i, service, cluster), '.')
         == [m.name + "-" + Format(i), service, m.namespace, "svc"] + Split(cluster, '.')
  {
    var pod, rest := PodName(m, i), ServiceFQDN(m, service, cluster);
    NoDots(i);
    assert PodFQDN(m, i, service, cluster) == pod + ['.'] + rest;
    SplitFirst(pod, rest, '.');
    ServiceParts(m, service, cluster);
  }

  lemma NoDots(i: int)
    ensures '.' !in Format(i)
  {
    assert forall c | c in Format(i) :: c == '-' || IsDigit(c);
  }

  lemma ServiceParts(m: Meta, service: string, cluster: string)
    requires '.' !in m.namespace && '.' !in service
    ensures Split(ServiceFQDN(m, service, cluster), '.') == [service, m.namespace, "svc"] + Split(cluster, '.')
  {
    SplitTwo(m.namespace, "svc", cluster);
    SplitFirst(service, m.namespace + ['.'] + ("svc" + ['.'] + cluster), '.');
  }

  lemma SplitTwo(a: string, b: string, rest: string)
    requires '.' !in a && '.' !in b
    ensures Split(a + ['.'] + (b + ['.'] + rest), '.') == [a, b] + Split(rest, '.')
  {
    SplitFirst(b, rest, '.');
    SplitFirst(a, b + ['.'] + rest, '.');
  }

  // ---- Default MaxScale servers ----

  datatype ProxyServer = ProxyServer(name: string, address: string, port: int)

  datatype Cluster = Cluster(meta: Meta, service: string, domain: string)

  function DefaultServer(c: Cluster, i: nat, port: int): ProxyServer {
    ProxyServer(PodName(c.meta, i), PodFQDN(c.meta, i, c.service, c.domain), port)
  }

  method SetMariadbDefaults(c: Cluster, servers: seq<ProxyServer>, replicas: nat, port: int) returns (r: seq<ProxyServer>)
    ensures |r| == replicas
    ensures forall i | 0 <= i < replicas && i < |servers| :: r[i] == servers[i]
    ensures forall i | |servers| <= i < replicas :: r[i] == DefaultServer(c, i, port)
  {
    var filled := new ProxyServer[replicas](_ => ProxyServer("", "", 0));
    for i := 0 to replicas
      invariant forall k | 0 <= k < i && k < |servers| :: filled[k] == servers[k]
      invariant forall k | |servers| <= k < i :: filled[k] == DefaultServer(c, k, port)
    {
      filled[i] := if i < |servers| then servers[i] else DefaultServer(c, i, port);
    }
    r := filled[..];
  }

  // A list of servers after any number of reconciles, each with its own replica count and port.
  ghost predicate Scaled(c: Cluster, h: seq<seq<ProxyServer>>, ports: seq<int>) {
    && h != [] && h[0] == [] && |ports| == |h|
    && forall k | 0 < k < |h| :: IsNext(c, h[k - 1], ports[k], h[k])
  }

  ghost predicate IsNext(c: Cluster, servers: seq<ProxyServer>, port: int, r: seq<ProxyServer>) {
    forall i | 0 <= i < |r| :: r[i] == if i < |servers| then servers[i] else DefaultServer(c, i, port)
  }

  ghost predicate Named(c: Cluster, servers: seq<ProxyServer>) {
    forall i | 0 <= i < |servers| :: servers[i] == DefaultServer(c, i, servers[i].port)
  }

  lemma {:induction false} ScaledIsNamed(c: Cluster, h: seq<seq<ProxyServer>>, ports: seq<int>)
    requires Scaled(c, h, ports)
    ensures Named(c, h[|h| - 1])
  {
    if |h| > 1 {
      var before := h[..|h| - 1];
      ScaledIsNamed(c, before, ports[..|h| - 1]);
    }
  }

  predicate IsFirst(servers: seq<ProxyServer>, name: string, k: int) {
    0 <= k < |servers| && servers[k].name == name && forall j | 0 <= j < k :: servers[j].name != name
  }

  predicate IsAddress(c: Cluster, address: string, i: int) {
    address == PodFQDN(c.meta, i, c.service, c.domain)
  }

  // The pod whose address is that of the first server with this name, if there is one.
  ghost predicate IsPodIndex(c: Cluster, name: string, servers: seq<ProxyServer>, replicas: nat, r: Option<nat>) {
    if r.Some? then
      r.value < replicas && exists k :: IsFirst(servers, name, k) && IsAddress(c, servers[k].address, r.value)
    else
      forall k, i | IsFirst(servers, name, k) && 0 <= i < replicas :: !IsAddress(c, servers[k].address, i)
  }

  method PodIndexForServer(c: Cluster, name: string, servers: seq<ProxyServer>, replicas: nat)
    returns (r: Option<nat>)
    ensures IsPodIndex(c, name, servers, replicas, r)
  {
    var k := 0;
    while k < |servers| && servers[k].name != name
      invariant 0 <= k <= |servers| && forall j | 0 <= j < k :: servers[j].name != name
    {
      k := k + 1;
    }
    if k == |servers| {
      return None;
    }
    assert IsFirst(servers, name, k);
    for i := 0 to replicas
      invariant forall j | 0 <= j < i :: !IsAddress(c, servers[k].address, j)
    {
      if servers[k].address == PodFQDN(c.meta, i, c.service, c.domain) {
        return Some(i);
      }
    }
    return None;
  }

  // After any scaling history from an empty list, the server made for pod i maps back to i as long as
  // the cluster has that pod, and to nothing once it has not.
  lemma MapsBack(c: Cluster, h: seq<seq<ProxyServer>>, ports: seq<int>, i: nat, replicas: nat, r: Option<nat>)
    requires Scaled(c, h, ports) && i < |h[|h| - 1]| <= 0x7fff_ffff && replicas <= 0x7fff_ffff
    requires IsPodIndex(c, PodName(c.meta, i), h[|h| - 1], replicas, r)
    ensures r == if i < replicas then Some(i) else None
  {
    ScaledIsNamed(c, h, ports);
    var servers := h[|h| - 1];
    forall j | 0 <= j < |servers| ensures (servers[j].name == PodName(c.meta, i)) <==> j == i {
      PodIdentityInjective(c.meta, i, j, c.service, c.domain);
    }
    assert IsFirst(servers, PodName(c.meta, i), i);
    assert forall k | IsFirst(servers, PodName(c.meta, i), k) :: k == i;
    forall j | 0 <= j < replicas ensures IsAddress(c, servers[i].address, j) <==> j == i {
      PodIdentityInjective(c.meta, i, j, c.service, c.domain);
    }
    if r.Some? {
      var k :| IsFirst(servers, PodName(c.meta, i), k) && IsAddress(c, servers[k].address, r.value);
      assert k == i;
    } else if i < replicas {
      assert IsAddress(c, servers[i].address, i);
    }
  }
}
