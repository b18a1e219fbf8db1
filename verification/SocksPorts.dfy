/** The port suggested for a new SOCKS5 tunnel. */
module SocksPorts {

  datatype Tunnel = Tunnel(kind: string, localHost: string, localPort: int)

  const LOOPBACK := "127.0.0.1"

  predicate Competes(t: Tunnel, host: string) {
    && (t.kind == "socks5" || t.kind == "dynamic")
    && (if t.localHost == "" then LOOPBACK else t.localHost) == host
  }

  /** Only SOCKS tunnels compete, on the named host, or on no host when loopback is meant. */
  lemma CompetesExactly(t: Tunnel, host: string)
    ensures Competes(t, host) <==>
            && t.kind in {"socks5", "dynamic"}
            && ((t.localHost == host && host != "") || (t.localHost == "" && host == "127.0.0.1"))
  {
  }

  function Used(tunnels: seq<Tunnel>, host: string): set<int> {
    set i | 0 <= i < |tunnels| && Competes(tunnels[i], host) :: tunnels[i].localPort
  }

  /** Some tunnel on the host uses the port. */
  predicate Taken(tunnels: seq<Tunnel>, host: string, port: int) {
    exists i :: 0 <= i < |tunnels| && Competes(tunnels[i], host) && tunnels[i].localPort == port
  }

  lemma UsedAreTaken(tunnels: seq<Tunnel>, host: string)
    ensures forall q :: q in Used(tunnels, host) <==> Taken(tunnels, host, q)
  {
  }

  lemma UsedMore(tunnels: seq<Tunnel>, host: string, n: nat)
    requires |tunnels| == n + 1
    ensures Used(tunnels, host) <= Used(tunnels[..n], host) + {tunnels[n].localPort}
  {
    forall q | q in Used(tunnels, host)
      ensures q in Used(tunnels[..n], host) || q == tunnels[n].localPort
    {
      var i :| 0 <= i < |tunnels| && Competes(tunnels[i], host) && tunnels[i].localPort == q;
      if i < n {
        assert tunnels[..n][i] == tunnels[i];
      }
    }
  }

  lemma SmallerSet(a: set<int>, b: set<int>)
    requires a <= b
    ensures |a| <= |b|
  {
    assert b == a + (b - a);
  }

  lemma {:induction false} UsedAtMost(tunnels: seq<Tunnel>, host: string)
    ensures |Used(tunnels, host)| <= |tunnels|
  {
    if tunnels != [] {
      var n := |tunnels| - 1;
      UsedAtMost(tunnels[..n], host);
      UsedMore(tunnels, host, n);
      SmallerSet(Used(tunnels, host), Used(tunnels[..n], host) + {tunnels[n].localPort});
    }
  }

  /** The search ends because every round meets a different used port. */
  method FirstFree(used: set<int>) returns (port: int)
    ensures 1080 <= port <= 1080 + |used| && port !in used
    ensures forall q :: 1080 <= q < port ==> q in used
  {
    port := 1080;
    ghost var seen: set<int>, ahead := {}, used;
    while port in used
      invariant 1080 <= port
      invariant seen !! ahead && seen + ahead == used && |seen| == port - 1080
      invariant forall q :: q in seen <==> 1080 <= q < port
      decreases ahead
    {
      seen, ahead := seen + {port}, ahead - {port};
      port := port + 1;
    }
    assert |used| == |seen| + |ahead|;
  }

  /** The least port from 1080 on that no tunnel on the host uses; at most as many ports are passed
      over as there are tunnels. */
  method NextSocksPort(tunnels: seq<Tunnel>, host: string) returns (port: int)
    ensures 1080 <= port <= 1080 + |tunnels|
    ensures !Taken(tunnels, host, port)
    ensures forall q :: 1080 <= q < port ==> Taken(tunnels, host, q)
    ensures port <= 1080 + |Used(tunnels, host)|
  {
    UsedAtMost(tunnels, host);
    UsedAreTaken(tunnels, host);
    port := FirstFree(Used(tunnels, host));
  }
}
