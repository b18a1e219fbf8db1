/** Dialling through nested SOCKS5 proxies, as a sequence of contacts: one TCP connection, then
    CONNECT requests (RFC 1928, section 4), each sent to the proxy reached by the contact before. */
module ProxyDial {
  import opened Wrappers
  import opened HostPort

  datatype DialConfig = DialConfig(kind: string, host: string, port: int)

  function Addr(c: DialConfig): string { JoinHostPort(c.host, Itoa(c.port)) }

  datatype Dialer = Direct | Socks5(addr: string, forward: Dialer)

  datatype Contact = Tcp(addr: string) | Connect(addr: string)

  /** Whether a contact succeeds, given those made before it. */
  type Network = (seq<Contact>, Contact) -> bool

  datatype Dialled = Dialled(contacts: seq<Contact>, ok: bool)

  function Attempt(net: Network, done: seq<Contact>, next: Contact): Dialled {
    Dialled(done + [next], net(done, next))
  }

  /** A SOCKS5 dialer reaches its proxy through `forward`, then asks it for the address. */
  function Dial(d: Dialer, addr: string, net: Network): Dialled {
    match d
    case Direct => Attempt(net, [], Tcp(addr))
    case Socks5(proxyAddr, forward) =>
      var reached := Dial(forward, proxyAddr, net);
      if reached.ok then Attempt(net, reached.contacts, Connect(addr)) else reached
  }

  /** The configured route: the first proxy by TCP, then each next one, then the target. */
  function Route(addrs: seq<string>, target: string): seq<Contact> {
    seq(|addrs| + 1, i requires 0 <= i <= |addrs| =>
      var a := if i < |addrs| then addrs[i] else target;
      if i == 0 then Tcp(a) else Connect(a))
  }

  /** Making the contacts of a route in order, up to the first that fails. */
  function Walk(route: seq<Contact>, net: Network): Dialled {
    if route == [] then Dialled([], true)
    else
      var n := |route| - 1;
      var before := Walk(route[..n], net);
      if before.ok then Attempt(net, before.contacts, route[n]) else before
  }

  /** Contact number `i` of a route succeeds, those before it having been made. */
  ghost predicate Works(route: seq<Contact>, net: Network, i: int)
    requires 0 <= i < |route|
  {
    net(route[..i], route[i])
  }

  ghost predicate AllWork(route: seq<Contact>, net: Network, n: int)
    requires 0 <= n <= |route|
  {
    forall i :: 0 <= i < n ==> Works(route, net, i)
  }

  lemma WorksBefore(route: seq<Contact>, net: Network, n: nat)
    requires n <= |route|
    ensures forall i :: 0 <= i < n ==> Works(route[..n], net, i) == Works(route, net, i)
  {
    forall i | 0 <= i < n
      ensures Works(route[..n], net, i) == Works(route, net, i)
    {
      assert route[..n][..i] == route[..i];
    }
  }

  /** All contacts if all work, and otherwise those up to the first that does not. */
  ghost predicate WalkedAsFarAsPossible(route: seq<Contact>, net: Network, w: Dialled) {
    if w.ok then w.contacts == route && AllWork(route, net, |route|)
    else
      && 1 <= |w.contacts| <= |route|
      && var k := |w.contacts| - 1;
      w.contacts == route[..k + 1] && !Works(route, net, k) && AllWork(route, net, k)
  }

  lemma WalkOn(route: seq<Contact>, net: Network, n: nat, before: Dialled)
    requires |route| == n + 1 && before.ok && WalkedAsFarAsPossible(route[..n], net, before)
    ensures WalkedAsFarAsPossible(route, net, Attempt(net, before.contacts, route[n]))
  {
    WorksBefore(route, net, n);
    assert AllWork(route, net, n);
    assert route[..n] + [route[n]] == route && route[..n + 1] == route;
  }

  lemma WalkStopped(route: seq<Contact>, net: Network, n: nat, before: Dialled)
    requires |route| == n + 1 && !before.ok && WalkedAsFarAsPossible(route[..n], net, before)
    ensures WalkedAsFarAsPossible(route, net, before)
  {
    WorksBefore(route, net, n);
    var k := |before.contacts| - 1;
    assert route[..n][..k + 1] == route[..k + 1];
    assert AllWork(route, net, k);
  }

  lemma {:induction false} WalkIs(route: seq<Contact>, net: Network)
    ensures WalkedAsFarAsPossible(route, net, Walk(route, net))
  {
    if route != [] {
      var n := |route| - 1;
      WalkIs(route[..n], net);
      var before := Walk(route[..n], net);
      if before.ok {
        WalkOn(route, net, n, before);
      } else {
        WalkStopped(route, net, n, before);
      }
    }
  }

  function Nest(addrs: seq<string>): Dialer {
    if addrs == [] then Direct else Socks5(addrs[|addrs| - 1], Nest(addrs[..|addrs| - 1]))
  }

  /** The nested dialer walks the route: first hop first, target last. */
  lemma {:induction false} NestWalksRoute(addrs: seq<string>, target: string, net: Network)
    ensures Dial(Nest(addrs), target, net) == Walk(Route(addrs, target), net)
    decreases |addrs|
  {
    var route := Route(addrs, target);
    if addrs == [] {
      assert route == [Tcp(target)] && route[..0] == [];
      assert Walk(route[..0], net) == Dialled([], true);
    } else {
      var n := |addrs| - 1;
      NestWalksRoute(addrs[..n], addrs[n], net);
      assert route[..n + 1] == Route(addrs[..n], addrs[n]);
      assert route[n + 1] == Connect(target);
    }
  }

  predicate Supported(kind: string) { kind == "" || kind == "socks5" || kind == "dynamic" }

  function Addrs(hops: seq<DialConfig>): seq<string> {
    seq(|hops|, i requires 0 <= i < |hops| => Addr(hops[i]))
  }

  datatype DialResult = Dialling(dialled: Dialled) | UnsupportedType(hop: nat)

  /** The route of all hops, or the first hop of an unsupported type and nothing dialled. */
  ghost predicate DialsRoute(hops: seq<DialConfig>, target: string, net: Network, r: DialResult) {
    match r
    case Dialling(dialled) =>
      && SupportedUpTo(hops, |hops|)
      && dialled == Walk(Route(Addrs(hops), target), net)
    case UnsupportedType(hop) =>
      1 <= hop <= |hops| && !Supported(hops[hop - 1].kind) && SupportedUpTo(hops, hop - 1)
  }

  /** Any dialling contacts the first proxy, or the target if there is none, by TCP, and each later
      one through the one before; the target comes last. */
  lemma RouteIs(addrs: seq<string>, target: string)
    ensures var route := Route(addrs, target);
            && |route| == |addrs| + 1 && route[0].Tcp? && (forall i :: 1 <= i < |route| ==> route[i].Connect?)
            && (forall i :: 0 <= i < |addrs| ==> route[i].addr == addrs[i]) && route[|addrs|].addr == target
  {
  }

  method DialTCP(cfg: Option<DialConfig>, target: string, net: Network) returns (r: DialResult)
    ensures DialsRoute(if cfg.Some? then [cfg.value] else [], target, net, r)
    ensures r.UnsupportedType? <==> cfg.Some? && cfg.value.kind !in {"", "socks5", "dynamic"}
  {
    if cfg.None? {
      NestWalksRoute([], target, net);
      assert Addrs([]) == [];
      return Dialling(Dial(Direct, target, net));
    }
    var c := cfg.value;
    if c.kind == "" || c.kind == "socks5" || c.kind == "dynamic" {
      NestWalksRoute([Addr(c)], target, net);
      assert Addrs([c]) == [Addr(c)] && [Addr(c)][..0] == [];
      return Dialling(Dial(Dialer.Socks5(Addr(c), Direct), target, net));
    }
    return UnsupportedType(1);
  }

  lemma NestMore(hops: seq<DialConfig>, i: nat)
    requires i < |hops|
    ensures Nest(Addrs(hops)[..i + 1]) == Dialer.Socks5(Addr(hops[i]), Nest(Addrs(hops)[..i]))
    ensures Nest(Addrs(hops)[..0]) == Direct
  {
    assert Addrs(hops)[..i + 1][..i] == Addrs(hops)[..i];
  }

  lemma NestDone(hops: seq<DialConfig>, target: string, net: Network)
    ensures Dial(Nest(Addrs(hops)[..|hops|]), target, net) == Walk(Route(Addrs(hops), target), net)
  {
    assert Addrs(hops)[..|hops|] == Addrs(hops);
    NestWalksRoute(Addrs(hops), target, net);
  }

  ghost predicate SupportedUpTo(hops: seq<DialConfig>, n: int)
    requires 0 <= n <= |hops|
  {
    forall i :: 0 <= i < n ==> Supported(hops[i].kind)
  }

  method DialTCPChain(hops: seq<DialConfig>, target: string, net: Network) returns (r: DialResult)
    ensures DialsRoute(hops, target, net, r)
    ensures r.Dialling? <==> forall i :: 0 <= i < |hops| ==> hops[i].kind in {"", "socks5", "dynamic"}
  {
    if |hops| == 0 {
      r := DialTCP(None, target, net);
      return;
    }
    var forward := Direct;
    NestMore(hops, 0);
    for i := 0 to |hops|
      invariant forward == Nest(Addrs(hops)[..i]) && SupportedUpTo(hops, i)
    {
      var hop := hops[i];
      if hop.kind == "" || hop.kind == "socks5" || hop.kind == "dynamic" {
        NestMore(hops, i);
        forward := Dialer.Socks5(Addr(hop), forward);
      } else {
        return UnsupportedType(i + 1);
      }
    }
    NestDone(hops, target, net);
    r := Dialling(Dial(forward, target, net));
  }

  /** What a connection is configured to dial through. */
  datatype Setting = NoProxy | OneProxy(cfg: DialConfig) | ChainOf(hops: seq<DialConfig>)

  function SettingHops(s: Setting): seq<DialConfig> {
    match s
    case NoProxy => []
    case OneProxy(cfg) => [cfg]
    case ChainOf(hops) => hops
  }

  /** `dialSSH` up to the handshake: all three ways dial the same kind of route. */
  method DialSSH(setting: Setting, target: string, net: Network) returns (r: DialResult)
    ensures DialsRoute(SettingHops(setting), target, net, r)
  {
    if setting.ChainOf? && |setting.hops| > 0 {
      r := DialTCPChain(setting.hops, target, net);
    } else if setting.OneProxy? {
      r := DialTCP(Some(setting.cfg), target, net);
    } else {
      r := DialTCP(None, target, net);
    }
  }
}
