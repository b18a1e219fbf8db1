/** From a stored connection to the proxies it is dialled through: validation when it is saved,
    resolution against the running tunnels when it connects. */
module ProxyConfig {
  import opened Wrappers
  import opened HostPort
  import opened ProxyDial

  datatype Hop = Hop(kind: string, tunnelId: string, host: string, port: int)

  datatype TunnelRecord = TunnelRecord(connectionId: string, kind: string)

  /** Where a running tunnel was told to listen, and the port it listens on: the one it was told,
      or, for port 0, the one the system chose. */
  datatype Listener = Listener(host: string, port: int, listened: int)

  type Bound = l: Listener | l.listened > 0 && (l.port != 0 ==> l.listened == l.port)
    witness Listener("127.0.0.1", 1080, 1080)

  datatype World = World(chains: map<string, seq<Hop>>, tunnels: map<string, TunnelRecord>, running: map<string, Bound>)

  datatype Fault =
    | TunnelNotFound
    | OwnTunnel
    | WrongTunnelType
    | NotRunning
    | BadAddress
    | BadPort
    | UnsupportedHop

  datatype Result<+T> = Ok(value: T) | Err(fault: Fault)

  predicate SocksType(kind: string) { kind == "socks5" || kind == "dynamic" }

  /** A tunnel as a proxy for a connection: the address it was told to listen on is printed by the
      tunnel manager and read back here. */
  function ResolveTunnel(w: World, connId: string, tunnelId: string): Result<DialConfig> {
    if tunnelId !in w.tunnels then Err(TunnelNotFound)
    else if w.tunnels[tunnelId].connectionId == connId then Err(OwnTunnel)
    else if !SocksType(w.tunnels[tunnelId].kind) then Err(WrongTunnelType)
    else if tunnelId !in w.running then Err(NotRunning)
    else
      var split := SplitHostPort(BindAddr(w.running[tunnelId].host, w.running[tunnelId].port));
      if split.None? then Err(BadAddress)
      else
        var port := Atoi(split.value.1);
        if port.None? then Err(BadPort) else Ok(DialConfig("socks5", split.value.0, port.value))
  }

  predicate TunnelUsable(w: World, connId: string, tunnelId: string) {
    && tunnelId in w.tunnels && w.tunnels[tunnelId].connectionId != connId
    && w.tunnels[tunnelId].kind in {"socks5", "dynamic"}
    && tunnelId in w.running && ReparsedHost(w.running[tunnelId].host).Some?
  }

  function ListensOn(b: Bound): string { BindAddr(b.host, b.listened) }

  predicate KeepsAddress(b: Bound) { (Plain(b.host) || ':' in b.host) && b.port != 0 }

  /** The rejoined address always ends in the configured port. */
  lemma RejoinedPort(host: string, port: int)
    ensures exists h :: JoinHostPort(host, Itoa(port)) == BindAddr(h, port)
  {
    var h := if ':' in host then "[" + host + "]" else host;
    assert "[" + host + "]:" == "[" + host + "]" + ":";
    assert JoinHostPort(host, Itoa(port)) == BindAddr(h, port);
  }

  /** What the resolver dials for a tunnel is where it listens, exactly if the printed host
      survives being read and the port was not left to the system. */
  lemma DialledIsListened(b: Bound)
    requires ReparsedHost(b.host).Some?
    ensures JoinHostPort(ReparsedHost(b.host).value, Itoa(b.port)) == ListensOn(b) <==> KeepsAddress(b)
  {
    var h := ReparsedHost(b.host).value;
    JoinOfSplit(b.host, b.port);
    RejoinedPort(h, b.port);
    var x :| JoinHostPort(h, Itoa(b.port)) == BindAddr(x, b.port);
    if BindAddr(x, b.port) == ListensOn(b) {
      PrintedOnce(x, b.port, b.host, b.listened);
    }
  }

  /** Reading the printed address back fails for the odd host only, never on the port, and gives
      the address the tunnel listens on exactly for plain hosts and bracketed ones with a colon,
      on a port that was configured. */
  lemma TunnelResolvesExactly(w: World, connId: string, tunnelId: string)
    ensures var r := ResolveTunnel(w, connId, tunnelId);
            && (r.Ok? <==> TunnelUsable(w, connId, tunnelId))
            && r != Err(BadPort)
            && (r == Err(TunnelNotFound) <==> tunnelId !in w.tunnels)
            && (r == Err(OwnTunnel) <==> tunnelId in w.tunnels && w.tunnels[tunnelId].connectionId == connId)
            && (r == Err(WrongTunnelType) ==> w.tunnels[tunnelId].kind !in {"socks5", "dynamic"})
            && (r == Err(NotRunning) ==> tunnelId !in w.running)
            && (r.Ok? ==>
                  var b := w.running[tunnelId];
                  && r.value == DialConfig("socks5", ReparsedHost(b.host).value, b.port)
                  && (Addr(r.value) == ListensOn(b) <==> KeepsAddress(b)))
  {
    if tunnelId in w.running {
      var b := w.running[tunnelId];
      SplitBindAddr(b.host, b.port);
      AtoiItoa(b.port);
      if ReparsedHost(b.host).Some? {
        DialledIsListened(b);
      }
    }
  }

  /** A running tunnel of another connection, as the resolver sees it. */
  function OneTunnel(b: Bound): World {
    World(map[], map["t" := TunnelRecord("a", "dynamic")], map["t" := b])
  }

  lemma OneTunnelResolves(b: Bound)
    requires ReparsedHost(b.host).Some?
    ensures var r := ResolveTunnel(OneTunnel(b), "c", "t");
            && r == Ok(DialConfig("socks5", ReparsedHost(b.host).value, b.port))
            && (Addr(r.value) == ListensOn(b) <==> KeepsAddress(b))
  {
    TunnelResolvesExactly(OneTunnel(b), "c", "t");
  }

  /** On every plain host: a tunnel with port 0 listens on a port of the system's choice, and port 0
      is dialled. */
  lemma PortZeroIsDialled(host: string, listened: int)
    requires Plain(host) && listened > 0
    ensures var b: Bound := Listener(host, 0, listened);
            var r := ResolveTunnel(OneTunnel(b), "c", "t");
            r == Ok(DialConfig("socks5", host, 0)) && Addr(r.value) != ListensOn(b)
  {
    OneTunnelResolves(Listener(host, 0, listened));
  }

  /** Brackets around a host without a colon are lost. */
  lemma BracketsAreLost(port: int)
    requires port > 0
    ensures var b: Bound := Listener("[a]", port, port);
            var r := ResolveTunnel(OneTunnel(b), "c", "t");
            r == Ok(DialConfig("socks5", "a", port)) && Addr(r.value) != ListensOn(b)
  {
    assert Bracketed("[a]") && "[a]"[1..2] == "a";
    OneTunnelResolves(Listener("[a]", port, port));
  }

  function ResolveHop(w: World, connId: string, hop: Hop): Result<DialConfig> {
    if hop.kind == "tunnel" then ResolveTunnel(w, connId, hop.tunnelId)
    else if hop.kind == "socks5" then Ok(DialConfig("socks5", hop.host, hop.port))
    else Err(UnsupportedHop)
  }

  datatype ChainResult = Resolved(hops: seq<DialConfig>) | ChainNotFound | HopRefused(hop: nat, fault: Fault)

  /** Every hop in its place, or the first hop that does not resolve. */
  ghost predicate ChainResolution(w: World, connId: string, hops: seq<Hop>, r: ChainResult) {
    match r
    case Resolved(out) =>
      |out| == |hops| && forall i :: 0 <= i < |hops| ==> ResolveHop(w, connId, hops[i]) == Ok(out[i])
    case ChainNotFound => false
    case HopRefused(n, fault) =>
      && 1 <= n <= |hops| && ResolveHop(w, connId, hops[n - 1]) == Err(fault)
      && forall i :: 0 <= i < n - 1 ==> ResolveHop(w, connId, hops[i]).Ok?
  }

  method ResolveProxyChain(w: World, chainId: string, connId: string) returns (r: ChainResult)
    ensures r == ChainNotFound <==> chainId !in w.chains
    ensures chainId in w.chains ==> ChainResolution(w, connId, w.chains[chainId], r)
  {
    if chainId !in w.chains {
      return ChainNotFound;
    }
    var hops := w.chains[chainId];
    var out := [];
    for i := 0 to |hops|
      invariant |out| == i
      invariant forall j :: 0 <= j < i ==> ResolveHop(w, connId, hops[j]) == Ok(out[j])
    {
      var hop := hops[i];
      if hop.kind == "tunnel" {
        var resolved := ResolveTunnel(w, connId, hop.tunnelId);
        if resolved.Err? {
          return HopRefused(i + 1, resolved.fault);
        }
        out := out + [resolved.value];
      } else if hop.kind == "socks5" {
        out := out + [DialConfig("socks5", hop.host, hop.port)];
      } else {
        return HopRefused(i + 1, UnsupportedHop);
      }
    }
    return Resolved(out);
  }

  // ----- a resolved chain and the route it dials -----

  /** The address a stored hop stands for: a tunnel for the one it listens on. */
  function StoredAddr(w: World, hop: Hop): string {
    if hop.kind == "tunnel" && hop.tunnelId in w.running then
      ListensOn(w.running[hop.tunnelId])
    else JoinHostPort(hop.host, Itoa(hop.port))
  }

  function StoredAddrs(w: World, hops: seq<Hop>): seq<string> {
    seq(|hops|, i requires 0 <= i < |hops| => StoredAddr(w, hops[i]))
  }

  predicate HopKeepsAddress(w: World, hop: Hop) {
    hop.kind == "tunnel" && hop.tunnelId in w.running ==> KeepsAddress(w.running[hop.tunnelId])
  }

  ghost predicate AllHopsKeep(w: World, hops: seq<Hop>) {
    forall i :: 0 <= i < |hops| ==> HopKeepsAddress(w, hops[i])
  }

  /** A hop resolves only if it is a usable tunnel, or a SOCKS5 proxy, and that as it is stored. */
  lemma HopResolvesExactly(w: World, connId: string, hop: Hop)
    ensures var r := ResolveHop(w, connId, hop);
            && (r.Ok? <==> hop.kind == "socks5" || (hop.kind == "tunnel" && TunnelUsable(w, connId, hop.tunnelId)))
            && (r == Err(UnsupportedHop) <==> hop.kind != "socks5" && hop.kind != "tunnel")
            && (hop.kind == "socks5" ==> r == Ok(DialConfig("socks5", hop.host, hop.port)))
  {
    TunnelResolvesExactly(w, connId, hop.tunnelId);
  }

  lemma HopResolved(w: World, connId: string, hop: Hop)
    requires ResolveHop(w, connId, hop).Ok?
    ensures var c := ResolveHop(w, connId, hop).value;
            && Supported(c.kind)
            && (Addr(c) == StoredAddr(w, hop) <==> HopKeepsAddress(w, hop))
    ensures hop.kind == "tunnel" ==> TunnelUsable(w, connId, hop.tunnelId)
  {
    if hop.kind == "tunnel" {
      TunnelResolvesExactly(w, connId, hop.tunnelId);
    }
  }

  /** A resolved chain has one SOCKS5 address per stored hop, in the stored order, and no hop runs
      over the connection itself; dialling it contacts the stored addresses first to last and then
      the target, exactly when every tunnel's host survives printing and reading and its port was
      configured. */
  lemma ChainDialsStoredRoute(w: World, connId: string, hops: seq<Hop>, out: seq<DialConfig>,
                              target: string, net: Network, r: DialResult)
    requires ChainResolution(w, connId, hops, Resolved(out))
    requires DialsRoute(out, target, net, r)
    ensures forall i :: 0 <= i < |hops| && hops[i].kind == "tunnel" ==>
                          w.tunnels[hops[i].tunnelId].connectionId != connId
    ensures forall i :: 0 <= i < |hops| ==> hops[i].kind == "tunnel" || hops[i].kind == "socks5"
    ensures Addrs(out) == StoredAddrs(w, hops) <==> AllHopsKeep(w, hops)
    ensures r.Dialling? && r.dialled == Walk(Route(Addrs(out), target), net)
    ensures AllHopsKeep(w, hops) ==> r.dialled == Walk(Route(StoredAddrs(w, hops), target), net)
  {
    var a, b := Addrs(out), StoredAddrs(w, hops);
    forall i | 0 <= i < |hops|
      ensures Supported(out[i].kind)
      ensures a[i] == b[i] <==> HopKeepsAddress(w, hops[i])
      ensures hops[i].kind == "tunnel" || hops[i].kind == "socks5"
      ensures hops[i].kind == "tunnel" ==> TunnelUsable(w, connId, hops[i].tunnelId)
    {
      HopResolved(w, connId, hops[i]);
    }
    assert a == b <==> forall i :: 0 <= i < |hops| ==> a[i] == b[i];
  }

  // ----- validation -----

  datatype HopProblem = TooFewHops | TunnelIdRequired(hop: nat) | HostAndPortRequired(hop: nat) | UnknownType(hop: nat)

  predicate WellFormedHop(hop: Hop) {
    || (hop.kind == "tunnel" && hop.tunnelId != "")
    || (hop.kind == "socks5" && hop.host != "" && hop.port > 0)
  }

  ghost predicate HopProblemHolds(hop: Hop, p: HopProblem) {
    match p
    case TooFewHops => false
    case TunnelIdRequired(_) => hop.kind == "tunnel" && hop.tunnelId == ""
    case HostAndPortRequired(_) => hop.kind == "socks5" && (hop.host == "" || hop.port <= 0)
    case UnknownType(_) => hop.kind != "tunnel" && hop.kind != "socks5"
  }

  ghost predicate WellFormed(hops: seq<Hop>) {
    |hops| >= 2 && forall i :: 0 <= i < |hops| ==> WellFormedHop(hops[i])
  }

  method ValidateProxyChainHops(hops: seq<Hop>) returns (problem: Option<HopProblem>)
    ensures problem.None? <==> WellFormed(hops)
    ensures problem.Some? && problem.value != TooFewHops ==>
              var n := problem.value.hop;
              && 1 <= n <= |hops| && HopProblemHolds(hops[n - 1], problem.value)
              && forall i :: 0 <= i < n - 1 ==> WellFormedHop(hops[i])
    ensures problem == Some(TooFewHops) <==> |hops| < 2
  {
    if |hops| < 2 {
      return Some(TooFewHops);
    }
    for i := 0 to |hops|
      invariant forall j :: 0 <= j < i ==> WellFormedHop(hops[j])
    {
      var hop := hops[i];
      if hop.kind == "tunnel" {
        if hop.tunnelId == "" {
          return Some(TunnelIdRequired(i + 1));
        }
      } else if hop.kind == "socks5" {
        if hop.host == "" || hop.port <= 0 {
          return Some(HostAndPortRequired(i + 1));
        }
      } else {
        return Some(UnknownType(i + 1));
      }
    }
    return None;
  }

  /** The proxy fields of a connection; an absent id and an empty one count the same. */
  datatype Connection = Connection(
    id: string,
    proxyChainId: Option<string>,
    proxyTunnelId: Option<string>,
    proxyKind: string,
    proxyHost: string,
    proxyPort: int)

  predicate IsSet(id: Option<string>) { id.Some? && id.value != "" }

  predicate ManualSet(c: Connection) { c.proxyHost != "" || c.proxyPort > 0 }

  predicate ManualComplete(c: Connection) { c.proxyHost != "" && c.proxyPort > 0 }

  /** The chain has a hop over one of the connection's own tunnels. */
  ghost predicate OverItself(w: World, connId: string, hops: seq<Hop>) {
    exists i :: 0 <= i < |hops| && OwnHop(w, connId, hops[i])
  }

  predicate OwnHop(w: World, connId: string, hop: Hop) {
    && hop.kind == "tunnel" && hop.tunnelId != "" && hop.tunnelId in w.tunnels
    && w.tunnels[hop.tunnelId].connectionId == connId
  }

  /** What may be saved: at most one way of proxying, and that one complete. */
  ghost predicate Acceptable(w: World, c: Connection) {
    && !(IsSet(c.proxyChainId) && IsSet(c.proxyTunnelId))
    && !(IsSet(c.proxyChainId) && ManualSet(c))
    && !(IsSet(c.proxyTunnelId) && ManualSet(c))
    && (IsSet(c.proxyChainId) ==>
          && c.proxyChainId.value in w.chains
          && WellFormed(w.chains[c.proxyChainId.value])
          && (c.id != "" ==> !OverItself(w, c.id, w.chains[c.proxyChainId.value])))
    && (IsSet(c.proxyTunnelId) ==>
          && c.proxyTunnelId.value in w.tunnels
          && w.tunnels[c.proxyTunnelId.value].connectionId != c.id
          && w.tunnels[c.proxyTunnelId.value].kind in {"socks5", "dynamic"})
    && (ManualSet(c) ==> ManualComplete(c) && c.proxyKind in {"", "socks5", "dynamic"})
  }

  datatype Problem =
    | ChainAndTunnel
    | ChainAndManual
    | TunnelAndManual
    | NoSuchChain
    | BadHops(problem: HopProblem)
    | OwnTunnelInChain
    | BadTunnel(fault: Fault)
    | ManualIncomplete
    | ManualUnsupported

  /** What is wrong with a connection that is refused. */
  ghost predicate ProblemHolds(w: World, c: Connection, p: Problem) {
    match p
    case ChainAndTunnel => IsSet(c.proxyChainId) && IsSet(c.proxyTunnelId)
    case ChainAndManual => IsSet(c.proxyChainId) && ManualSet(c)
    case TunnelAndManual => IsSet(c.proxyTunnelId) && ManualSet(c)
    case NoSuchChain => IsSet(c.proxyChainId) && c.proxyChainId.value !in w.chains
    case BadHops(_) =>
      && IsSet(c.proxyChainId) && c.proxyChainId.value in w.chains
      && !WellFormed(w.chains[c.proxyChainId.value])
    case OwnTunnelInChain =>
      && c.id != "" && IsSet(c.proxyChainId) && c.proxyChainId.value in w.chains
      && OverItself(w, c.id, w.chains[c.proxyChainId.value])
    case BadTunnel(fault) =>
      && IsSet(c.proxyTunnelId) && ResolveTunnel(w, c.id, c.proxyTunnelId.value) == Err(fault)
      && fault in {TunnelNotFound, OwnTunnel, WrongTunnelType}
    case ManualIncomplete => ManualSet(c) && !ManualComplete(c)
    case ManualUnsupported => ManualComplete(c) && !Supported(c.proxyKind)
  }

  method ValidateProxyConfig(w: World, c: Connection) returns (problem: Option<Problem>)
    ensures problem.None? <==> Acceptable(w, c)
    ensures problem.Some? ==> ProblemHolds(w, c, problem.value)
  {
    if c.proxyChainId.Some? && c.proxyChainId.value != "" {
      if c.proxyTunnelId.Some? && c.proxyTunnelId.value != "" {
        return Some(ChainAndTunnel);
      }
      if c.proxyHost != "" || c.proxyPort > 0 {
        return Some(ChainAndManual);
      }
      if c.proxyChainId.value !in w.chains {
        return Some(NoSuchChain);
      }
      var hops := w.chains[c.proxyChainId.value];
      var bad := ValidateProxyChainHops(hops);
      if bad.Some? {
        return Some(BadHops(bad.value));
      }
      if c.id != "" {
        for i := 0 to |hops|
          invariant forall j :: 0 <= j < i ==> !OwnHop(w, c.id, hops[j])
        {
          if hops[i].kind == "tunnel" && hops[i].tunnelId != "" {
            if hops[i].tunnelId in w.tunnels && w.tunnels[hops[i].tunnelId].connectionId == c.id {
              return Some(OwnTunnelInChain);
            }
          }
        }
      }
      return None;
    }
    if c.proxyTunnelId.Some? && c.proxyTunnelId.value != "" {
      if c.proxyHost != "" || c.proxyPort > 0 {
        return Some(TunnelAndManual);
      }
      var id := c.proxyTunnelId.value;
      if id !in w.tunnels {
        return Some(BadTunnel(TunnelNotFound));
      }
      if w.tunnels[id].connectionId == c.id {
        return Some(BadTunnel(OwnTunnel));
      }
      if !SocksType(w.tunnels[id].kind) {
        return Some(BadTunnel(WrongTunnelType));
      }
      return None;
    }
    if c.proxyHost != "" || c.proxyPort > 0 {
      if c.proxyHost == "" || c.proxyPort <= 0 {
        return Some(ManualIncomplete);
      }
      var kind := if c.proxyKind == "" then "socks5" else c.proxyKind;
      if kind != "socks5" && kind != "dynamic" {
        return Some(ManualUnsupported);
      }
    }
    return None;
  }

  // ----- resolution -----

  datatype Resolution = Settled(setting: Setting) | ChainFailed(why: ChainResult) | TunnelFailed(fault: Fault)

  /** A chain wins over a tunnel, a tunnel over a manual proxy, and that only if complete. */
  ghost predicate Resolves(w: World, c: Connection, r: Resolution) {
    if IsSet(c.proxyChainId) then
      var id := c.proxyChainId.value;
      match r
      case Settled(setting) =>
        setting.ChainOf? && id in w.chains && ChainResolution(w, c.id, w.chains[id], Resolved(setting.hops))
      case ChainFailed(why) =>
        if id in w.chains then !why.Resolved? && ChainResolution(w, c.id, w.chains[id], why)
        else why == ChainNotFound
      case TunnelFailed(_) => false
    else if IsSet(c.proxyTunnelId) then
      match ResolveTunnel(w, c.id, c.proxyTunnelId.value)
      case Ok(cfg) => r == Settled(OneProxy(cfg))
      case Err(fault) => r == TunnelFailed(fault)
    else if ManualComplete(c) then
      r == Settled(OneProxy(DialConfig(if c.proxyKind == "" then "socks5" else c.proxyKind, c.proxyHost, c.proxyPort)))
    else r == Settled(NoProxy)
  }

  method ResolveProxyConfig(w: World, c: Connection) returns (r: Resolution)
    ensures Resolves(w, c, r)
  {
    if c.proxyChainId.Some? && c.proxyChainId.value != "" {
      var chain := ResolveProxyChain(w, c.proxyChainId.value, c.id);
      if chain.Resolved? {
        return Settled(ChainOf(chain.hops));
      }
      return ChainFailed(chain);
    }
    if c.proxyTunnelId.Some? && c.proxyTunnelId.value != "" {
      var resolved := ResolveTunnel(w, c.id, c.proxyTunnelId.value);
      if resolved.Ok? {
        return Settled(OneProxy(resolved.value));
      }
      return TunnelFailed(resolved.fault);
    }
    if c.proxyHost != "" && c.proxyPort > 0 {
      var kind := if c.proxyKind == "" then "socks5" else c.proxyKind;
      return Settled(OneProxy(DialConfig(kind, c.proxyHost, c.proxyPort)));
    }
    return Settled(NoProxy);
  }

  /** The proxies an acceptable connection is configured with, whichever way. */
  function ConfiguredAddrs(w: World, c: Connection): seq<string> {
    if IsSet(c.proxyChainId) && c.proxyChainId.value in w.chains then StoredAddrs(w, w.chains[c.proxyChainId.value])
    else if IsSet(c.proxyTunnelId) && c.proxyTunnelId.value in w.running then
      [ListensOn(w.running[c.proxyTunnelId.value])]
    else if ManualSet(c) then [JoinHostPort(c.proxyHost, Itoa(c.proxyPort))]
    else []
  }

  /** The tunnels the connection is configured with keep their addresses when printed and read, and
      listen on the ports they were configured with. */
  ghost predicate UsedKeepAddress(w: World, c: Connection) {
    && (IsSet(c.proxyChainId) && c.proxyChainId.value in w.chains ==> AllHopsKeep(w, w.chains[c.proxyChainId.value]))
    && (IsSet(c.proxyTunnelId) && c.proxyTunnelId.value in w.running ==>
          KeepsAddress(w.running[c.proxyTunnelId.value]))
  }

  /** For a connection that was accepted, resolution can only fail on the state of its tunnels,
      never on its own configuration. */
  lemma AcceptedFailsOnTunnelsOnly(w: World, c: Connection, r: Resolution)
    requires Acceptable(w, c) && c.id != "" && Resolves(w, c, r)
    ensures r.TunnelFailed? ==> r.fault == NotRunning || r.fault == BadAddress
    ensures r.ChainFailed? ==>
              && r.why.HopRefused?
              && r.why.fault in {TunnelNotFound, WrongTunnelType, NotRunning, BadAddress}
  {
    if r.TunnelFailed? {
      TunnelResolvesExactly(w, c.id, c.proxyTunnelId.value);
    }
    if r.ChainFailed? {
      var hops := w.chains[c.proxyChainId.value];
      var hop := hops[r.why.hop - 1];
      assert WellFormedHop(hop) && !OwnHop(w, c.id, hop);
      TunnelResolvesExactly(w, c.id, hop.tunnelId);
    }
  }

  /** And if it resolves, what is dialled is the configured route, exactly when the tunnels it
      uses keep their addresses; never a direct connection in its place and never a hop of an
      unsupported type. */
  lemma AcceptedDialsConfigured(w: World, c: Connection, setting: Setting, target: string, net: Network, r: DialResult)
    requires Acceptable(w, c) && Resolves(w, c, Settled(setting))
    requires DialsRoute(SettingHops(setting), target, net, r)
    ensures r == Dialling(Walk(Route(Addrs(SettingHops(setting)), target), net))
    ensures Addrs(SettingHops(setting)) == ConfiguredAddrs(w, c) <==> UsedKeepAddress(w, c)
    ensures UsedKeepAddress(w, c) ==> r == Dialling(Walk(Route(ConfiguredAddrs(w, c), target), net))
    ensures SettingHops(setting) == [] <==> !IsSet(c.proxyChainId) && !IsSet(c.proxyTunnelId) && !ManualSet(c)
  {
    var addrs := Addrs(SettingHops(setting));
    if IsSet(c.proxyChainId) {
      ChainDialsStoredRoute(w, c.id, w.chains[c.proxyChainId.value], setting.hops, target, net, r);
    } else if IsSet(c.proxyTunnelId) {
      TunnelResolvesExactly(w, c.id, c.proxyTunnelId.value);
      assert addrs == [Addr(setting.cfg)];
      assert Supported(SettingHops(setting)[0].kind);
    } else if ManualSet(c) {
      assert addrs == ConfiguredAddrs(w, c);
      assert Supported(SettingHops(setting)[0].kind);
    } else {
      assert addrs == ConfiguredAddrs(w, c);
    }
  }

  /** A proxy with a host and no port is refused when it is saved; once stored, it is skipped. */
  lemma HalfSetIsSkipped(w: World, id: string)
    ensures var c := Connection(id, None, None, "socks5", "proxy", 0);
            !Acceptable(w, c) && forall r :: Resolves(w, c, r) <==> r == Settled(NoProxy)
  {
  }

  /** Without validation a proxy may be skipped silently: exactly when a manual proxy is half set,
      or a stored chain is empty. */
  lemma DialsDirectExactly(w: World, c: Connection, setting: Setting)
    requires Resolves(w, c, Settled(setting))
    ensures SettingHops(setting) == [] <==>
            if IsSet(c.proxyChainId) then w.chains[c.proxyChainId.value] == []
            else !IsSet(c.proxyTunnelId) && !ManualComplete(c)
  {
  }
}
