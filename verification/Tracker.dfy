/** The connection tracker of a SOCKS5 tunnel: per-destination counters kept up to date as
    connections come and go, against counting everything again. */
module Tracker {

  datatype Conn = Conn(source: string, destination: string)

  datatype Agg = Agg(total: int, active: int)

  datatype State = State(connections: map<string, Conn>, destStats: map<string, Agg>, total: int)

  datatype Op =
    | Register(id: string, source: string, destination: string)
    | Unregister(id: string)

  function Init(): State { State(map[], map[], 0) }

  function Apply(s: State, op: Op): State {
    match op
    case Register(id, source, dest) =>
      var agg := if dest in s.destStats then s.destStats[dest] else Agg(0, 0);
      State(s.connections[id := Conn(source, dest)],
            s.destStats[dest := Agg(agg.total + 1, agg.active + 1)],
            s.total + 1)
    case Unregister(id) =>
      if id !in s.connections then s
      else
        var dest := s.connections[id].destination;
        s.(connections := s.connections - {id},
        destStats := if dest in s.destStats
        then s.destStats[dest := s.destStats[dest].(active := s.destStats[dest].active - 1)]
        else s.destStats)
  }

  function Replay(ops: seq<Op>): State {
    if ops == [] then Init() else Apply(Replay(ops[..|ops| - 1]), ops[|ops| - 1])
  }

  // ----- recomputation -----

  /** The destinations of all registrations, in order. */
  function Registered(ops: seq<Op>): seq<string> {
    if ops == [] then []
    else
      var last := ops[|ops| - 1];
      Registered(ops[..|ops| - 1]) + if last.Register? then [last.destination] else []
  }

  function LiveTo(conns: map<string, Conn>, dest: string): set<string> {
    set id | id in conns && conns[id].destination == dest
  }

  function RegisteredTo(registered: seq<string>, dest: string): set<nat> {
    set i: nat | i < |registered| && registered[i] == dest
  }

  /** The counters say what counting again would say. */
  ghost predicate Agrees(s: State, registered: seq<string>) {
    && s.total == |registered|
    && (forall id :: id in s.connections ==> s.connections[id].destination in registered)
    && (forall d :: d in s.destStats <==> d in registered)
    && (forall d :: d in s.destStats ==> CountsAgree(s, registered, d))
  }

  ghost predicate CountsAgree(s: State, registered: seq<string>, d: string)
    requires d in s.destStats
  {
    && s.destStats[d].active == |LiveTo(s.connections, d)|
    && s.destStats[d].total == |RegisteredTo(registered, d)|
  }

  lemma RegisteredMore(registered: seq<string>, x: string, d: string)
    ensures |RegisteredTo(registered + [x], d)| == |RegisteredTo(registered, d)| + if x == d then 1 else 0
  {
    var n: nat := |registered|;
    assert RegisteredTo(registered + [x], d) == RegisteredTo(registered, d) + if x == d then {n} else {};
    assert n !in RegisteredTo(registered, d);
  }

  lemma LiveMore(conns: map<string, Conn>, id: string, conn: Conn, d: string)
    ensures var after := conns[id := conn];
            LiveTo(after, d) == LiveTo(conns, d) - {id} + if conn.destination == d then {id} else {}
  {
  }

  lemma FreshIdCounts(s: State, registered: seq<string>, id: string, source: string, dest: string, d: string)
    requires Agrees(s, registered) && id !in s.connections
    requires d in Apply(s, Register(id, source, dest)).destStats
    ensures CountsAgree(Apply(s, Register(id, source, dest)), registered + [dest], d)
  {
    RegisteredMore(registered, dest, d);
    LiveMore(s.connections, id, Conn(source, dest), d);
    assert id !in LiveTo(s.connections, d);
    if d in s.destStats {
      assert CountsAgree(s, registered, d);
    } else {
      assert LiveTo(s.connections, d) == {} && RegisteredTo(registered, d) == {};
    }
  }

  lemma FreshIdAgrees(s: State, registered: seq<string>, id: string, source: string, dest: string)
    requires Agrees(s, registered) && id !in s.connections
    ensures Agrees(Apply(s, Register(id, source, dest)), registered + [dest])
  {
    forall d | d in Apply(s, Register(id, source, dest)).destStats
      ensures CountsAgree(Apply(s, Register(id, source, dest)), registered + [dest], d)
    {
      FreshIdCounts(s, registered, id, source, dest, d);
    }
  }

  lemma UsedIdDisagrees(s: State, registered: seq<string>, id: string, source: string, dest: string)
    requires Agrees(s, registered) && id in s.connections
    ensures !Agrees(Apply(s, Register(id, source, dest)), registered + [dest])
  {
    var t := Apply(s, Register(id, source, dest));
    var d := s.connections[id].destination;
    LiveMore(s.connections, id, Conn(source, dest), d);
    assert CountsAgree(s, registered, d) && id in LiveTo(s.connections, d);
    assert d in t.destStats && !CountsAgree(t, registered + [dest], d);
  }

  /** A registration keeps the counters right exactly when its id is not in use. */
  lemma RegisterAgrees(s: State, registered: seq<string>, id: string, source: string, dest: string)
    requires Agrees(s, registered)
    ensures Agrees(Apply(s, Register(id, source, dest)), registered + [dest]) <==> id !in s.connections
  {
    if id in s.connections {
      UsedIdDisagrees(s, registered, id, source, dest);
    } else {
      FreshIdAgrees(s, registered, id, source, dest);
    }
  }

  lemma UnregisterAgrees(s: State, registered: seq<string>, id: string)
    requires Agrees(s, registered)
    ensures Agrees(Apply(s, Unregister(id)), registered)
  {
    var t := Apply(s, Unregister(id));
    forall d | d in t.destStats
      ensures CountsAgree(t, registered, d)
    {
      assert LiveTo(t.connections, d) == LiveTo(s.connections, d) - {id};
    }
  }

  ghost predicate FreshStep(s: State, op: Op) { op.Register? ==> op.id !in s.connections }

  /** No registration in the history drew an id that was in use. */
  ghost predicate Fresh(ops: seq<Op>) {
    forall i :: 0 <= i < |ops| ==> FreshAt(ops, i)
  }

  ghost predicate FreshAt(ops: seq<Op>, i: int)
    requires 0 <= i < |ops|
  {
    FreshStep(Replay(ops[..i]), ops[i])
  }

  ghost predicate AgreesAfter(ops: seq<Op>) { Agrees(Replay(ops), Registered(ops)) }

  lemma LastStepAgrees(ops: seq<Op>, n: nat)
    requires |ops| == n + 1 && AgreesAfter(ops[..n])
    ensures AgreesAfter(ops) <==> FreshStep(Replay(ops[..n]), ops[n])
  {
    var s, registered := Replay(ops[..n]), Registered(ops[..n]);
    match ops[n]
    case Register(id, source, dest) => RegisterAgrees(s, registered, id, source, dest);
    case Unregister(id) =>
      UnregisterAgrees(s, registered, id);
      assert registered + [] == registered;
  }

  ghost predicate AgreesUpTo(ops: seq<Op>) { forall k :: 0 <= k <= |ops| ==> AgreesAfter(ops[..k]) }

  lemma PrefixFresh(ops: seq<Op>, n: nat)
    requires |ops| == n + 1
    ensures Fresh(ops) <==> Fresh(ops[..n]) && FreshAt(ops, n)
  {
    assert forall k :: 0 <= k < n ==> ops[..n][..k] == ops[..k];
    assert forall k :: 0 <= k < n ==> FreshAt(ops[..n], k) == FreshAt(ops, k);
  }

  lemma PrefixAgrees(ops: seq<Op>, n: nat)
    requires |ops| == n + 1
    ensures AgreesUpTo(ops) <==> AgreesUpTo(ops[..n]) && AgreesAfter(ops)
    ensures AgreesUpTo(ops[..n]) ==> AgreesAfter(ops[..n])
  {
    assert forall k :: 0 <= k <= n ==> ops[..n][..k] == ops[..k];
    assert ops[..n + 1] == ops;
  }

  /** The counters agree with recomputation all through a history, repeated closes included,
      exactly when its ids are fresh. */
  lemma {:induction false} AgreesThroughout(ops: seq<Op>)
    ensures AgreesUpTo(ops) <==> Fresh(ops)
  {
    if ops == [] {
      assert ops[..0] == [] && AgreesAfter([]);
    } else {
      var n: nat := |ops| - 1;
      PrefixFresh(ops, n);
      PrefixAgrees(ops, n);
      AgreesThroughout(ops[..n]);
      if AgreesUpTo(ops[..n]) {
        LastStepAgrees(ops, n);
      }
    }
  }

  /** Two connections under one id are counted as two, one is live, and when the last is closed one
      is still counted. */
  lemma RepeatedIdOvercounts(a: string, b: string, dest: string)
    ensures var ops := [Register("id", a, dest), Register("id", b, dest)];
            var s, t := Replay(ops), Replay(ops + [Unregister("id")]);
            && dest in s.destStats && s.destStats[dest].active == 2 && LiveTo(s.connections, dest) == {"id"}
            && dest in t.destStats && t.destStats[dest].active == 1 && LiveTo(t.connections, dest) == {}
  {
    var first := [Register("id", a, dest)];
    var ops := first + [Register("id", b, dest)];
    var all := ops + [Unregister("id")];
    assert first[..0] == [] && ops[..1] == first && all[..2] == ops;
    assert Replay(first) == Apply(Init(), first[0]);
    assert Replay(ops) == Apply(Replay(first), ops[1]);
    assert Replay(all) == Apply(Replay(ops), all[2]);
  }

  /** Which connections are live after a history: those registered and not closed since. */
  ghost predicate OpenSince(ops: seq<Op>, i: nat, id: string)
    requires i < |ops|
  {
    && ops[i].Register? && ops[i].id == id
    && forall j :: i < j < |ops| ==> ops[j].id != id
  }

  lemma {:induction false} LiveExactly(ops: seq<Op>, id: string)
    ensures id in Replay(ops).connections <==> exists i: nat :: i < |ops| && OpenSince(ops, i, id)
    ensures forall i: nat :: i < |ops| && OpenSince(ops, i, id) ==>
                               id in Replay(ops).connections
                               && Replay(ops).connections[id] == Conn(ops[i].source, ops[i].destination)
  {
    if ops != [] {
      var n: nat := |ops| - 1;
      var before := ops[..n];
      LiveExactly(before, id);
      if ops[n].id == id {
        assert OpenSince(ops, n, id) <==> ops[n].Register?;
        assert forall i: nat :: i < n ==> !OpenSince(ops, i, id);
      } else {
        assert forall i: nat :: i < n ==> (OpenSince(ops, i, id) <==> OpenSince(before, i, id));
      }
    }
  }

  // ----- the graph -----

  datatype NodeKind = ProxyNode | DestinationNode

  datatype GraphNode = GraphNode(id: string, caption: string, kind: NodeKind)

  datatype GraphEdge = GraphEdge(source: string, target: string, count: int, active: int)

  datatype GraphData = GraphData(nodes: seq<GraphNode>, edges: seq<GraphEdge>)

  function SafeChar(c: char): string {
    if c == ':' || c == '.' then "-" else if c == '[' || c == ']' then "" else [c]
  }

  function Safe(s: string): string {
    if s == "" then "" else Safe(s[..|s| - 1]) + SafeChar(s[|s| - 1])
  }

  function DestNodeID(dest: string): string { "dest-" + Safe(dest) }

  function Unbracketed(s: string): string {
    if s == "" then ""
    else Unbracketed(s[..|s| - 1]) + if s[|s| - 1] == '[' || s[|s| - 1] == ']' then "" else [s[|s| - 1]]
  }

  predicate IsDash(c: char) { c == ':' || c == '.' || c == '-' }

  predicate SameButDashes(a: string, b: string) {
    |a| == |b| && forall i :: 0 <= i < |a| ==> a[i] == b[i] || (IsDash(a[i]) && IsDash(b[i]))
  }

  lemma {:induction false} SafeIs(s: string)
    ensures var u := Unbracketed(s);
            && |Safe(s)| == |u| && (forall i :: 0 <= i < |u| ==> u[i] != '[' && u[i] != ']')
            && forall i :: 0 <= i < |u| ==> Safe(s)[i] == if IsDash(u[i]) then '-' else u[i]
  {
    if s != "" { SafeIs(s[..|s| - 1]); }
  }

  /** Two destinations share a node id exactly if, brackets aside, they differ in nothing but which
      of colon, dot and dash stands at a place. */
  lemma NodeIdsSharedExactly(a: string, b: string)
    ensures DestNodeID(a) == DestNodeID(b) <==> SameButDashes(Unbracketed(a), Unbracketed(b))
  {
    SafeIs(a);
    SafeIs(b);
    assert DestNodeID(a)[5..] == Safe(a) && DestNodeID(b)[5..] == Safe(b);
    assert Safe(a) == Safe(b) <==>
           |Safe(a)| == |Safe(b)| && forall i :: 0 <= i < |Safe(a)| ==> Safe(a)[i] == Safe(b)[i];
  }

  /** Two destinations may share a node id, which is why edges are matched to nodes by position. */
  lemma NodeIdsCollide()
    ensures DestNodeID("a.b") == DestNodeID("a-b")
  {
    assert "a.b"[..2] == "a." && "a."[..1] == "a" && "a"[..0] == "";
    assert "a-b"[..2] == "a-" && "a-"[..1] == "a";
    assert Safe("a") == "a" && Safe("a.") == "a-" && Safe("a-") == "a-";
  }

  function SumActive(edges: seq<GraphEdge>): int {
    if edges == [] then 0 else SumActive(edges[..|edges| - 1]) + edges[|edges| - 1].active
  }

  function SumCount(edges: seq<GraphEdge>): int {
    if edges == [] then 0 else SumCount(edges[..|edges| - 1]) + edges[|edges| - 1].count
  }

  /** The edge drawn to the node captioned with a destination carries that destination's counters. */
  ghost predicate EdgeFor(s: State, node: GraphNode, edge: GraphEdge) {
    && node.caption in s.destStats
    && node == GraphNode(DestNodeID(node.caption), node.caption, DestinationNode)
    && edge == GraphEdge("local", node.id, s.destStats[node.caption].total, s.destStats[node.caption].active)
  }

  ghost predicate PartialGraph(s: State, bindAddr: string, g: GraphData, drawn: set<string>) {
    && |g.nodes| == |g.edges| + 1
    && g.nodes[0] == GraphNode("local", bindAddr, ProxyNode)
    && (forall i :: 0 <= i < |g.edges| ==> EdgeFor(s, g.nodes[i + 1], g.edges[i]) && g.nodes[i + 1].caption in drawn)
    && (forall i, j :: 1 <= i < j < |g.nodes| ==> g.nodes[i].caption != g.nodes[j].caption)
    && (forall d :: d in drawn ==> exists i :: 1 <= i < |g.nodes| && g.nodes[i].caption == d)
  }

  function LiveAmong(conns: map<string, Conn>, dests: set<string>): set<string> {
    set id | id in conns && conns[id].destination in dests
  }

  function RegisteredAmong(registered: seq<string>, dests: set<string>): set<nat> {
    set i: nat | i < |registered| && registered[i] in dests
  }

  ghost predicate SumsAgree(s: State, registered: seq<string>, edges: seq<GraphEdge>, drawn: set<string>) {
    && SumActive(edges) == |LiveAmong(s.connections, drawn)|
    && SumCount(edges) == |RegisteredAmong(registered, drawn)|
  }

  lemma LiveAmongMore(conns: map<string, Conn>, drawn: set<string>, d: string)
    requires d !in drawn
    ensures |LiveAmong(conns, drawn + {d})| == |LiveAmong(conns, drawn)| + |LiveTo(conns, d)|
  {
    assert LiveAmong(conns, drawn + {d}) == LiveAmong(conns, drawn) + LiveTo(conns, d);
    assert LiveAmong(conns, drawn) !! LiveTo(conns, d);
  }

  lemma RegisteredAmongMore(registered: seq<string>, drawn: set<string>, d: string)
    requires d !in drawn
    ensures |RegisteredAmong(registered, drawn + {d})| ==
            |RegisteredAmong(registered, drawn)| + |RegisteredTo(registered, d)|
  {
    assert RegisteredAmong(registered, drawn + {d}) == RegisteredAmong(registered, drawn) + RegisteredTo(registered, d);
    assert RegisteredAmong(registered, drawn) !! RegisteredTo(registered, d);
  }

  lemma SumsMore(s: State, registered: seq<string>, edges: seq<GraphEdge>, edge: GraphEdge,
                 drawn: set<string>, d: string)
    requires d !in drawn && d in s.destStats && CountsAgree(s, registered, d)
    requires edge.active == s.destStats[d].active && edge.count == s.destStats[d].total
    requires SumsAgree(s, registered, edges, drawn)
    ensures SumsAgree(s, registered, edges + [edge], drawn + {d})
  {
    assert (edges + [edge])[..|edges|] == edges;
    LiveAmongMore(s.connections, drawn, d);
    RegisteredAmongMore(registered, drawn, d);
  }

  lemma {:induction false} AllAmong(registered: seq<string>, dests: set<string>)
    requires forall d :: d in registered ==> d in dests
    ensures |RegisteredAmong(registered, dests)| == |registered|
  {
    if registered != [] {
      var n: nat := |registered| - 1;
      AllAmong(registered[..n], dests);
      assert RegisteredAmong(registered, dests) == RegisteredAmong(registered[..n], dests) + {n};
    }
  }

  /** With every destination drawn, the edges add up to the two headline numbers. */
  lemma SumsComplete(s: State, registered: seq<string>, edges: seq<GraphEdge>)
    requires Agrees(s, registered) && SumsAgree(s, registered, edges, s.destStats.Keys)
    ensures SumActive(edges) == |s.connections| && SumCount(edges) == s.total
  {
    assert LiveAmong(s.connections, s.destStats.Keys) == s.connections.Keys;
    AllAmong(registered, s.destStats.Keys);
  }

  ghost predicate AllSumsAgree(s: State, edges: seq<GraphEdge>, drawn: set<string>) {
    forall registered: seq<string> :: Agrees(s, registered) ==> SumsAgree(s, registered, edges, drawn)
  }

  lemma AllSumsMore(s: State, edges: seq<GraphEdge>, edge: GraphEdge, drawn: set<string>, d: string)
    requires d !in drawn && d in s.destStats
    requires edge.active == s.destStats[d].active && edge.count == s.destStats[d].total
    requires AllSumsAgree(s, edges, drawn)
    ensures AllSumsAgree(s, edges + [edge], drawn + {d})
  {
    forall registered: seq<string> | Agrees(s, registered)
      ensures SumsAgree(s, registered, edges + [edge], drawn + {d})
    {
      assert CountsAgree(s, registered, d);
      SumsMore(s, registered, edges, edge, drawn, d);
    }
  }

  lemma AllSumsComplete(s: State, edges: seq<GraphEdge>)
    requires AllSumsAgree(s, edges, s.destStats.Keys)
    ensures (exists registered: seq<string> :: Agrees(s, registered)) ==>
              SumActive(edges) == |s.connections| && SumCount(edges) == s.total
  {
    if exists registered: seq<string> :: Agrees(s, registered) {
      var registered: seq<string> :| Agrees(s, registered);
      SumsComplete(s, registered, edges);
    }
  }

  lemma GraphMore(s: State, bindAddr: string, g: GraphData, drawn: set<string>, node: GraphNode, edge: GraphEdge)
    requires PartialGraph(s, bindAddr, g, drawn)
    requires EdgeFor(s, node, edge) && node.caption !in drawn
    ensures PartialGraph(s, bindAddr, GraphData(g.nodes + [node], g.edges + [edge]), drawn + {node.caption})
  {
    var nodes, edges := g.nodes + [node], g.edges + [edge];
    forall i | 0 <= i < |edges|
      ensures EdgeFor(s, nodes[i + 1], edges[i]) && nodes[i + 1].caption in drawn + {node.caption}
    {
      if i < |g.edges| {
        assert nodes[i + 1] == g.nodes[i + 1] && edges[i] == g.edges[i];
      }
    }
    forall i | 1 <= i < |g.nodes|
      ensures g.nodes[i].caption != node.caption
    {
      var k := i - 1;
      assert EdgeFor(s, g.nodes[k + 1], g.edges[k]) && g.nodes[k + 1].caption in drawn;
    }
    forall d | d in drawn + {node.caption}
      ensures exists i :: 1 <= i < |nodes| && nodes[i].caption == d
    {
      if d in drawn {
        var i :| 1 <= i < |g.nodes| && g.nodes[i].caption == d;
        assert nodes[i].caption == d;
      } else {
        assert nodes[|g.nodes|].caption == d;
      }
    }
  }

  ghost predicate GraphSoFar(s: State, bindAddr: string, nodes: seq<GraphNode>, edges: seq<GraphEdge>,
                             drawn: set<string>)
  {
    PartialGraph(s, bindAddr, GraphData(nodes, edges), drawn) && AllSumsAgree(s, edges, drawn)
  }

  lemma DrawnMore(s: State, bindAddr: string, nodes: seq<GraphNode>, edges: seq<GraphEdge>, drawn: set<string>,
                  node: GraphNode, edge: GraphEdge)
    requires GraphSoFar(s, bindAddr, nodes, edges, drawn)
    requires EdgeFor(s, node, edge) && node.caption !in drawn
    ensures GraphSoFar(s, bindAddr, nodes + [node], edges + [edge], drawn + {node.caption})
  {
    GraphMore(s, bindAddr, GraphData(nodes, edges), drawn, node, edge);
    AllSumsMore(s, edges, edge, drawn, node.caption);
  }

  datatype Snapshot = Snapshot(active: int, total: int, listed: map<string, Conn>, graph: GraphData)

  class ConnectionTracker {
    const bindAddr: string
    var connections: map<string, Conn>
    var destStats: map<string, Agg>
    var total: int

    function Contents(): State
      reads this
    {
      State(connections, destStats, total)
    }

    constructor (addr: string)
      ensures Contents() == Init() && bindAddr == addr
    {
      bindAddr := addr;
      connections, destStats, total := map[], map[], 0;
    }

    /** The caller draws `id` at random. */
    method Register(id: string, source: string, destination: string)
      modifies this
      ensures Contents() == Apply(old(Contents()), Op.Register(id, source, destination))
    {
      connections := connections[id := Conn(source, destination)];
      total := total + 1;
      if destination !in destStats {
        destStats := destStats[destination := Agg(0, 0)];
      }
      var agg := destStats[destination];
      destStats := destStats[destination := Agg(agg.total + 1, agg.active + 1)];
    }

    method Unregister(id: string)
      modifies this
      ensures Contents() == Apply(old(Contents()), Op.Unregister(id))
    {
      if id !in connections {
        return;
      }
      var conn := connections[id];
      connections := connections - {id};
      if conn.destination in destStats {
        var agg := destStats[conn.destination];
        destStats := destStats[conn.destination := agg.(active := agg.active - 1)];
      }
    }

    method BuildGraph() returns (g: GraphData)
      ensures PartialGraph(Contents(), bindAddr, g, destStats.Keys)
      ensures (exists registered: seq<string> :: Agrees(Contents(), registered)) ==>
                SumActive(g.edges) == |connections| && SumCount(g.edges) == total
    {
      var nodes, edges := [GraphNode("local", bindAddr, ProxyNode)], [];
      var todo := destStats.Keys;
      ghost var drawn: set<string> := {};
      while todo != {}
        invariant drawn !! todo && drawn + todo == destStats.Keys
        invariant GraphSoFar(Contents(), bindAddr, nodes, edges, drawn)
        decreases todo
      {
        var dest :| dest in todo;
        var agg, nodeID := destStats[dest], DestNodeID(dest);
        var node := GraphNode(nodeID, dest, DestinationNode);
        var edge := GraphEdge("local", nodeID, agg.total, agg.active);
        DrawnMore(Contents(), bindAddr, nodes, edges, drawn, node, edge);
        nodes, edges := nodes + [node], edges + [edge];
        todo, drawn := todo - {dest}, drawn + {dest};
      }
      assert drawn == destStats.Keys;
      g := GraphData(nodes, edges);
      AllSumsComplete(Contents(), g.edges);
    }

    method TakeSnapshot() returns (snap: Snapshot)
      ensures snap.listed == connections && snap.active == |connections| && snap.total == total
      ensures PartialGraph(Contents(), bindAddr, snap.graph, destStats.Keys)
      ensures (exists registered: seq<string> :: Agrees(Contents(), registered)) ==>
                SumActive(snap.graph.edges) == snap.active && SumCount(snap.graph.edges) == snap.total
    {
      var graph := BuildGraph();
      snap := Snapshot(|connections|, total, connections, graph);
    }
  }

  /** A connection handed out by `Wrap`; its hook unregisters it on the first close only. */
  class TrackedConn {
    const tracker: ConnectionTracker
    const id: string
    var hooked: bool

    constructor (t: ConnectionTracker, connID: string)
      ensures tracker == t && id == connID && hooked == (connID in t.connections)
    {
      tracker, id, hooked := t, connID, connID in t.connections;
    }

    method Close()
      modifies this, tracker
      ensures !hooked
      ensures tracker.Contents() == if old(hooked) then Apply(old(tracker.Contents()), Unregister(id))
                                    else old(tracker.Contents())
    {
      if hooked {
        tracker.Unregister(id);
        hooked := false;
      }
    }
  }
}
