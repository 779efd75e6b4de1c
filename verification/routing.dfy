/** Which machine a user's link dials and which machine serves the user (app/main.py:
    `_user_endpoint`, `_auto_node`; app/nodes.py: `user_node_id`, `local_users`), on the main panel. */
module Routing {
  import opened Wrappers
  import opened Users

  /** A node row: `address` as stored, stripped; `host` what is left of it once scheme, path and
      port are cut off; `credential` says whether there is a token or a shared secret to push with. */
  datatype Node = Node(id: int, isLocal: bool, enabled: bool, address: string, host: string, credential: bool)

  function UserNodeId(u: User): int {
    if u.nodeId.Some? then u.nodeId.value else 1
  }

  predicate Remote(n: Node) {
    !n.isLocal && n.enabled && n.address != ""
  }

  predicate HasRemote(nodes: seq<Node>) {
    exists i :: 0 <= i < |nodes| && Remote(nodes[i])
  }

  predicate LocalId(nodes: seq<Node>, id: int) {
    exists i :: 0 <= i < |nodes| && nodes[i].isLocal && nodes[i].id == id
  }

  /** `local_users`: whether this panel's own Xray serves the user. */
  predicate ServedHere(u: User, nodes: seq<Node>) {
    LocalId(nodes, UserNodeId(u)) || (UserNodeId(u) == 0 && !HasRemote(nodes))
  }

  predicate Measured(n: Node, latency: map<int, int>) {
    !n.isLocal && n.enabled && n.address != "" && n.id in latency
  }

  /** The node an "auto" user is sent to. */
  function AutoChoice(nodes: seq<Node>, latency: map<int, int>): (best: Option<Node>)
    ensures best.Some? ==> best.value in nodes && Measured(best.value, latency)
  {
    if nodes == [] then None
    else
      var n := nodes[|nodes| - 1];
      var best := AutoChoice(nodes[..|nodes| - 1], latency);
      if Measured(n, latency) && (best.None? || latency[n.id] < latency[best.value.id]) then Some(n) else best
  }

  /** `_auto_node` */
  method AutoNode(nodes: seq<Node>, latency: map<int, int>) returns (best: Option<Node>)
    ensures best == AutoChoice(nodes, latency)
  {
    best := None;
    for i := 0 to |nodes|
      invariant best == AutoChoice(nodes[..i], latency)
    {
      var n := nodes[i];
      assert nodes[..i + 1][..i] == nodes[..i];
      if n.isLocal || !n.enabled || n.address == "" || n.id !in latency {
        continue;
      }
      if best.None? || latency[n.id] < latency[best.value.id] {
        best := Some(n);
      }
    }
    assert nodes[..|nodes|] == nodes;
  }

  /** Node `k` is the fastest measured remote node, and the first of those that are equally fast. */
  predicate Fastest(nodes: seq<Node>, latency: map<int, int>, k: nat) {
    && k < |nodes| && Measured(nodes[k], latency)
    && (forall i :: 0 <= i < |nodes| && Measured(nodes[i], latency) ==> latency[nodes[k].id] <= latency[nodes[i].id])
    && (forall i :: 0 <= i < k && Measured(nodes[i], latency) ==> latency[nodes[k].id] < latency[nodes[i].id])
  }

  lemma {:induction false} AutoIsFastest(nodes: seq<Node>, latency: map<int, int>) returns (k: nat)
    ensures AutoChoice(nodes, latency).None? ==> forall i :: 0 <= i < |nodes| ==> !Measured(nodes[i], latency)
    ensures AutoChoice(nodes, latency).Some? ==>
      Fastest(nodes, latency, k) && nodes[k] == AutoChoice(nodes, latency).value
  {
    k := 0;
    if nodes != [] {
      var most := nodes[..|nodes| - 1];
      var j := AutoIsFastest(most, latency);
      assert forall i :: 0 <= i < |most| ==> most[i] == nodes[i];
      var n := nodes[|nodes| - 1];
      var best := AutoChoice(most, latency);
      k := if Measured(n, latency) && (best.None? || latency[n.id] < latency[best.value.id]) then |most| else j;
    }
  }

  /** `db.get_node` */
  function GetNode(nodes: seq<Node>, id: int): (r: Option<Node>)
    ensures r.Some? ==> r.value in nodes && r.value.id == id
    ensures r.None? ==> forall i :: 0 <= i < |nodes| ==> nodes[i].id != id
  {
    if nodes == [] then None
    else if nodes[0].id == id then Some(nodes[0])
    else GetNode(nodes[1..], id)
  }

  /** The node whose address the link carries, if any; otherwise the link dials this panel. */
  function LinkNode(u: User, nodes: seq<Node>, latency: map<int, int>): Option<Node> {
    var node := if UserNodeId(u) == 0 then AutoChoice(nodes, latency)
                else if u.nodeId.Some? then GetNode(nodes, UserNodeId(u))
                else None;
    if node.Some? && !node.value.isLocal && node.value.address != "" && node.value.host != "" then node else None
  }

  predicate Table(nodes: seq<Node>) {
    && (forall i :: 0 <= i < |nodes| ==> nodes[i].id >= 1)
    && (forall i, j :: 0 <= i < j < |nodes| ==> nodes[i].id != nodes[j].id)
  }

  /** `sync_all` and `sync_node` push the user to the node. */
  predicate PushedTo(u: User, n: Node) {
    Remote(n) && n.credential && (UserNodeId(u) == n.id || UserNodeId(u) == 0)
  }

  predicate PushedSomewhere(u: User, nodes: seq<Node>) {
    exists i :: 0 <= i < |nodes| && PushedTo(u, nodes[i])
  }

  /** The machine the link dials serves the user: this panel does, or the panel pushes the user to
      that node. */
  predicate DialsServer(u: User, nodes: seq<Node>, latency: map<int, int>) {
    match LinkNode(u, nodes, latency)
    case None => ServedHere(u, nodes)
    case Some(n) => PushedTo(u, n)
  }

  /** A row the link of an assigned user can rest on. */
  predicate GoodRow(u: User, n: Node) {
    match u.nodeId
    case None => n.id == 1 && n.isLocal
    case Some(id) =>
      n.id == id && (n.isLocal || (n.enabled && n.address != "" && n.host != "" && n.credential))
  }

  /** An "auto" user needs, as soon as there is a remote node, the fastest measured one to have a
      host and a credential. An assigned user needs the node to be this panel or to be enabled with
      an address, a host and a credential; an unassigned one needs node 1 to be this panel. */
  predicate WellRouted(u: User, nodes: seq<Node>, latency: map<int, int>) {
    if u.nodeId == Some(0) then
      (exists i :: 0 <= i < |nodes| && !nodes[i].isLocal && nodes[i].enabled && nodes[i].address != "") ==>
        exists k :: 0 <= k < |nodes| && Fastest(nodes, latency, k) && nodes[k].host != "" && nodes[k].credential
    else exists i :: 0 <= i < |nodes| && GoodRow(u, nodes[i])
  }

  lemma LocalIdOf(nodes: seq<Node>, id: int)
    requires Table(nodes)
    ensures LocalId(nodes, id) <==> GetNode(nodes, id).Some? && GetNode(nodes, id).value.isLocal
  {
    var r := GetNode(nodes, id);
    if r.Some? {
      var k :| 0 <= k < |nodes| && nodes[k] == r.value;
      if LocalId(nodes, id) {
        var i :| 0 <= i < |nodes| && nodes[i].isLocal && nodes[i].id == id;
        assert i == k;
      }
    }
  }

  lemma AutoRouting(u: User, nodes: seq<Node>, latency: map<int, int>)
    requires Table(nodes) && UserNodeId(u) == 0
    ensures DialsServer(u, nodes, latency) <==> WellRouted(u, nodes, latency)
  {
    var k := AutoIsFastest(nodes, latency);
    if AutoChoice(nodes, latency).Some? {
      assert HasRemote(nodes) by {
        assert Remote(nodes[k]);
      }
      forall j | Fastest(nodes, latency, j)
        ensures j == k
      {
      }
    }
  }

  lemma AssignedRouting(u: User, nodes: seq<Node>, latency: map<int, int>)
    requires Table(nodes) && UserNodeId(u) != 0
    ensures DialsServer(u, nodes, latency) <==> WellRouted(u, nodes, latency)
  {
    var id := UserNodeId(u);
    LocalIdOf(nodes, id);
    var r := GetNode(nodes, id);
    if r.Some? {
      var k :| 0 <= k < |nodes| && nodes[k] == r.value;
      assert forall i :: 0 <= i < |nodes| && nodes[i].id == id ==> i == k;
    }
  }

  /** The link dials a machine that serves the user exactly for the well-routed users. */
  lemma RoutingAgrees(u: User, nodes: seq<Node>, latency: map<int, int>)
    requires Table(nodes)
    ensures DialsServer(u, nodes, latency) <==> WellRouted(u, nodes, latency)
  {
    if UserNodeId(u) == 0 {
      AutoRouting(u, nodes, latency);
    } else {
      AssignedRouting(u, nodes, latency);
    }
  }

  /** A user is never both served here and pushed to a remote node. An auto user is one of the two
      exactly if no remote node keeps the panel from serving or one has a credential; an assigned
      user if the node is this panel or a remote one that can be pushed to. */
  lemma ServedOnOneSide(u: User, nodes: seq<Node>)
    requires Table(nodes)
    ensures !(ServedHere(u, nodes) && PushedSomewhere(u, nodes))
    ensures ServedHere(u, nodes) || PushedSomewhere(u, nodes) <==>
      if UserNodeId(u) == 0 then
        HasRemote(nodes) ==> exists i :: 0 <= i < |nodes| && Remote(nodes[i]) && nodes[i].credential
      else exists i :: 0 <= i < |nodes| && nodes[i].id == UserNodeId(u) &&
                       (nodes[i].isLocal || (Remote(nodes[i]) && nodes[i].credential))
  {
    var id := UserNodeId(u);
    LocalIdOf(nodes, id);
    if id == 0 {
      forall i | 0 <= i < |nodes| && Remote(nodes[i]) && nodes[i].credential
        ensures PushedTo(u, nodes[i])
      {
      }
    } else {
      forall i | 0 <= i < |nodes| && nodes[i].id == id && Remote(nodes[i]) && nodes[i].credential
        ensures PushedTo(u, nodes[i])
      {
      }
    }
  }

  /** With a remote node that has not been measured yet, an auto user's link dials the panel, and
      nobody there serves the user. */
  lemma UnmeasuredNodeMisroutes(u: User)
    requires u.nodeId == Some(0)
    ensures var nodes := [Node(1, true, true, "", "", true), Node(2, false, true, "a", "a", true)];
      Table(nodes) && LinkNode(u, nodes, map[]).None? && !ServedHere(u, nodes)
  {
    var nodes := [Node(1, true, true, "", "", true), Node(2, false, true, "a", "a", true)];
    assert Remote(nodes[1]);
  }

  /** A user assigned to a node that is switched off: the link dials the node, and nobody pushes the
      user there or serves the user anywhere else. */
  lemma DisabledNodeMisroutes(u: User, latency: map<int, int>)
    requires u.nodeId == Some(2)
    ensures var nodes := [Node(1, true, true, "", "", true), Node(2, false, false, "a", "a", true)];
      Table(nodes) && LinkNode(u, nodes, latency) == Some(nodes[1]) && !ServedHere(u, nodes) &&
      !PushedSomewhere(u, nodes)
  {
    var nodes := [Node(1, true, true, "", "", true), Node(2, false, false, "a", "a", true)];
    assert GetNode(nodes[1..], 2) == Some(nodes[1]);
  }
}
