/** Pushing user lists to nodes and skipping what has not changed (app/nodes.py: `sync_all`,
    `sync_node`, `_payload_hash`; app/main.py: `api_sync_node_now`). One node is followed through any
    interleaving of edits, pushes, deliveries, losses and replies. The hash is a parameter. */
module NodeSync {
  import opened Wrappers
  import opened Reconcile

  type List = seq<Item>
  type Hash = List -> string

  ghost predicate CollisionFree(hash: Hash) {
    forall a, b :: hash(a) == hash(b) ==> a == b
  }

  // ---------------------------------------------------------------- the loop over the nodes

  datatype NodeRow = NodeRow(id: int, name: string, isLocal: bool, enabled: bool, credential: bool)

  predicate Eligible(n: NodeRow) {
    !n.isLocal && n.enabled && n.credential
  }

  /** The node is among those the loop deals with. */
  predicate Contacted(nodes: seq<NodeRow>, id: int) {
    exists i :: 0 <= i < |nodes| && Eligible(nodes[i]) && nodes[i].id == id
  }

  lemma ContactedNext(nodes: seq<NodeRow>, i: nat)
    requires i < |nodes|
    ensures forall id :: Contacted(nodes[..i + 1], id) <==>
      Contacted(nodes[..i], id) || (Eligible(nodes[i]) && nodes[i].id == id)
  {
    hide Eligible;
    var a, b := nodes[..i], nodes[..i + 1];
    assert forall j :: 0 <= j < i ==> a[j] == b[j];
    assert b[i] == nodes[i];
    forall id | Contacted(a, id)
      ensures Contacted(b, id)
    {
      var j :| 0 <= j < |a| && Eligible(a[j]) && a[j].id == id;
      assert b[j] == a[j];
    }
    forall id | Contacted(b, id)
      ensures Contacted(a, id) || (Eligible(nodes[i]) && nodes[i].id == id)
    {
      var j :| 0 <= j < |b| && Eligible(b[j]) && b[j].id == id;
      if j < i {
        assert a[j] == b[j];
      }
    }
  }

  /** The main panel's `node_sync_hash:<id>` metadata. */
  class HashStore {
    var stored: map<int, string>

    constructor ()
      ensures stored == map[]
    {
      stored := map[];
    }

    /** `sync_all`. `lists` gives each node's sorted users, `reached` says which pushes are answered
        with 200; `pushed` are the nodes that were contacted. */
    method SyncAll(nodes: seq<NodeRow>, lists: int -> List, hash: Hash, reached: int -> bool)
      returns (pushed: set<int>)
      modifies this
      ensures forall id :: id in pushed <==>
        && (exists i :: 0 <= i < |nodes| && nodes[i].id == id &&
                        !nodes[i].isLocal && nodes[i].enabled && nodes[i].credential)
        && !(id in old(stored) && old(stored)[id] == hash(lists(id)))
      ensures forall id :: id in pushed && reached(id) ==> id in stored && stored[id] == hash(lists(id))
      ensures forall id :: !(id in pushed && reached(id)) ==>
        (id in stored <==> id in old(stored)) && (id in stored ==> stored[id] == old(stored)[id])
    {
      pushed := {};
      for i := 0 to |nodes|
        invariant forall id :: id in pushed <==> Contacted(nodes[..i], id) && !Matches(old(stored), id, lists, hash)
        invariant forall id :: id in pushed && reached(id) ==> id in stored && stored[id] == hash(lists(id))
        invariant forall id :: !(id in pushed && reached(id)) ==>
          (id in stored <==> id in old(stored)) && (id in stored ==> stored[id] == old(stored)[id])
      {
        var node := nodes[i];
        ContactedNext(nodes, i);
        if node.isLocal || !node.enabled || !node.credential {
          continue;
        }
        var h := hash(lists(node.id));
        if node.id in stored && stored[node.id] == h {
          continue;
        }
        pushed := pushed + {node.id};
        if reached(node.id) {
          stored := stored[node.id := h];
        }
      }
      assert nodes[..|nodes|] == nodes;
    }
  }

  predicate Matches(stored: map<int, string>, id: int, lists: int -> List, hash: Hash) {
    id in stored && stored[id] == hash(lists(id))
  }

  // ---------------------------------------------------------------- one node over time

  /** A push: what it carries, whether it is automatic, whether it is still on its way, whether the
      node has applied it completely, and whether the main panel still waits for the reply. */
  datatype Push = Push(list: List, reality: string, auto: bool, transit: bool, applied: bool, waiting: bool)

  /** `ack` is the push whose hash is stored, `touched` the one the node has processed last. */
  datatype State = State(
    current: List, reality: string, stored: Option<string>,
    node: Table, nodeReality: string,
    pushes: seq<Push>, ack: Option<nat>, touched: Option<nat>)

  datatype Event =
    | Edit(list: List)
    | Rotate(reality: string)
    | BeginAuto
    | BeginManual
    | Deliver(k: nat)
    | Drop(k: nat)
    | Reply(k: nat, ok: bool)

  predicate Enabled(s: State, e: Event) {
    match e
    case Deliver(k) => k < |s.pushes| && s.pushes[k].transit
    case Drop(k) => k < |s.pushes| && s.pushes[k].transit
    case Reply(k, ok) => k < |s.pushes| && s.pushes[k].waiting && (ok ==> s.pushes[k].applied)
    case _ => true
  }

  function Begin(s: State, auto: bool): State {
    s.(pushes := s.pushes + [Push(s.current, s.reality, auto, true, false, true)])
  }

  /** The skip: an automatic push does not start when the stored hash is the current list's. */
  predicate Skips(s: State, hash: Hash) {
    s.stored == Some(hash(s.current))
  }

  /** Set the last fields of push `k`. */
  function Mark(s: State, k: nat, transit: bool, applied: bool, waiting: bool): seq<Push>
    requires k < |s.pushes|
  {
    s.pushes[k := s.pushes[k].(transit := transit, applied := applied, waiting := waiting)]
  }

  function Step(s: State, e: Event, hash: Hash): State
    requires Enabled(s, e)
  {
    match e
    case Edit(list) => s.(current := list)
    case Rotate(reality) => s.(reality := reality)
    case BeginAuto => if Skips(s, hash) then s else Begin(s, true)
    case BeginManual => Begin(s, false)
    case Deliver(k) =>
      var outcome := Sync(s.node, s.pushes[k].list);
      s.(node := outcome.rows, nodeReality := s.pushes[k].reality, touched := Some(k),
         pushes := Mark(s, k, false, outcome.Done?, s.pushes[k].waiting))
    case Drop(k) => s.(pushes := Mark(s, k, false, s.pushes[k].applied, s.pushes[k].waiting))
    case Reply(k, ok) =>
      var t := s.(pushes := Mark(s, k, s.pushes[k].transit, s.pushes[k].applied, false));
      if ok && s.pushes[k].auto then t.(stored := Some(hash(s.pushes[k].list)), ack := Some(k)) else t
  }

  /** Nothing on its way, nobody waiting. */
  predicate Idle(s: State) {
    forall k :: 0 <= k < |s.pushes| ==> !s.pushes[k].transit && !s.pushes[k].waiting
  }

  /** Pushes do not overlap: each starts when the one before is over. */
  predicate Orderly(s: State, e: Event, hash: Hash) {
    e.BeginManual? || (e.BeginAuto? && !Skips(s, hash)) ==> Idle(s)
  }

  predicate Run(s: State, run: seq<Event>, hash: Hash)
    decreases run
  {
    run == [] || (Enabled(s, run[0]) && Orderly(s, run[0], hash) && Run(Step(s, run[0], hash), run[1..], hash))
  }

  function After(s: State, run: seq<Event>, hash: Hash): State
    requires Run(s, run, hash)
    decreases run
  {
    if run == [] then s else After(Step(s, run[0], hash), run[1..], hash)
  }

  function Initial(list: List, reality: string, node: Table): State {
    State(list, reality, None, node, "", [], None, None)
  }

  /** The table is what a complete reconciliation with the list leaves. */
  ghost predicate Took(node: Table, list: List) {
    exists before :: Sync(before, list) == Done(node)
  }

  /** The push the node processed last is the acknowledged one or a later one, and a complete push
      that has been processed last is what the node holds. */
  ghost predicate Inv(s: State, hash: Hash) {
    && (forall k :: 0 <= k < |s.pushes| - 1 ==> !s.pushes[k].transit && !s.pushes[k].waiting)
    && (forall k :: 0 <= k < |s.pushes| ==> s.pushes[k].transit ==> !s.pushes[k].applied)
    && (forall k :: 0 <= k < |s.pushes| ==> s.pushes[k].applied ==> s.touched.Some? && k <= s.touched.value)
    && (s.touched.Some? ==> s.touched.value < |s.pushes|)
    && (s.touched.Some? && s.pushes[s.touched.value].applied ==>
          Took(s.node, s.pushes[s.touched.value].list) && s.nodeReality == s.pushes[s.touched.value].reality)
    && (s.stored.Some? <==> s.ack.Some?)
    && (s.ack.Some? ==>
          && s.ack.value < |s.pushes| && s.pushes[s.ack.value].applied
          && s.stored == Some(hash(s.pushes[s.ack.value].list)))
  }

  /** A push that starts carries the current list and the current key, and waits to be delivered. */
  lemma PushesCarryCurrent(s: State, e: Event, hash: Hash)
    requires e.BeginManual? || (e.BeginAuto? && s.stored != Some(hash(s.current)))
    ensures var t := Step(s, e, hash);
      && |t.pushes| == |s.pushes| + 1 && t.pushes[..|s.pushes|] == s.pushes
      && var p := t.pushes[|s.pushes|];
         p.list == s.current && p.reality == s.reality && p.auto == e.BeginAuto? && p.transit && p.waiting && !p.applied
  {
  }

  lemma BeginKeeps(s: State, auto: bool, hash: Hash)
    requires Inv(s, hash) && Idle(s)
    ensures Inv(Begin(s, auto), hash)
  {
    hide Took;
  }

  lemma DeliverKeeps(s: State, k: nat, hash: Hash)
    requires Inv(s, hash) && Enabled(s, Deliver(k))
    ensures Inv(Step(s, Deliver(k), hash), hash)
  {
    hide Sync;
    assert k == |s.pushes| - 1;
    var t := Step(s, Deliver(k), hash);
    if t.pushes[k].applied {
      assert Sync(s.node, s.pushes[k].list) == Done(t.node);
      assert Took(t.node, s.pushes[k].list);
    }
  }

  lemma StepKeeps(s: State, e: Event, hash: Hash)
    requires Inv(s, hash) && Enabled(s, e) && Orderly(s, e, hash)
    ensures Inv(Step(s, e, hash), hash)
  {
    hide Took, Sync, Idle;
    match e
    case BeginAuto =>
      if !Skips(s, hash) {
        BeginKeeps(s, true, hash);
      }
    case BeginManual => BeginKeeps(s, false, hash);
    case Deliver(k) => DeliverKeeps(s, k, hash);
    case _ =>
  }

  lemma {:induction false} RunKeeps(s: State, run: seq<Event>, hash: Hash)
    requires Inv(s, hash) && Run(s, run, hash)
    ensures Inv(After(s, run, hash), hash)
    decreases run
  {
    hide Inv, Enabled, Orderly, Step;
    if run != [] {
      StepKeeps(s, run[0], hash);
      RunKeeps(Step(s, run[0], hash), run[1..], hash);
    }
  }

  /** The list the node processed last is the one whose hash is stored, or was pushed after it. */
  lemma AppliedNotOlder(list: List, reality: string, node: Table, run: seq<Event>, hash: Hash)
    requires Run(Initial(list, reality, node), run, hash)
    ensures var s := After(Initial(list, reality, node), run, hash);
      s.stored.Some? ==>
        && s.ack.Some? && s.touched.Some? && s.ack.value <= s.touched.value < |s.pushes|
        && s.stored == Some(hash(s.pushes[s.ack.value].list))
  {
    hide Step, Enabled, Orderly;
    RunKeeps(Initial(list, reality, node), run, hash);
  }

  /** Nothing was pushed after the acknowledged push. */
  predicate NothingSince(s: State) {
    s.ack.Some? && s.ack.value + 1 == |s.pushes|
  }

  /** A skip is right when nothing was pushed since the acknowledged push: the node then holds what a
      complete reconciliation with the current list leaves, so exactly its valid uids. */
  lemma SkipIsSound(list: List, reality: string, node: Table, run: seq<Event>, hash: Hash)
    requires Run(Initial(list, reality, node), run, hash) && CollisionFree(hash)
    ensures var s := After(Initial(list, reality, node), run, hash);
      NothingSince(s) && Skips(s, hash) ==>
        Took(s.node, s.current) && (DistinctItems(s.current) ==> s.node.Keys == Uids(s.current))
  {
    hide Step, Enabled, Orderly, Sync, Uids, DistinctItems;
    RunKeeps(Initial(list, reality, node), run, hash);
    var s := After(Initial(list, reality, node), run, hash);
    if NothingSince(s) && Skips(s, hash) {
      assert s.pushes[s.ack.value].list == s.current;
      if DistinctItems(s.current) {
        var before :| Sync(before, s.current) == Done(s.node);
        SyncedUids(before, s.current);
      }
    }
  }

  // ---------------------------------------------------------------- where the skip goes wrong

  /** A push that reaches the node, followed by an edit back to the acknowledged list: if its reply is
      lost, or if it was a manual push, the stored hash matches the current list again, nothing is
      pushed any more, and the node keeps the users of the other list. */
  lemma RevertedEditIsSkipped(s: State, acked: List, hash: Hash, manual: bool)
    requires Idle(s) && s.stored == Some(hash(acked)) && hash(s.current) != hash(acked)
    requires Sync(s.node, s.current).Done?
    requires DistinctItems(acked) && DistinctItems(s.current) && Uids(s.current) != Uids(acked)
    ensures var k := |s.pushes|;
      var run := [if manual then BeginManual else BeginAuto, Deliver(k), Reply(k, manual), Edit(acked)];
      && Run(s, run, hash)
      && var t := After(s, run, hash);
         && Skips(t, hash) && Step(t, BeginAuto, hash) == t
         && t.current == acked && !Took(t.node, t.current)
         && Took(t.node, s.current) && t.node.Keys == Uids(s.current)
  {
    hide Sync, Uids, DistinctItems;
    var k := |s.pushes|;
    var begin := if manual then BeginManual else BeginAuto;
    var s1 := Step(s, begin, hash);
    var s2 := Step(s1, Deliver(k), hash);
    var s3 := Step(s2, Reply(k, manual), hash);
    var s4 := Step(s3, Edit(acked), hash);
    assert Sync(s.node, s.current) == Done(s2.node);
    SyncedUids(s.node, s.current);
    TookUids(s2.node, acked);
    Last(s3, Edit(acked), s4, [], hash);
    Last(s2, Reply(k, manual), s3, [Edit(acked)], hash);
    Last(s1, Deliver(k), s2, [Reply(k, manual), Edit(acked)], hash);
    Last(s, begin, s1, [Deliver(k), Reply(k, manual), Edit(acked)], hash);
  }

  lemma TookUids(node: Table, list: List)
    requires DistinctItems(list) && node.Keys != Uids(list)
    ensures !Took(node, list)
  {
    hide Sync, Uids, DistinctItems;
    if before :| Sync(before, list) == Done(node) {
      SyncedUids(before, list);
    }
  }

  lemma Last(s: State, e: Event, t: State, rest: seq<Event>, hash: Hash)
    requires Enabled(s, e) && Orderly(s, e, hash) && Step(s, e, hash) == t && Run(t, rest, hash)
    ensures Run(s, [e] + rest, hash) && After(s, [e] + rest, hash) == After(t, rest, hash)
  {
    hide Step, Enabled, Orderly;
    assert ([e] + rest)[1..] == rest;
  }

  /** Rotations and automatic pushes, in any number and order. */
  predicate OnlyRotations(run: seq<Event>) {
    forall e :: e in run ==> e.Rotate? || e.BeginAuto?
  }

  /** The key the main panel has after such a run. */
  function NewestKey(reality: string, run: seq<Event>): string
    decreases run
  {
    if run == [] then reality
    else NewestKey(if run[0].Rotate? then run[0].reality else reality, run[1..])
  }

  /** The hash covers the users only: whatever Reality keys are made while the users stay the same, no
      automatic push carries one to the node. */
  lemma {:induction false} RotationIsSkipped(s: State, run: seq<Event>, hash: Hash)
    requires Skips(s, hash) && OnlyRotations(run)
    ensures Run(s, run, hash)
    ensures var t := After(s, run, hash);
      t.reality == NewestKey(s.reality, run) && t.nodeReality == s.nodeReality && t.pushes == s.pushes && Skips(t, hash)
    decreases run
  {
    if run != [] {
      RotationIsSkipped(Step(s, run[0], hash), run[1..], hash);
    }
  }

  /** When a push is skipped with nothing pushed since the acknowledged push, the node has the current
      Reality key exactly if the acknowledged push carried it. */
  lemma KeyArrivedExactly(list: List, reality: string, node: Table, run: seq<Event>, hash: Hash)
    requires Run(Initial(list, reality, node), run, hash)
    ensures var s := After(Initial(list, reality, node), run, hash);
      NothingSince(s) && Skips(s, hash) ==>
        && s.ack.value < |s.pushes|
        && (s.nodeReality == s.reality <==> s.pushes[s.ack.value].reality == s.reality)
  {
    hide Step, Enabled, Orderly, Took;
    RunKeeps(Initial(list, reality, node), run, hash);
  }
}
