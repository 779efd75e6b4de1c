/** Usage on its way from the nodes to the main panel (app/tasks.py: `_periodic_flush`,
    `_report_usage_loop`; app/main.py: `api_node_usage`; app/db.py: `add_user_usage`). */
module Usage {
  import opened Counters

  /** `x + y`, direction by direction. */
  predicate IsSum(r: Pair, x: Pair, y: Pair) {
    r.up == x.up + y.up && r.down == x.down + y.down
  }

  /** Per-user amounts, added up user by user. */
  function Sum(a: map<string, Pair>, b: map<string, Pair>): (r: map<string, Pair>)
    ensures forall uid :: uid in r <==> uid in a || uid in b
    ensures forall uid :: IsSum(Of(r, uid), Of(a, uid), Of(b, uid))
  {
    map uid | uid in a.Keys + b.Keys :: Add(Of(a, uid), Of(b, uid))
  }

  lemma SameSum(m: map<string, Pair>, a: map<string, Pair>, b: map<string, Pair>)
    requires forall uid :: uid in m <==> uid in a || uid in b
    requires forall uid :: IsSum(Of(m, uid), Of(a, uid), Of(b, uid))
    ensures m == Sum(a, b)
  {
    hide Sum;
    var r := Sum(a, b);
    forall uid | uid in m
      ensures m[uid] == r[uid]
    {
      assert IsSum(Of(m, uid), Of(a, uid), Of(b, uid)) && IsSum(Of(r, uid), Of(a, uid), Of(b, uid));
    }
  }

  /** Amounts of the users that have a row, and of those that have none. */
  function Known(usage: map<string, Pair>, rows: set<string>): (r: map<string, Pair>)
    ensures forall uid :: Of(r, uid) == if uid in rows then Of(usage, uid) else ZERO
  {
    map uid | uid in usage && uid in rows :: usage[uid]
  }

  function Unknown(usage: map<string, Pair>, rows: set<string>): (r: map<string, Pair>)
    ensures forall uid :: Of(r, uid) == if uid in rows then ZERO else Of(usage, uid)
  {
    map uid | uid in usage && uid !in rows :: usage[uid]
  }

  /** The usage columns after `add_user_usage` for every user of `usage`: rows grow, none appear. */
  function Credited(used: map<string, Pair>, usage: map<string, Pair>): (r: map<string, Pair>)
    ensures r.Keys == used.Keys
    ensures forall uid :: uid in used ==> IsSum(r[uid], used[uid], Of(usage, uid))
  {
    map uid | uid in used :: Add(used[uid], Of(usage, uid))
  }

  // ---------------------------------------------------------------- the code's own form

  /** A reported amount, before it is clamped. */
  datatype Amount = Amount(up: int, down: int)

  function Clamp(a: Amount): Pair {
    Pair(if a.up < 0 then 0 else a.up, if a.down < 0 then 0 else a.down)
  }

  function Clamped(usage: map<string, Amount>): map<string, Pair> {
    map uid | uid in usage :: Clamp(usage[uid])
  }

  /** The node process: `_pending_usage`. */
  class NodeProcess {
    var pending: map<string, Pair>

    constructor ()
      ensures pending == map[]
    {
      pending := map[];
    }

    /** The part of `_periodic_flush` that fills the pending map. */
    method Flush(deltas: map<string, Pair>)
      modifies this
      ensures pending == Sum(old(pending), deltas)
    {
      hide Sum;
      var left := deltas.Keys;
      while left != {}
        invariant left <= deltas.Keys
        invariant forall uid :: uid in pending <==> uid in old(pending) || (uid in deltas && uid !in left)
        invariant forall uid :: uid in left ==> Of(pending, uid) == Of(old(pending), uid)
        invariant forall uid :: uid !in left ==> IsSum(Of(pending, uid), Of(old(pending), uid), Of(deltas, uid))
      {
        var uid :| uid in left;
        left := left - {uid};
        var p := if uid in pending then pending[uid] else ZERO;
        pending := pending[uid := Pair(p.up + deltas[uid].up, p.down + deltas[uid].down)];
      }
      SameSum(pending, old(pending), deltas);
    }

    /** `snapshot, _pending_usage = _pending_usage, {}` */
    method Swap() returns (snapshot: map<string, Pair>)
      modifies this
      ensures snapshot == old(pending) && pending == map[]
    {
      snapshot, pending := pending, map[];
    }
  }

  /** The main panel's usage columns. */
  class MainPanel {
    var used: map<string, Pair>

    constructor ()
      ensures used == map[]
    {
      used := map[];
    }

    /** `add_user_usage`: an UPDATE, so a uid without a row changes nothing. */
    method AddUserUsage(uid: string, up: nat, down: nat)
      modifies this
      ensures uid !in old(used) ==> used == old(used)
      ensures uid in old(used) ==> used == old(used)[uid := Pair(old(used)[uid].up + up, old(used)[uid].down + down)]
    {
      if uid in used {
        used := used[uid := Pair(used[uid].up + up, used[uid].down + down)];
      }
    }

    /** `api_node_usage`, after the secret has been checked: rows grow by the clamped amounts, and the
        result counts the users whose amount was not zero. */
    method ApiNodeUsage(usage: map<string, Amount>) returns (count: nat)
      modifies this
      ensures used == Credited(old(used), Clamped(usage)) && used.Keys == old(used).Keys
      ensures forall uid :: uid in used ==> Grown(used[uid], old(used)[uid], usage, uid)
      ensures count == |NonZero(usage)|
    {
      hide Credited, Clamped, Grown;
      count := 0;
      var left := usage.Keys;
      ghost var merged: set<string> := {};
      while left != {}
        invariant left <= usage.Keys && used.Keys == old(used).Keys
        invariant count == |merged| && forall uid :: uid in merged <==> uid in NonZero(usage) && uid !in left
        invariant forall uid :: uid in used && uid in left ==> used[uid] == old(used)[uid]
        invariant forall uid :: uid in used && uid !in left && uid in usage ==>
          Grown(used[uid], old(used)[uid], usage, uid)
        invariant forall uid :: uid in used && uid !in usage ==> used[uid] == old(used)[uid]
      {
        var uid :| uid in left;
        var d := usage[uid];
        var up := if d.up < 0 then 0 else d.up;
        var down := if d.down < 0 then 0 else d.down;
        if uid in used {
          GrownBy(used[uid], usage, uid, up, down);
        }
        if up != 0 || down != 0 {
          AddUserUsage(uid, up, down);
          count := count + 1;
          merged := merged + {uid};
        }
        left := left - {uid};
      }
      assert merged == NonZero(usage);
      forall uid | uid in used
        ensures Grown(used[uid], old(used)[uid], usage, uid)
        ensures IsSum(used[uid], old(used)[uid], Of(Clamped(usage), uid))
      {
        if uid !in usage {
          GrownByNothing(used[uid], usage, uid);
        }
        GrownClamped(used[uid], old(used)[uid], usage, uid);
      }
      SameCredited(used, old(used), Clamped(usage));
    }
  }

  /** The row has grown by what is positive in the report, and by nothing else. */
  predicate Grown(now: Pair, was: Pair, usage: map<string, Amount>, uid: string) {
    && now.up == was.up + (if uid in usage && usage[uid].up > 0 then usage[uid].up else 0)
    && now.down == was.down + (if uid in usage && usage[uid].down > 0 then usage[uid].down else 0)
  }

  lemma GrownBy(was: Pair, usage: map<string, Amount>, uid: string, up: nat, down: nat)
    requires uid in usage
    requires up == (if usage[uid].up < 0 then 0 else usage[uid].up)
    requires down == (if usage[uid].down < 0 then 0 else usage[uid].down)
    ensures Grown(Pair(was.up + up, was.down + down), was, usage, uid)
    ensures up == 0 && down == 0 ==> Grown(was, was, usage, uid)
  {
  }

  lemma GrownByNothing(was: Pair, usage: map<string, Amount>, uid: string)
    requires uid !in usage
    ensures Grown(was, was, usage, uid)
  {
  }

  lemma GrownClamped(now: Pair, was: Pair, usage: map<string, Amount>, uid: string)
    requires Grown(now, was, usage, uid)
    ensures IsSum(now, was, Of(Clamped(usage), uid))
  {
  }

  function NonZero(usage: map<string, Amount>): set<string> {
    set uid | uid in usage && (usage[uid].up > 0 || usage[uid].down > 0)
  }

  lemma SameCredited(m: map<string, Pair>, used: map<string, Pair>, usage: map<string, Pair>)
    requires m.Keys == used.Keys
    requires forall uid :: uid in used ==> IsSum(m[uid], used[uid], Of(usage, uid))
    ensures m == Credited(used, usage)
  {
    hide Credited;
    var r := Credited(used, usage);
    forall uid | uid in m
      ensures m[uid] == r[uid]
    {
      assert uid in used;
    }
  }

  // ---------------------------------------------------------------- the whole system

  /** What the nodes hold (`pending`, one map per node), what is on the wire, and the main panel's
      columns; the other fields are running totals. */
  datatype System = System(
    pending: seq<map<string, Pair>>,
    flight: seq<map<string, Pair>>,
    used: map<string, Pair>,
    measured: map<string, Pair>,
    credited: map<string, Pair>,
    unmatched: map<string, Pair>,
    dropped: map<string, Pair>,
    own: map<string, Pair>,
    cleared: map<string, Pair>)

  /** Everything that can happen, in any order. A report that arrives is delivered once, whether or
      not its reply gets back; one that does not arrive is lost, because nobody looks at the result. */
  datatype Event =
    | Flush(node: nat, deltas: map<string, Pair>)
    | Swap(node: nat)
    | Deliver(k: nat)
    | Lose(k: nat)
    | RestartNode(node: nat)
    | OwnFlush(deltas: map<string, Pair>)
    | ResetUsage(uid: string)
    | CreateUser(uid: string)
    | DeleteUser(uid: string)

  function Start(nodes: nat): System {
    System(seq(nodes, i => map[]), [], map[], map[], map[], map[], map[], map[], map[])
  }

  predicate Possible(s: System, e: Event) {
    match e
    case Flush(n, _) => n < |s.pending|
    case Swap(n) => n < |s.pending| && s.pending[n] != map[]
    case Deliver(k) => k < |s.flight|
    case Lose(k) => k < |s.flight|
    case RestartNode(n) => n < |s.pending|
    case _ => true
  }

  function Without(list: seq<map<string, Pair>>, k: nat): seq<map<string, Pair>>
    requires k < |list|
  {
    list[..k] + list[k + 1..]
  }

  function Step(s: System, e: Event): System
    requires Possible(s, e)
  {
    match e
    case Flush(n, deltas) =>
      s.(pending := s.pending[n := Sum(s.pending[n], deltas)], measured := Sum(s.measured, deltas))
    case Swap(n) =>
      s.(pending := s.pending[n := map[]], flight := s.flight + [s.pending[n]])
    case Deliver(k) =>
      s.(flight := Without(s.flight, k), used := Credited(s.used, s.flight[k]),
         credited := Sum(s.credited, Known(s.flight[k], s.used.Keys)),
         unmatched := Sum(s.unmatched, Unknown(s.flight[k], s.used.Keys)))
    case Lose(k) =>
      s.(flight := Without(s.flight, k), dropped := Sum(s.dropped, s.flight[k]))
    case RestartNode(n) =>
      s.(pending := s.pending[n := map[]], dropped := Sum(s.dropped, s.pending[n]))
    case OwnFlush(deltas) =>
      s.(used := Credited(s.used, deltas), own := Sum(s.own, Known(deltas, s.used.Keys)))
    case ResetUsage(uid) =>
      if uid in s.used then s.(used := s.used[uid := ZERO], cleared := Sum(s.cleared, map[uid := s.used[uid]])) else s
    case CreateUser(uid) =>
      if uid in s.used then s else s.(used := s.used[uid := ZERO])
    case DeleteUser(uid) =>
      if uid in s.used then s.(used := s.used - {uid}, cleared := Sum(s.cleared, map[uid := s.used[uid]])) else s
  }

  /** What a report looks like to the main panel. */
  function Report(usage: map<string, Pair>): map<string, Amount> {
    map uid | uid in usage :: Amount(usage[uid].up, usage[uid].down)
  }

  lemma ReportClamped(usage: map<string, Pair>)
    ensures Clamped(Report(usage)) == usage
  {
  }

  /** A delivered report leaves the columns as `MainPanel.ApiNodeUsage` does: what a node measured is
      never negative, so the clamp changes nothing. */
  lemma DeliverIsApiNodeUsage(s: System, k: nat)
    requires Possible(s, Deliver(k))
    ensures Step(s, Deliver(k)).used == Credited(s.used, Clamped(Report(s.flight[k])))
  {
    hide Credited, Clamped, Report, Sum, Known, Unknown, Without;
    ReportClamped(s.flight[k]);
  }

  /** A user's amount in a map, in one direction. */
  function Total(m: map<string, Pair>, uid: string, up: bool): nat {
    Side(Of(m, uid), up)
  }

  /** A user's share of a list of maps. */
  function Held(list: seq<map<string, Pair>>, uid: string, up: bool): nat {
    if list == [] then 0 else Total(list[0], uid, up) + Held(list[1..], uid, up)
  }

  lemma {:induction false} HeldReplace(list: seq<map<string, Pair>>, k: nat, m: map<string, Pair>, uid: string,
                                       up: bool)
    requires k < |list|
    ensures Held(list[k := m], uid, up) + Total(list[k], uid, up) == Held(list, uid, up) + Total(m, uid, up)
  {
    hide Total;
    if k == 0 {
      assert list[k := m][1..] == list[1..];
    } else {
      assert list[k := m][1..] == list[1..][k - 1 := m];
      HeldReplace(list[1..], k - 1, m, uid, up);
    }
  }

  lemma {:induction false} HeldWithout(list: seq<map<string, Pair>>, k: nat, uid: string, up: bool)
    requires k < |list|
    ensures Held(Without(list, k), uid, up) + Total(list[k], uid, up) == Held(list, uid, up)
  {
    hide Total;
    if k == 0 {
      assert Without(list, 0) == list[1..];
    } else {
      assert Without(list, k)[1..] == Without(list[1..], k - 1);
      HeldWithout(list[1..], k - 1, uid, up);
    }
  }

  lemma {:induction false} HeldAppend(list: seq<map<string, Pair>>, m: map<string, Pair>, uid: string, up: bool)
    ensures Held(list + [m], uid, up) == Held(list, uid, up) + Total(m, uid, up)
  {
    hide Total;
    if list == [] {
      assert [m][1..] == [];
      assert list + [m] == [m];
    } else {
      assert (list + [m])[1..] == list[1..] + [m];
      HeldAppend(list[1..], m, uid, up);
    }
  }

  lemma SumTotal(a: map<string, Pair>, b: map<string, Pair>, uid: string, up: bool)
    ensures Total(Sum(a, b), uid, up) == Total(a, uid, up) + Total(b, uid, up)
  {
    hide Sum, Of;
    assert IsSum(Of(Sum(a, b), uid), Of(a, uid), Of(b, uid));
  }

  lemma CreditedTotal(used: map<string, Pair>, usage: map<string, Pair>, uid: string, up: bool)
    ensures Total(Credited(used, usage), uid, up) == Total(used, uid, up) + Total(Known(usage, used.Keys), uid, up)
  {
    hide Credited, Known;
    if uid in used {
      assert IsSum(Credited(used, usage)[uid], used[uid], Of(usage, uid));
    }
  }

  lemma SplitTotal(usage: map<string, Pair>, rows: set<string>, uid: string, up: bool)
    ensures Total(usage, uid, up) == Total(Known(usage, rows), uid, up) + Total(Unknown(usage, rows), uid, up)
  {
    hide Known, Unknown;
  }

  lemma NoTotal(uid: string, up: bool)
    ensures Total(map[], uid, up) == 0
  {
  }

  lemma ClearTotal(used: map<string, Pair>, v: string, uid: string, up: bool)
    requires v in used
    ensures Total(used[v := ZERO], uid, up) + Total(map[v := used[v]], uid, up) == Total(used, uid, up)
    ensures Total(used - {v}, uid, up) + Total(map[v := used[v]], uid, up) == Total(used, uid, up)
  {
  }

  lemma CreateTotal(used: map<string, Pair>, v: string, uid: string, up: bool)
    requires v !in used
    ensures Total(used[v := ZERO], uid, up) == Total(used, uid, up)
  {
  }

  /** Every measured byte of the user is somewhere, and nowhere twice. */
  predicate Conserved(s: System, uid: string, up: bool) {
    Total(s.measured, uid, up) ==
      Total(s.credited, uid, up) + Total(s.unmatched, uid, up) + Total(s.dropped, uid, up) +
      Held(s.pending, uid, up) + Held(s.flight, uid, up)
  }

  /** The user's row holds what was credited to it, by reports and by this panel, less what was cleared. */
  predicate Balanced(s: System, uid: string, up: bool) {
    Total(s.used, uid, up) + Total(s.cleared, uid, up) == Total(s.credited, uid, up) + Total(s.own, uid, up)
  }

  lemma StepConserves(s: System, e: Event, uid: string, up: bool)
    requires Possible(s, e) && Conserved(s, uid, up)
    ensures Conserved(Step(s, e), uid, up)
  {
    hide Held, Sum, Known, Unknown, Credited, Without, Total;
    NoTotal(uid, up);
    match e
    case Flush(n, deltas) =>
      HeldReplace(s.pending, n, Sum(s.pending[n], deltas), uid, up);
      SumTotal(s.pending[n], deltas, uid, up);
      SumTotal(s.measured, deltas, uid, up);
    case Swap(n) =>
      HeldReplace(s.pending, n, map[], uid, up);
      HeldAppend(s.flight, s.pending[n], uid, up);
    case Deliver(k) =>
      HeldWithout(s.flight, k, uid, up);
      SplitTotal(s.flight[k], s.used.Keys, uid, up);
      SumTotal(s.credited, Known(s.flight[k], s.used.Keys), uid, up);
      SumTotal(s.unmatched, Unknown(s.flight[k], s.used.Keys), uid, up);
    case Lose(k) =>
      HeldWithout(s.flight, k, uid, up);
      SumTotal(s.dropped, s.flight[k], uid, up);
    case RestartNode(n) =>
      HeldReplace(s.pending, n, map[], uid, up);
      SumTotal(s.dropped, s.pending[n], uid, up);
    case OwnFlush(deltas) =>
    case ResetUsage(v) =>
    case CreateUser(v) =>
    case DeleteUser(v) =>
  }

  lemma StepBalances(s: System, e: Event, uid: string, up: bool)
    requires Possible(s, e) && Balanced(s, uid, up)
    ensures Balanced(Step(s, e), uid, up)
  {
    hide Held, Sum, Known, Unknown, Credited, Without, Total;
    match e
    case Deliver(k) =>
      SumTotal(s.credited, Known(s.flight[k], s.used.Keys), uid, up);
      CreditedTotal(s.used, s.flight[k], uid, up);
    case OwnFlush(deltas) =>
      SumTotal(s.own, Known(deltas, s.used.Keys), uid, up);
      CreditedTotal(s.used, deltas, uid, up);
    case ResetUsage(v) =>
      if v in s.used {
        SumTotal(s.cleared, map[v := s.used[v]], uid, up);
        ClearTotal(s.used, v, uid, up);
      }
    case CreateUser(v) =>
      if v !in s.used {
        CreateTotal(s.used, v, uid, up);
      }
    case DeleteUser(v) =>
      if v in s.used {
        SumTotal(s.cleared, map[v := s.used[v]], uid, up);
        ClearTotal(s.used, v, uid, up);
      }
    case _ =>
  }

  predicate PossibleRun(s: System, run: seq<Event>)
    decreases run
  {
    run == [] || (Possible(s, run[0]) && PossibleRun(Step(s, run[0]), run[1..]))
  }

  function AfterRun(s: System, run: seq<Event>): System
    requires PossibleRun(s, run)
    decreases run
  {
    if run == [] then s else AfterRun(Step(s, run[0]), run[1..])
  }

  lemma {:induction false} RunConserves(s: System, run: seq<Event>, uid: string, up: bool)
    requires PossibleRun(s, run) && Conserved(s, uid, up) && Balanced(s, uid, up)
    ensures Conserved(AfterRun(s, run), uid, up) && Balanced(AfterRun(s, run), uid, up)
    decreases run
  {
    hide Step, Possible, Conserved, Balanced;
    if run != [] {
      StepConserves(s, run[0], uid, up);
      StepBalances(s, run[0], uid, up);
      RunConserves(Step(s, run[0]), run[1..], uid, up);
    }
  }

  predicate AllEmpty(list: seq<map<string, Pair>>) {
    forall i :: 0 <= i < |list| ==> list[i] == map[]
  }

  lemma {:induction false} HeldNothing(list: seq<map<string, Pair>>, uid: string, up: bool)
    requires AllEmpty(list)
    ensures Held(list, uid, up) == 0
  {
    if list != [] {
      HeldNothing(list[1..], uid, up);
    }
  }

  /** Conservation over every interleaving of flushes, swaps, deliveries, losses, node restarts, and
      user creation, reset and deletion, for any number of nodes: each byte measured on a node is
      credited to the user's row, was reported while the user had no row, is pending or on the wire,
      or was dropped; and a row holds what was credited since it was last cleared. */
  lemma UsageConserved(nodes: nat, run: seq<Event>, uid: string, up: bool)
    requires PossibleRun(Start(nodes), run)
    ensures Conserved(AfterRun(Start(nodes), run), uid, up) && Balanced(AfterRun(Start(nodes), run), uid, up)
  {
    HeldNothing(Start(nodes).pending, uid, up);
    RunConserves(Start(nodes), run, uid, up);
  }

  /** Nothing is counted twice: reports never credit more than the nodes measured. */
  lemma NothingTwice(nodes: nat, run: seq<Event>, uid: string, up: bool)
    requires PossibleRun(Start(nodes), run)
    ensures var s := AfterRun(Start(nodes), run); Total(s.credited, uid, up) <= Total(s.measured, uid, up)
  {
    hide Total, Held;
    UsageConserved(nodes, run, uid, up);
  }
}
