/** Per-user traffic deltas from Xray's counters (app/xray.py: `get_xray_stats`). */
module Counters {
  import opened Wrappers

  datatype Pair = Pair(up: nat, down: nat)

  const ZERO := Pair(0, 0)

  /** One item of the stats reply: the name split at ">>>", and the value if there is one. */
  datatype Item = Item(parts: seq<string>, value: Option<nat>)

  /** `m.get(uid, {"up": 0, "down": 0})` */
  function Of(m: map<string, Pair>, uid: string): Pair {
    if uid in m then m[uid] else ZERO
  }

  function Count(m: map<string, Pair>, item: Item): map<string, Pair> {
    if item.value.Some? && |item.parts| == 4 && item.parts[0] == "user" && item.parts[2] == "traffic" then
      var p := Of(m, item.parts[1]);
      var v := item.value.value;
      m[item.parts[1] := if item.parts[3] == "uplink" then p.(up := p.up + v)
                         else if item.parts[3] == "downlink" then p.(down := p.down + v)
                         else p]
    else m
  }

  /** The counters of a reply, per user. */
  function Current(items: seq<Item>): map<string, Pair> {
    if items == [] then map[] else Count(Current(items[..|items| - 1]), items[|items| - 1])
  }

  /** Growth of one counter since the last poll; a counter that went down has been reset. */
  function Delta(now: nat, before: nat): nat {
    if now < before then now else now - before
  }

  function DeltaPair(now: Pair, before: Pair): Pair {
    Pair(Delta(now.up, before.up), Delta(now.down, before.down))
  }

  class Stats {
    var previous: map<string, Pair>

    constructor ()
      ensures previous == map[]
    {
      previous := map[];
    }

    /** `get_xray_stats`: None stands for every way the query can fail. Users without growth are
        left out of the result. */
    method GetStats(reply: Option<seq<Item>>) returns (deltas: map<string, Pair>)
      modifies this
      ensures reply.None? ==> deltas == map[] && previous == old(previous)
      ensures reply.Some? ==> previous == Current(reply.value)
      ensures reply.Some? ==> forall uid, up ::
        Side(Of(deltas, uid), up) == Unreported(World(Current(reply.value), old(previous)), uid, up)
      ensures forall uid :: uid in deltas ==> deltas[uid] != ZERO
    {
      deltas := map[];
      if reply.None? {
        return;
      }
      var current := Collect(reply.value);
      var uids := current.Keys;
      while uids != {}
        invariant uids <= current.Keys && previous == old(previous)
        invariant forall uid :: uid in deltas ==> deltas[uid] != ZERO
        invariant forall uid :: uid !in uids ==> Of(deltas, uid) == DeltaPair(Of(current, uid), Of(previous, uid))
        invariant forall uid :: uid in uids ==> uid !in deltas
      {
        var uid :| uid in uids;
        uids := uids - {uid};
        var s := current[uid];
        var prev := Of(previous, uid);
        var up, down := s.up - prev.up, s.down - prev.down;
        if up < 0 {
          up := s.up;
        }
        if down < 0 {
          down := s.down;
        }
        if up > 0 || down > 0 {
          deltas := deltas[uid := Pair(up, down)];
        }
      }
      previous := current;
      forall uid, up
        ensures Side(Of(deltas, uid), up) == Unreported(World(current, old(previous)), uid, up)
      {
        assert Of(deltas, uid) == DeltaPair(Of(current, uid), Of(old(previous), uid));
      }
    }
  }

  method Collect(items: seq<Item>) returns (current: map<string, Pair>)
    ensures current == Current(items)
  {
    current := map[];
    for i := 0 to |items|
      invariant current == Current(items[..i])
    {
      assert items[..i + 1][..i] == items[..i];
      var item := items[i];
      if item.value.None? {
        continue;
      }
      var parts := item.parts;
      if |parts| == 4 && parts[0] == "user" && parts[2] == "traffic" {
        var uid, val := parts[1], item.value.value;
        if uid !in current {
          current := current[uid := ZERO];
        }
        if parts[3] == "uplink" {
          current := current[uid := current[uid].(up := current[uid].up + val)];
        } else if parts[3] == "downlink" {
          current := current[uid := current[uid].(down := current[uid].down + val)];
        }
      }
    }
    assert items[..|items|] == items;
  }

  // ---------------------------------------------------------------- what a reply says

  /** What the items of exactly this name add up to. */
  function SumOf(items: seq<Item>, parts: seq<string>): nat {
    if items == [] then 0
    else
      var last := items[|items| - 1];
      SumOf(items[..|items| - 1], parts) +
      if last.parts == parts && last.value.Some? then last.value.value else 0
  }

  lemma CountOne(m: map<string, Pair>, item: Item, uid: string)
    ensures var v := if item.value.Some? then item.value.value else 0;
      var r := Count(m, item);
      && Of(r, uid).up == Of(m, uid).up + (if item.parts == ["user", uid, "traffic", "uplink"] then v else 0)
      && Of(r, uid).down == Of(m, uid).down + (if item.parts == ["user", uid, "traffic", "downlink"] then v else 0)
  {
    var parts := item.parts;
    if |parts| == 4 {
      assert parts == [parts[0], parts[1], parts[2], parts[3]];
    }
  }

  /** Upward and downward bytes of a user are what the reply's items of those names add up to. */
  lemma {:induction false} CurrentExactly(items: seq<Item>, uid: string)
    ensures Of(Current(items), uid).up == SumOf(items, ["user", uid, "traffic", "uplink"])
    ensures Of(Current(items), uid).down == SumOf(items, ["user", uid, "traffic", "downlink"])
  {
    hide Count;
    if items != [] {
      CurrentExactly(items[..|items| - 1], uid);
      CountOne(Current(items[..|items| - 1]), items[|items| - 1], uid);
    }
  }

  function NameOf(uid: string, up: bool): seq<string> {
    ["user", uid, "traffic", if up then "uplink" else "downlink"]
  }

  /** The reply lists every counter once; a counter at zero may be left out. */
  ghost predicate Lists(items: seq<Item>, counters: map<string, Pair>) {
    && (forall i, j :: 0 <= i < j < |items| ==> items[i].parts != items[j].parts)
    && (forall uid, up, i :: 0 <= i < |items| && items[i].parts == NameOf(uid, up) ==>
          items[i].value == Some(Side(Of(counters, uid), up)))
    && (forall uid, up :: Side(Of(counters, uid), up) > 0 ==>
          exists i :: 0 <= i < |items| && items[i].parts == NameOf(uid, up))
  }

  lemma {:induction false} SumOfNone(items: seq<Item>, parts: seq<string>)
    requires forall i :: 0 <= i < |items| ==> items[i].parts != parts
    ensures SumOf(items, parts) == 0
  {
    if items != [] {
      SumOfNone(items[..|items| - 1], parts);
    }
  }

  lemma {:induction false} SumOfOne(items: seq<Item>, k: nat)
    requires k < |items| && items[k].value.Some?
    requires forall i, j :: 0 <= i < j < |items| ==> items[i].parts != items[j].parts
    ensures SumOf(items, items[k].parts) == items[k].value.value
  {
    var most := items[..|items| - 1];
    if k == |items| - 1 {
      SumOfNone(most, items[k].parts);
    } else {
      SumOfOne(most, k);
    }
  }

  /** A reply that lists the counters of a world is read as those counters. */
  lemma ListedCounters(items: seq<Item>, counters: map<string, Pair>, uid: string, up: bool)
    requires Lists(items, counters)
    ensures Side(Of(Current(items), uid), up) == Side(Of(counters, uid), up)
  {
    CurrentExactly(items, uid);
    if k :| 0 <= k < |items| && items[k].parts == NameOf(uid, up) {
      SumOfOne(items, k);
    } else {
      SumOfNone(items, NameOf(uid, up));
    }
  }

  /** `GetStats` on such a reply is the poll of the runs below: from a base that agrees with the world's
      it reports what the world has unreported, and its new base agrees again. */
  lemma GetStatsIsPoll(items: seq<Item>, previous: map<string, Pair>, w: World, uid: string, up: bool)
    requires Lists(items, w.counters) && Side(Of(previous, uid), up) == Side(Of(w.previous, uid), up)
    ensures Unreported(World(Current(items), previous), uid, up) == Unreported(w, uid, up)
    ensures Side(Of(Current(items), uid), up) == Side(Of(Step(w, Poll).previous, uid), up)
  {
    hide Lists;
    ListedCounters(items, w.counters, uid, up);
  }

  // ---------------------------------------------------------------- runs

  /** Traffic moves and counts; Xray restarts and starts counting at zero; polls succeed or fail. */
  datatype Event = Move(uid: string, bytes: Pair) | Restart | Poll | FailedPoll

  datatype World = World(counters: map<string, Pair>, previous: map<string, Pair>)

  const FRESH := World(map[], map[])

  function Add(p: Pair, q: Pair): Pair {
    Pair(p.up + q.up, p.down + q.down)
  }

  function Step(w: World, e: Event): World {
    match e
    case Move(uid, bytes) => w.(counters := w.counters[uid := Add(Of(w.counters, uid), bytes)])
    case Restart => w.(counters := map[])
    case Poll => w.(previous := w.counters)
    case FailedPoll => w
  }

  function After(run: seq<Event>): World {
    if run == [] then FRESH else Step(After(run[..|run| - 1]), run[|run| - 1])
  }

  /** One direction of a pair. */
  function Side(p: Pair, up: bool): nat {
    if up then p.up else p.down
  }

  /** Bytes a user really moved. */
  function Moved(run: seq<Event>, uid: string, up: bool): nat {
    if run == [] then 0
    else
      var e := run[|run| - 1];
      Moved(run[..|run| - 1], uid, up) + if e.Move? && e.uid == uid then Side(e.bytes, up) else 0
  }

  /** What a poll in world `w` reports for a user. */
  function Unreported(w: World, uid: string, up: bool): nat {
    Delta(Side(Of(w.counters, uid), up), Side(Of(w.previous, uid), up))
  }

  /** The sum of the deltas of all polls. */
  function Reported(run: seq<Event>, uid: string, up: bool): nat {
    if run == [] then 0
    else
      var most := run[..|run| - 1];
      Reported(most, uid, up) + if run[|run| - 1].Poll? then Unreported(After(most), uid, up) else 0
  }

  /** What is lost for good: at a restart everything not yet reported; and the last polled value,
      when a restarted counter climbs past it before the next poll, so that the restart goes unseen. */
  function Lost(run: seq<Event>, uid: string, up: bool): nat {
    if run == [] then 0
    else
      var most := run[..|run| - 1];
      var w := After(most);
      var c, p := Side(Of(w.counters, uid), up), Side(Of(w.previous, uid), up);
      Lost(most, uid, up) +
      match run[|run| - 1]
      case Restart => Delta(c, p)
      case Move(v, bytes) => if v == uid && c < p <= c + Side(bytes, up) then p else 0
      case _ => 0
  }

  /** Every byte moved is reported, still to be reported, or lost, and nothing is reported twice. */
  lemma {:induction false} DeltasAccount(run: seq<Event>, uid: string, up: bool)
    ensures Reported(run, uid, up) + Unreported(After(run), uid, up) + Lost(run, uid, up) == Moved(run, uid, up)
  {
    if run != [] {
      var most := run[..|run| - 1];
      DeltasAccount(most, uid, up);
      var w := After(most);
      match run[|run| - 1]
      case Move(v, bytes) =>
        if v == uid {
          assert Side(Of(After(run).counters, uid), up) == Side(Of(w.counters, uid), up) + Side(bytes, up);
        }
      case Restart =>
      case Poll =>
      case FailedPoll =>
    }
  }

  /** The deltas of a user never add up to more than the user moved. */
  lemma NeverOverReported(run: seq<Event>, uid: string, up: bool)
    ensures Reported(run, uid, up) <= Moved(run, uid, up)
  {
    DeltasAccount(run, uid, up);
  }

  predicate NoRestart(run: seq<Event>) {
    forall i :: 0 <= i < |run| ==> !run[i].Restart?
  }

  /** Without a restart the deltas add up to exactly the counter of the last poll, and nothing is lost. */
  lemma {:induction false} Telescopes(run: seq<Event>, uid: string, up: bool)
    requires NoRestart(run)
    ensures Side(Of(After(run).previous, uid), up) <= Side(Of(After(run).counters, uid), up)
    ensures Reported(run, uid, up) == Side(Of(After(run).previous, uid), up)
    ensures Moved(run, uid, up) == Side(Of(After(run).counters, uid), up)
  {
    if run != [] {
      Telescopes(run[..|run| - 1], uid, up);
    }
  }
}
