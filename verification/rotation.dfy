/** Rotating Reality short ids (app/reality.py: `accepted_short_ids`, `rotate_short_id`,
    `_set_meta_list`). Minted ids are handed in; "fresh" means they have not been seen before. */
module Rotation {
  import opened Text

  const KEPT := 12
  const BATCH_LIMIT := 8

  /** `values[-12:]` */
  function Last12(list: seq<string>): seq<string> {
    if |list| <= KEPT then list else list[|list| - KEPT..]
  }

  function Push(out: seq<string>, value: string): seq<string> {
    if value in out then out else out + [value]
  }

  /** The values in order of first appearance. */
  function Deduped(values: seq<string>): seq<string> {
    if values == [] then [] else Push(Deduped(values[..|values| - 1]), values[|values| - 1])
  }

  /** `[s for s in list if s != sid]` */
  function WithoutId(list: seq<string>, sid: string): seq<string> {
    if list == [] then [] else (if list[0] == sid then [] else [list[0]]) + WithoutId(list[1..], sid)
  }

  /** `max(1, min(int(count or 1), 8))` */
  function BatchSize(count: int): nat
    ensures 1 <= BatchSize(count) <= BATCH_LIMIT
    ensures 1 <= count <= 8 ==> BatchSize(count) == count
    ensures count <= 0 ==> BatchSize(count) == 1
    ensures count > 8 ==> BatchSize(count) == 8
  {
    var c := if count == 0 then 1 else count;
    if c < 1 then 1 else if c > BATCH_LIMIT then BATCH_LIMIT else c
  }

  /** The stored id, the stored grace list, and the id in the settings, which links are built with. */
  datatype Store = Store(sid: string, sids: seq<string>, published: string)

  /** `accepted_short_ids()` */
  function Accepted(s: Store): seq<string> {
    Deduped(s.sids + [s.sid])
  }

  function Rotated(s: Store, keepGrace: bool, minted: seq<string>): Store
    requires minted != []
  {
    var grace := if keepGrace then Accepted(s) else [];
    Store(minted[0], Last12(WithoutId(grace, minted[0]) + minted), minted[0])
  }

  method OtherIds(list: seq<string>, sid: string) returns (out: seq<string>)
    ensures out == WithoutId(list, sid)
  {
    out := [];
    for i := 0 to |list|
      invariant out + WithoutId(list[i..], sid) == WithoutId(list, sid)
    {
      if list[i] != sid {
        out := out + [list[i]];
      }
    }
  }

  class Reality {
    var sid: string
    var sids: seq<string>
    var published: string

    function Now(): Store
      reads this
    {
      Store(sid, sids, published)
    }

    constructor (s: Store)
      ensures Now() == s
    {
      sid, sids, published := s.sid, s.sids, s.published;
    }

    /** `accepted_short_ids` */
    method AcceptedShortIds() returns (out: seq<string>)
      ensures out == Accepted(Now()) && out != []
    {
      var ids := sids + [sid];
      out := [];
      for i := 0 to |ids|
        invariant out == Deduped(ids[..i])
        invariant i > 0 ==> out != []
      {
        assert ids[..i + 1][..i] == ids[..i];
        if ids[i] !in out {
          out := out + [ids[i]];
        }
      }
      assert ids[..|ids|] == ids;
    }

    /** `rotate_short_id` */
    method RotateShortId(count: int, keepGrace: bool, minted: seq<string>)
      requires |minted| == BatchSize(count)
      modifies this
      ensures Now() == Rotated(old(Now()), keepGrace, minted)
    {
      var before: seq<string> := [];
      if keepGrace {
        before := AcceptedShortIds();
      }
      sid := minted[0];
      var grace := OtherIds(before, sid);
      var list := grace + minted;
      sids := if |list| > 12 then list[|list| - 12..] else list;
      published := sid;
    }
  }

  // ---------------------------------------------------------------- runs

  datatype Rotate = Rotate(keepGrace: bool, minted: seq<string>)

  predicate Batches(run: seq<Rotate>) {
    forall i :: 0 <= i < |run| ==> 1 <= |run[i].minted| <= BATCH_LIMIT
  }

  function After(s: Store, run: seq<Rotate>): Store
    requires Batches(run)
  {
    if run == [] then s
    else
      var last := run[|run| - 1];
      Rotated(After(s, run[..|run| - 1]), last.keepGrace, last.minted)
  }

  /** Every id since the last rotation without grace: the ids accepted at first, then all minted ones. */
  function History(s: Store, run: seq<Rotate>): seq<string> {
    if run == [] then Accepted(s)
    else
      var last := run[|run| - 1];
      (if last.keepGrace then History(s, run[..|run| - 1]) else []) + last.minted
  }

  /** Minted ids are new: the history never repeats one. */
  predicate Fresh(s: Store, run: seq<Rotate>) {
    forall n :: 0 <= n <= |run| ==> Distinct(History(s, run[..n]))
  }

  lemma {:induction false} DedupedDistinct(values: seq<string>)
    ensures Distinct(Deduped(values))
    ensures forall v :: v in Deduped(values) <==> v in values
  {
    if values != [] {
      DedupedDistinct(values[..|values| - 1]);
    }
  }

  /** Values are kept in order of first appearance: reading on only appends. */
  lemma {:induction false} DedupedGrows(values: seq<string>, i: nat)
    requires i <= |values|
    ensures Deduped(values[..i]) <= Deduped(values)
    decreases |values|
  {
    if i < |values| {
      assert values[..|values| - 1][..i] == values[..i];
      DedupedGrows(values[..|values| - 1], i);
    } else {
      assert values[..i] == values;
    }
  }

  lemma {:induction false} DedupedSame(values: seq<string>)
    requires Distinct(values)
    ensures Deduped(values) == values
  {
    if values != [] {
      DedupedSame(values[..|values| - 1]);
    }
  }

  lemma {:induction false} WithoutAbsent(list: seq<string>, sid: string)
    requires sid !in list
    ensures WithoutId(list, sid) == list
  {
    if list != [] {
      WithoutAbsent(list[1..], sid);
    }
  }

  /** The accepted ids never repeat, and always contain the id that is stored and the grace list. */
  lemma AcceptedDistinct(s: Store)
    ensures Distinct(Accepted(s)) && s.sid in Accepted(s)
    ensures forall v :: v in s.sids ==> v in Accepted(s)
  {
    DedupedDistinct(s.sids + [s.sid]);
  }

  lemma Last12Append(a: seq<string>, b: seq<string>)
    ensures Last12(Last12(a) + b) == Last12(a + b)
  {
  }

  lemma DistinctEnd(a: seq<string>, b: seq<string>)
    requires Distinct(a + b) && b != []
    ensures b[0] !in a
  {
    var all := a + b;
    assert all[|a|] == b[0];
    assert forall i :: 0 <= i < |a| ==> all[i] == a[i];
  }

  /** After the first rotation the accepted list is the stored list itself. */
  lemma AcceptedIsStored(s: Store)
    requires Distinct(s.sids) && s.sid in s.sids
    ensures Accepted(s) == s.sids
  {
    DedupedSame(s.sids);
    assert (s.sids + [s.sid])[..|s.sids|] == s.sids;
  }

  /** What is accepted now, as a part of the history. */
  predicate Window(s: Store, history: seq<string>) {
    Distinct(s.sids) && s.sid in s.sids && s.sids == Last12(history) && s.published == s.sid
  }

  lemma RotateKeepsWindow(s: Store, history: seq<string>, minted: seq<string>)
    requires Accepted(s) == Last12(history) || Accepted(s) == history
    requires 1 <= |minted| <= BATCH_LIMIT && Distinct(history + minted)
    ensures Window(Rotated(s, true, minted), history + minted)
  {
    var accepted := Accepted(s);
    DistinctEnd(history, minted);
    assert minted[0] !in accepted;
    WithoutAbsent(accepted, minted[0]);
    Last12Append(history, minted);
    TailOf(history + minted, minted);
  }

  /** The last twelve of a list without repetitions do not repeat, and contain its last batch. */
  lemma TailOf(list: seq<string>, batch: seq<string>)
    requires Distinct(list) && 1 <= |batch| <= BATCH_LIMIT && |batch| <= |list| && list[|list| - |batch|..] == batch
    ensures Distinct(Last12(list)) && batch[0] in Last12(list)
  {
    var last := Last12(list);
    assert last[|last| - |batch|] == list[|list| - |batch|] == batch[0];
  }

  lemma {:induction false} RunKeepsWindow(s: Store, run: seq<Rotate>)
    requires Batches(run) && Fresh(s, run) && run != []
    ensures Window(After(s, run), History(s, run))
  {
    var most, last := run[..|run| - 1], run[|run| - 1];
    assert run[..|run|] == run;
    assert Distinct(History(s, run));
    if !last.keepGrace {
      assert [] + last.minted == last.minted;
      TailOf(last.minted, last.minted);
    } else if most == [] {
      RotateKeepsWindow(s, Accepted(s), last.minted);
    } else {
      assert forall n :: 0 <= n <= |most| ==> most[..n] == run[..n];
      RunKeepsWindow(s, most);
      AcceptedIsStored(After(s, most));
      RotateKeepsWindow(After(s, most), History(s, most), last.minted);
    }
  }

  /** Over any sequence of rotations with fresh ids: the stored list is the last twelve of the history,
      nothing in it repeats, and the published id is accepted. */
  lemma GraceWindow(s: Store, run: seq<Rotate>)
    requires Batches(run) && Fresh(s, run) && run != []
    ensures var t := After(s, run);
      t.sids == Last12(History(s, run)) && Accepted(t) == t.sids && Distinct(t.sids) && t.published in Accepted(t)
  {
    RunKeepsWindow(s, run);
    AcceptedIsStored(After(s, run));
  }

  lemma InLast12(list: seq<string>, p: nat)
    requires Distinct(list) && p < |list|
    ensures list[p] in Last12(list) <==> |list| - p <= KEPT
  {
    var last := Last12(list);
    var start := |list| - |last|;
    assert forall i :: 0 <= i < |last| ==> last[i] == list[start + i];
    if p >= start {
      assert last[p - start] == list[p];
    }
  }

  /** An id of the history is still accepted exactly when it is one of the last twelve. */
  lemma AcceptedExactly(s: Store, run: seq<Rotate>, p: nat)
    requires Batches(run) && Fresh(s, run) && run != [] && p < |History(s, run)|
    ensures History(s, run)[p] in Accepted(After(s, run)) <==> |History(s, run)| - p <= KEPT
  {
    hide History, After, Last12;
    GraceWindow(s, run);
    assert run[..|run|] == run;
    InLast12(History(s, run), p);
  }

  function Minted(run: seq<Rotate>): nat {
    if run == [] then 0 else Minted(run[..|run| - 1]) + |run[|run| - 1].minted|
  }

  predicate KeepGrace(run: seq<Rotate>) {
    forall i :: 0 <= i < |run| ==> run[i].keepGrace
  }

  lemma {:induction false} HistoryGrows(s: Store, first: seq<Rotate>, later: seq<Rotate>)
    requires KeepGrace(later)
    ensures History(s, first) <= History(s, first + later)
    ensures |History(s, first + later)| == |History(s, first)| + Minted(later)
  {
    if later == [] {
      assert first + later == first;
    } else {
      var most := later[..|later| - 1];
      assert (first + later)[..|first + later| - 1] == first + most;
      HistoryGrows(s, first, most);
    }
  }

  /** The id published by a batch of `n` is accepted for as long as at most 12 - n further ids have
      been minted, and no longer. */
  lemma PublishedLifetime(s: Store, first: seq<Rotate>, later: seq<Rotate>)
    requires first != [] && Batches(first + later) && Fresh(s, first + later) && KeepGrace(later)
    ensures var batch := first[|first| - 1].minted;
      batch != [] &&
      (batch[0] in Accepted(After(s, first + later)) <==> Minted(later) <= KEPT - |batch|)
  {
    var run := first + later;
    var last := first[|first| - 1];
    assert run[|first| - 1] == last;
    HistoryGrows(s, first, later);
    var p := |History(s, first)| - |last.minted|;
    assert History(s, first)[p] == last.minted[0];
    AcceptedExactly(s, run, p);
  }
}
