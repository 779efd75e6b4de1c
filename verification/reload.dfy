/** Coalesced configuration reloads (app/main.py: `_reload_xray`). The steps between two awaits are
    atomic; the reload itself runs in a thread, which first reads the database and later replaces
    the file. `requests` is also the version of the database: every request follows a change. */
module Reload {

  /** Where a spawned `_loop` is: created but not yet run, waiting for its reload thread (before and
      after that thread has read the database, and once it is done), or in the 0.2 s sleep.
      `ticket` is the number of requests made when the reload was started. */
  datatype Phase =
    | Scheduled
    | Reloading(ticket: nat)
    | Writing(ticket: nat, version: nat)
    | Finished
    | Sleeping

  /** `stranded`: a request came without an event loop while no loop was left. */
  datatype State = State(
    wanted: nat, running: bool, loops: seq<Phase>,
    requests: nat, reloads: nat, done: nat, disk: nat, stranded: bool)

  const INIT := State(0, false, [], 0, 0, 0, 0, false)

  datatype Event =
    | Request
    | BareRequest
    | Start(i: nat)
    | Read(i: nat)
    | Write(i: nat, ok: bool)
    | Resume(i: nat)
    | Wake(i: nat)

  function Without(loops: seq<Phase>, i: nat): seq<Phase>
    requires i < |loops|
  {
    loops[..i] + loops[i + 1..]
  }

  /** `while _reload_wanted > 0:` at loop `i`: take the work, or leave. */
  function Check(s: State, i: nat): State
    requires i < |s.loops|
  {
    if s.wanted > 0 then
      s.(wanted := 0, loops := s.loops[i := Reloading(s.requests)], reloads := s.reloads + 1)
    else s.(running := false, loops := Without(s.loops, i))
  }

  function Max(a: nat, b: nat): nat {
    if a < b then b else a
  }

  predicate Enabled(s: State, e: Event) {
    match e
    case Request => true
    case BareRequest => true
    case Start(i) => i < |s.loops| && s.loops[i].Scheduled?
    case Read(i) => i < |s.loops| && s.loops[i].Reloading?
    case Write(i, _) => i < |s.loops| && s.loops[i].Writing?
    case Resume(i) => i < |s.loops| && s.loops[i].Finished?
    case Wake(i) => i < |s.loops| && s.loops[i].Sleeping?
  }

  function Step(s: State, e: Event): State
    requires Enabled(s, e)
  {
    match e
    case Request =>
      var t := s.(wanted := s.wanted + 1, requests := s.requests + 1);
      if s.running then t else t.(loops := s.loops + [Scheduled], stranded := false)
    case BareRequest =>
      s.(wanted := s.wanted + 1, requests := s.requests + 1, stranded := s.stranded || s.loops == [])
    case Start(i) => Check(s.(running := true), i)
    case Read(i) => s.(loops := s.loops[i := Writing(s.loops[i].ticket, s.requests)])
    case Write(i, ok) =>
      s.(loops := s.loops[i := Finished], done := Max(s.done, s.loops[i].ticket),
         disk := if ok then s.loops[i].version else s.disk)
    case Resume(i) => if s.wanted > 0 then s.(loops := s.loops[i := Sleeping]) else Check(s, i)
    case Wake(i) => Check(s, i)
  }

  predicate Possible(s: State, run: seq<Event>)
    decreases run
  {
    run == [] || (Enabled(s, run[0]) && Possible(Step(s, run[0]), run[1..]))
  }

  function After(s: State, run: seq<Event>): State
    requires Possible(s, run)
    decreases run
  {
    if run == [] then s else After(Step(s, run[0]), run[1..])
  }

  // ---------------------------------------------------------------- the module's globals

  class Reloader {
    var wanted: nat
    var running: bool
    var loops: seq<Phase>
    var requests: nat
    var reloads: nat
    var done: nat
    var disk: nat
    var stranded: bool

    ghost function Now(): State
      reads this
    {
      State(wanted, running, loops, requests, reloads, done, disk, stranded)
    }

    constructor ()
      ensures Now() == INIT
    {
      wanted, running, loops, disk := 0, false, [], 0;
      requests, reloads, done, stranded := 0, 0, 0, false;
    }

    /** `_reload_xray()`, with or without a running event loop. */
    method ReloadXray(hasLoop: bool)
      modifies this
      ensures Now() == Step(old(Now()), if hasLoop then Request else BareRequest)
    {
      wanted := wanted + 1;
      requests := requests + 1;
      if !hasLoop {
        stranded := stranded || loops == [];
        return;
      }
      if running {
        return;
      }
      loops := loops + [Scheduled];
      stranded := false;
    }

    /** The loop condition, and what follows it up to the next await. */
    method CheckWanted(i: nat)
      requires i < |loops|
      modifies this
      ensures Now() == Check(old(Now()), i)
    {
      if wanted > 0 {
        wanted := 0;
        loops := loops[i := Reloading(requests)];
        reloads := reloads + 1;
      } else {
        loops := loops[..i] + loops[i + 1..];
        running := false;
      }
    }

    /** The first step of a loop. */
    method FirstStep(i: nat)
      requires Enabled(Now(), Start(i))
      modifies this
      ensures Now() == Step(old(Now()), Start(i))
    {
      running := true;
      CheckWanted(i);
    }

    /** The reload thread reads the database. */
    method ReadDatabase(i: nat)
      requires Enabled(Now(), Read(i))
      modifies this
      ensures Now() == Step(old(Now()), Read(i))
    {
      loops := loops[i := Writing(loops[i].ticket, requests)];
    }

    /** The reload thread replaces the file, restarts Xray and ends; an error is swallowed. */
    method WriteConfig(i: nat, ok: bool)
      requires Enabled(Now(), Write(i, ok))
      modifies this
      ensures Now() == Step(old(Now()), Write(i, ok))
      ensures disk == if ok then old(loops[i].version) else old(disk)
      ensures done >= old(loops[i].ticket) && requests == old(requests) && wanted == old(wanted)
    {
      if ok {
        disk := loops[i].version;
      }
      done := Max(done, loops[i].ticket);
      loops := loops[i := Finished];
    }

    /** After `await asyncio.to_thread(_do_reload)`. */
    method AfterReload(i: nat)
      requires Enabled(Now(), Resume(i))
      modifies this
      ensures Now() == Step(old(Now()), Resume(i))
    {
      if wanted > 0 {
        loops := loops[i := Sleeping];
      } else {
        CheckWanted(i);
      }
    }

    /** After `await asyncio.sleep(0.2)`. */
    method AfterSleep(i: nat)
      requires Enabled(Now(), Wake(i))
      modifies this
      ensures Now() == Step(old(Now()), Wake(i))
    {
      CheckWanted(i);
    }
  }

  // ---------------------------------------------------------------- no lost reload

  /** A reload that was started after the latest request is under way. */
  predicate Underway(s: State) {
    exists i :: 0 <= i < |s.loops| && (s.loops[i].Reloading? || s.loops[i].Writing?) && s.loops[i].ticket == s.requests
  }

  predicate Started(s: State) {
    exists i :: 0 <= i < |s.loops| && !s.loops[i].Scheduled?
  }

  ghost predicate Inv(s: State) {
    && (s.running ==> Started(s))
    && (s.wanted > 0 ==> s.loops != [] || s.stranded)
    && (s.wanted == 0 ==> s.done == s.requests || Underway(s))
    && s.reloads + s.wanted <= s.requests
    && s.done <= s.requests
    && (forall i :: 0 <= i < |s.loops| ==> s.loops[i].Reloading? ==> s.loops[i].ticket <= s.requests)
    && (forall i :: 0 <= i < |s.loops| ==> s.loops[i].Writing? ==>
          s.loops[i].ticket <= s.loops[i].version <= s.requests)
  }

  lemma CheckKeepsInv(s: State, i: nat)
    requires i < |s.loops| && !s.loops[i].Reloading? && !s.loops[i].Writing?
    requires Inv(s.(running := false))
    ensures Inv(Check(s, i))
  {
    var t := Check(s, i);
    if s.wanted > 0 {
      assert t.loops[i] == Reloading(s.requests);
      assert Underway(t);
    } else {
      forall j | 0 <= j < |t.loops|
        ensures t.loops[j] == s.loops[if j < i then j else j + 1]
      {
      }
      if Underway(s) {
        var k :|
          0 <= k < |s.loops| && (s.loops[k].Reloading? || s.loops[k].Writing?) && s.loops[k].ticket == s.requests;
        assert t.loops[if k < i then k else k - 1] == s.loops[k];
      }
    }
  }

  lemma RequestKeepsInv(s: State, e: Event)
    requires Inv(s) && (e.Request? || e.BareRequest?)
    ensures Inv(Step(s, e))
  {
    var t := Step(s, e);
    if s.running {
      var k :| 0 <= k < |s.loops| && !s.loops[k].Scheduled?;
      assert t.loops[k] == s.loops[k];
    }
  }

  lemma ThreadKeepsInv(s: State, e: Event)
    requires Inv(s) && Enabled(s, e) && (e.Read? || e.Write?)
    ensures Inv(Step(s, e))
  {
    var t := Step(s, e);
    if s.running {
      assert !t.loops[e.i].Scheduled?;
    }
    if Underway(s) {
      var k :| 0 <= k < |s.loops| && (s.loops[k].Reloading? || s.loops[k].Writing?) && s.loops[k].ticket == s.requests;
      if k != e.i {
        assert t.loops[k] == s.loops[k];
      } else if e.Read? {
        assert t.loops[k].ticket == s.requests;
      }
    }
  }

  lemma WakeKeepsInv(s: State, i: nat)
    requires Inv(s) && i < |s.loops| && s.loops[i].Finished? && s.wanted > 0
    ensures Inv(Step(s, Resume(i)))
  {
    var t := Step(s, Resume(i));
    assert !t.loops[i].Scheduled?;
  }

  /** Every step keeps the invariant, also when loops overlap. */
  lemma StepKeepsInv(s: State, e: Event)
    requires Inv(s) && Enabled(s, e)
    ensures Inv(Step(s, e))
  {
    match e
    case Request => RequestKeepsInv(s, e);
    case BareRequest => RequestKeepsInv(s, e);
    case Start(i) => CheckKeepsInv(s.(running := true), i);
    case Read(i) => ThreadKeepsInv(s, e);
    case Write(i, ok) => ThreadKeepsInv(s, e);
    case Resume(i) =>
      if s.wanted > 0 {
        WakeKeepsInv(s, i);
      } else {
        CheckKeepsInv(s, i);
      }
    case Wake(i) => CheckKeepsInv(s, i);
  }

  lemma {:induction false} RunKeepsInv(s: State, run: seq<Event>)
    requires Inv(s) && Possible(s, run)
    ensures Inv(After(s, run))
    decreases run
  {
    hide Inv, Step, Enabled;
    if run != [] {
      StepKeepsInv(s, run[0]);
      RunKeepsInv(Step(s, run[0]), run[1..]);
    }
  }

  lemma InitInv()
    ensures Inv(INIT)
  {
  }

  /** No lost reload: in every reachable state wanted work has a loop that will take it, unless it was
      requested outside the event loop with no loop left; and once no loop is left, the last reload
      to complete was started after the latest request. */
  lemma NoLostReload(run: seq<Event>)
    requires Possible(INIT, run)
    ensures var s := After(INIT, run);
      && (s.wanted > 0 ==> s.loops != [] || s.stranded)
      && (s.loops == [] && !s.stranded ==> s.done == s.requests)
  {
    hide Step, Enabled;
    InitInv();
    RunKeepsInv(INIT, run);
    var s := After(INIT, run);
    assert s.loops == [] ==> !Underway(s);
  }

  /** Work stranded by a request outside the event loop is taken up by the next request inside it. */
  lemma NextRequestTakesOver(run: seq<Event>)
    requires Possible(INIT, run)
    ensures var s := After(INIT, run);
      s.loops == [] ==> Step(s, Request).loops == [Scheduled] && !Step(s, Request).stranded
  {
    InitInv();
    RunKeepsInv(INIT, run);
  }

  /** The coalescing bound: there are never more reloads than requests. */
  lemma ReloadsBounded(run: seq<Event>)
    requires Possible(INIT, run)
    ensures After(INIT, run).reloads + After(INIT, run).wanted <= After(INIT, run).requests
  {
    InitInv();
    RunKeepsInv(INIT, run);
  }

  // ---------------------------------------------------------------- termination

  function PhaseWeight(p: Phase): nat {
    match p
    case Scheduled => 1
    case Reloading(_) => 5
    case Writing(_, _) => 4
    case Finished => 3
    case Sleeping => 2
  }

  function LoopsWeight(loops: seq<Phase>): nat {
    if loops == [] then 0 else PhaseWeight(loops[0]) + LoopsWeight(loops[1..])
  }

  /** What is left to do: bounds the number of steps until no loop is left. */
  function Remaining(s: State): nat {
    (if s.wanted > 0 then 10 else 0) + LoopsWeight(s.loops)
  }

  lemma {:induction false} WeightReplace(loops: seq<Phase>, i: nat, p: Phase)
    requires i < |loops|
    ensures LoopsWeight(loops[i := p]) == LoopsWeight(loops) - PhaseWeight(loops[i]) + PhaseWeight(p)
  {
    if i > 0 {
      assert loops[i := p][1..] == loops[1..][i - 1 := p];
      WeightReplace(loops[1..], i - 1, p);
    }
  }

  lemma {:induction false} WeightWithout(loops: seq<Phase>, i: nat)
    requires i < |loops|
    ensures LoopsWeight(Without(loops, i)) == LoopsWeight(loops) - PhaseWeight(loops[i])
  {
    if i == 0 {
      assert Without(loops, 0) == loops[1..];
    } else {
      assert Without(loops, i)[1..] == Without(loops[1..], i - 1);
      WeightWithout(loops[1..], i - 1);
    }
  }

  lemma CheckDecreases(s: State, i: nat)
    requires i < |s.loops| && (s.loops[i].Scheduled? || s.loops[i].Finished? || s.loops[i].Sleeping?)
    ensures Remaining(Check(s, i)) < Remaining(s)
  {
    WeightReplace(s.loops, i, Reloading(s.requests));
    WeightWithout(s.loops, i);
  }

  /** Every step that is not a request brings the loops closer to their end. */
  lemma StepDecreases(s: State, e: Event)
    requires Enabled(s, e) && !e.Request? && !e.BareRequest?
    ensures Remaining(Step(s, e)) < Remaining(s)
  {
    match e
    case Start(i) => CheckDecreases(s.(running := true), i);
    case Read(i) => WeightReplace(s.loops, i, Writing(s.loops[i].ticket, s.requests));
    case Write(i, ok) => WeightReplace(s.loops, i, Finished);
    case Resume(i) =>
      WeightReplace(s.loops, i, Sleeping);
      CheckDecreases(s, i);
    case Wake(i) => CheckDecreases(s, i);
  }

  /** The step a loop can always take: no loop ever waits for another one. */
  function NextStep(s: State, i: nat): Event
    requires i < |s.loops|
  {
    match s.loops[i]
    case Scheduled => Start(i)
    case Reloading(_) => Read(i)
    case Writing(_, _) => Write(i, true)
    case Finished => Resume(i)
    case Sleeping => Wake(i)
  }

  predicate Quiet(run: seq<Event>) {
    forall k :: 0 <= k < |run| ==> !run[k].Request? && !run[k].BareRequest?
  }

  /** Without further requests a run has at most `Remaining` steps, and as long as a loop is left it
      can go on; so every maximal run ends with no loop. */
  lemma {:induction false} QuietRunsEnd(s: State, run: seq<Event>)
    requires Possible(s, run) && Quiet(run)
    ensures |run| <= Remaining(s)
    ensures forall i :: 0 <= i < |After(s, run).loops| ==> Enabled(After(s, run), NextStep(After(s, run), i))
    decreases run
  {
    hide Step, Remaining;
    if run != [] {
      StepDecreases(s, run[0]);
      QuietRunsEnd(Step(s, run[0]), run[1..]);
    }
  }

  // ---------------------------------------------------------------- one loop at a time

  /** The guard of the next request: a loop has set the flag, or there is no loop. */
  predicate Guarded(s: State) {
    s.running || s.loops == []
  }

  /** Every request inside the event loop comes when the previous loop has taken its first step. */
  predicate Orderly(s: State, run: seq<Event>)
    requires Possible(s, run)
    decreases run
  {
    run == [] || ((run[0].Request? ==> Guarded(s)) && Orderly(Step(s, run[0]), run[1..]))
  }

  predicate NeverTwo(s: State, run: seq<Event>)
    requires Possible(s, run)
    decreases run
  {
    |s.loops| <= 1 && (run == [] || NeverTwo(Step(s, run[0]), run[1..]))
  }

  /** One loop, and the flag says whether it has started. */
  predicate Single(s: State) {
    && |s.loops| <= 1
    && (s.loops == [] ==> !s.running)
    && (s.loops != [] ==> (s.running <==> !s.loops[0].Scheduled?))
  }

  /** The file is at least as new as every completed reload, and what is being written is newer still. */
  predicate Newest(s: State) {
    && s.done <= s.disk <= s.requests
    && (s.loops != [] && s.loops[0].Writing? ==> s.disk <= s.loops[0].version)
  }

  predicate NoFailure(run: seq<Event>) {
    forall k :: 0 <= k < |run| && run[k].Write? ==> run[k].ok
  }

  lemma SingleStep(s: State, e: Event)
    requires Single(s) && Inv(s) && Enabled(s, e)
    ensures (e.Request? ==> Guarded(s)) ==> Single(Step(s, e))
    ensures e.Request? && !Guarded(s) ==> |Step(s, e).loops| == 2
  {
  }

  /** At most one loop, and so at most one reload, exists at any time exactly when every request
      comes with the flag set or with no loop left. */
  lemma {:induction false} OneLoopExactly(s: State, run: seq<Event>)
    requires Single(s) && Inv(s) && Possible(s, run)
    ensures NeverTwo(s, run) <==> Orderly(s, run)
    ensures Orderly(s, run) ==> Single(After(s, run))
    decreases run
  {
    hide Step, Enabled, Single, Inv;
    SingleCount(s);
    if run != [] {
      var t := Step(s, run[0]);
      SingleStep(s, run[0]);
      StepKeepsInv(s, run[0]);
      if run[0].Request? && !Guarded(s) {
        assert !NeverTwo(t, run[1..]);
      } else {
        OneLoopExactly(t, run[1..]);
      }
    }
  }

  lemma NewestStep(s: State, e: Event)
    requires Single(s) && Inv(s) && Newest(s) && Enabled(s, e)
    requires (e.Request? ==> Guarded(s)) && (e.Write? ==> e.ok)
    ensures Newest(Step(s, e))
  {
  }

  lemma {:induction false} OrderlyStaysNewest(s: State, run: seq<Event>)
    requires Single(s) && Inv(s) && Newest(s) && Possible(s, run) && Orderly(s, run) && NoFailure(run)
    ensures Newest(After(s, run))
    decreases run
  {
    hide Step, Enabled, Single, Inv, Newest;
    if run != [] {
      SingleStep(s, run[0]);
      StepKeepsInv(s, run[0]);
      NewestStep(s, run[0]);
      OrderlyStaysNewest(Step(s, run[0]), run[1..]);
    }
  }

  lemma SingleCount(s: State)
    requires Single(s)
    ensures |s.loops| <= 1
  {
  }

  lemma InitSingle()
    ensures Single(INIT)
  {
  }

  /** With orderly requests, and no reload that fails, the file left behind is the newest database
      version asked for. */
  lemma OrderlyRunWritesNewest(run: seq<Event>)
    requires Possible(INIT, run) && Orderly(INIT, run) && NoFailure(run)
    ensures var s := After(INIT, run);
      s.loops == [] && !s.stranded ==> s.disk == s.requests
  {
    hide Step, Enabled, Single, Inv;
    InitSingle();
    InitInv();
    OrderlyStaysNewest(INIT, run);
    NoLostReload(run);
  }

  lemma Then(s: State, e: Event, t: State, rest: seq<Event>)
    requires Enabled(s, e) && Step(s, e) == t && Possible(t, rest)
    ensures Possible(s, [e] + rest) && After(s, [e] + rest) == After(t, rest)
  {
    assert ([e] + rest)[1..] == rest;
  }

  const OVERTAKEN := State(0, false, [Writing(2, 2)], 2, 1, 0, 0, false)
  const OVERWRITTEN := State(0, false, [Writing(2, 2)], 3, 2, 3, 3, false)

  /** The second loop, with nothing left to do, clears the flag of the first. */
  lemma OvertakenRun(rest: seq<Event>) returns (run: seq<Event>)
    requires Possible(OVERTAKEN, rest)
    ensures Possible(INIT, run) && After(INIT, run) == After(OVERTAKEN, rest)
  {
    hide Possible, After;
    var s1 := State(1, false, [Scheduled], 1, 0, 0, 0, false);
    var s2 := State(2, false, [Scheduled, Scheduled], 2, 0, 0, 0, false);
    var s3 := State(0, true, [Reloading(2), Scheduled], 2, 1, 0, 0, false);
    var s4 := State(0, true, [Writing(2, 2), Scheduled], 2, 1, 0, 0, false);
    Then(s4, Start(1), OVERTAKEN, rest);
    run := [Start(1)] + rest;
    Then(s3, Read(0), s4, run);
    run := [Read(0)] + run;
    Then(s2, Start(0), s3, run);
    run := [Start(0)] + run;
    Then(s1, Request, s2, run);
    run := [Request] + run;
    Then(INIT, Request, s1, run);
    run := [Request] + run;
  }

  /** A third request starts a reload beside the first one, and it finishes first. */
  lemma OverwrittenRun(rest: seq<Event>) returns (run: seq<Event>)
    requires Possible(OVERWRITTEN, rest)
    ensures Possible(OVERTAKEN, run) && After(OVERTAKEN, run) == After(OVERWRITTEN, rest)
  {
    hide Possible, After;
    var s6 := State(1, false, [Writing(2, 2), Scheduled], 3, 1, 0, 0, false);
    var s7 := State(0, true, [Writing(2, 2), Reloading(3)], 3, 2, 0, 0, false);
    var s8 := State(0, true, [Writing(2, 2), Writing(3, 3)], 3, 2, 0, 0, false);
    var s9 := State(0, true, [Writing(2, 2), Finished], 3, 2, 3, 3, false);
    Then(s9, Resume(1), OVERWRITTEN, rest);
    run := [Resume(1)] + rest;
    Then(s8, Write(1, true), s9, run);
    run := [Write(1, true)] + run;
    Then(s7, Read(1), s8, run);
    run := [Read(1)] + run;
    Then(s6, Start(1), s7, run);
    run := [Start(1)] + run;
    Then(OVERTAKEN, Request, s6, run);
    run := [Request] + run;
  }

  /** Two requests before the first loop has run can leave a stale file: two reloads overlap, the
      older one writes last, and no loop is left to notice. */
  lemma OverlapLeavesStaleFile() returns (run: seq<Event>)
    ensures Possible(INIT, run)
    ensures After(INIT, run).loops == [] && After(INIT, run).disk == 2 && After(INIT, run).requests == 3
  {
    var s11 := State(0, false, [Finished], 3, 2, 3, 2, false);
    var s12 := State(0, false, [], 3, 2, 3, 2, false);
    Then(s11, Resume(0), s12, []);
    Then(OVERWRITTEN, Write(0, true), s11, [Resume(0)] + []);
    run := OverwrittenRun([Write(0, true)] + ([Resume(0)] + []));
    run := OvertakenRun(run);
  }

  // ---------------------------------------------------------------- every overlap can go wrong

  lemma {:induction false} Joined(s: State, a: seq<Event>, b: seq<Event>)
    requires Possible(s, a) && Possible(After(s, a), b)
    ensures Possible(s, a + b) && After(s, a + b) == After(After(s, a), b)
    decreases a
  {
    hide Step, Enabled;
    if a == [] {
      assert a + b == b;
    } else {
      assert (a + b)[1..] == a[1..] + b;
      Joined(Step(s, a[0]), a[1..], b);
    }
  }

  /** Two loops or more, of which the first is about to write. */
  predicate FirstWrites(s: State) {
    |s.loops| >= 2 && s.loops[0].Writing?
  }

  /** With work wanted, the first loop can be brought to the point where it writes. */
  lemma {:induction false} BringToWrite(s: State) returns (run: seq<Event>)
    requires Inv(s) && |s.loops| >= 2 && (s.wanted > 0 || s.loops[0].Reloading? || s.loops[0].Writing?)
    ensures Possible(s, run) && NoFailure(run) && FirstWrites(After(s, run)) && Inv(After(s, run))
    decreases Remaining(s)
  {
    hide Inv, Remaining, Possible, After;
    if s.loops[0].Writing? {
      run := [];
      NoSteps(s);
    } else {
      var e := NextStep(s, 0);
      StepKeepsInv(s, e);
      StepDecreases(s, e);
      run := BringToWrite(Step(s, e));
      Then(s, e, Step(s, e), run);
      run := [e] + run;
    }
  }

  lemma NoSteps(s: State)
    ensures Possible(s, []) && After(s, []) == s
  {
  }

  lemma DrainStep(s: State)
    requires FirstWrites(s)
    ensures var i := |s.loops| - 1;
      var t := Step(s, NextStep(s, i));
      && t.loops != [] && t.loops[0] == s.loops[0]
      && (|t.loops| == 1 ==> !t.running && t.wanted == 0)
  {
  }

  /** All other loops can come to their end before it does, and the last of them clears the flag. */
  lemma {:induction false} DrainOthers(s: State) returns (run: seq<Event>)
    requires Inv(s) && FirstWrites(s)
    ensures Possible(s, run) && NoFailure(run) && Inv(After(s, run))
    ensures var t := After(s, run); t.loops == [s.loops[0]] && !t.running && t.wanted == 0
    decreases Remaining(s)
  {
    hide Inv, Remaining, Possible, After, Step;
    var i := |s.loops| - 1;
    var e := NextStep(s, i);
    var t := Step(s, e);
    StepKeepsInv(s, e);
    StepDecreases(s, e);
    DrainStep(s);
    if |t.loops| == 1 {
      run := [];
      NoSteps(t);
    } else {
      run := DrainOthers(t);
    }
    Then(s, e, t, run);
    run := [e] + run;
  }

  /** One more request is served before the write, which then replaces the newer file. */
  lemma LateWrite(s: State) returns (run: seq<Event>)
    requires Inv(s) && |s.loops| == 1 && s.loops[0].Writing? && !s.running && s.wanted == 0
    ensures Possible(s, run) && NoFailure(run)
    ensures var t := After(s, run); t.loops == [] && !t.stranded && t.disk < t.requests
  {
    hide Possible, After;
    var w, n := s.loops[0], s.requests + 1;
    var s1 := s.(wanted := 1, requests := n, loops := [w, Scheduled], stranded := false);
    var s2 := s1.(wanted := 0, running := true, loops := [w, Reloading(n)], reloads := s.reloads + 1);
    var s3 := s2.(loops := [w, Writing(n, n)]);
    var s4 := s3.(loops := [w, Finished], done := Max(s.done, n), disk := n);
    var s5 := s4.(loops := [w], running := false);
    var s6 := s5.(loops := [Finished], done := Max(s5.done, w.ticket), disk := w.version);
    var s7 := s6.(loops := []);
    NoSteps(s7);
    Then(s6, Resume(0), s7, []);
    run := [Resume(0)] + [];
    Then(s5, Write(0, true), s6, run);
    run := [Write(0, true)] + run;
    Then(s4, Resume(1), s5, run);
    run := [Resume(1)] + run;
    Then(s3, Write(1, true), s4, run);
    run := [Write(1, true)] + run;
    Then(s2, Read(1), s3, run);
    run := [Read(1)] + run;
    Then(s1, Start(1), s2, run);
    run := [Start(1)] + run;
    Then(s, Request, s1, run);
    run := [Request] + run;
  }

  /** Whenever a request comes in the event loop while an earlier loop is there and the flag is not
      set, the run can go on, without any failure, to a stale file with no loop left. */
  lemma UnguardedCanGoStale(run: seq<Event>) returns (more: seq<Event>)
    requires Possible(INIT, run) && !Guarded(After(INIT, run))
    ensures NoFailure(more) && Possible(INIT, run + ([Request] + more))
    ensures var t := After(INIT, run + ([Request] + more)); t.loops == [] && !t.stranded && t.disk < t.requests
  {
    hide Inv, Possible, After;
    InitInv();
    RunKeepsInv(INIT, run);
    var s := After(INIT, run);
    var t := Step(s, Request);
    StepKeepsInv(s, Request);
    var a := BringToWrite(t);
    var b := DrainOthers(After(t, a));
    var c := LateWrite(After(After(t, a), b));
    Joined(After(t, a), b, c);
    Joined(t, a, b + c);
    more := a + (b + c);
    Then(s, Request, t, more);
    Joined(INIT, run, [Request] + more);
  }
}
