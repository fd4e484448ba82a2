/** Resource reservations of concurrent fault drills (scripts/fault_drill_harness.py).

    Each step below is one critical section of a drill, or the failure of its setup, which
    runs between the two critical sections and outside the block that releases. */
module DrillProtocol {
  import opened DrillRegistry

  // ---- The shared set, under its lock.

  class Reservations {
    var active: set<string>

    constructor ()
      ensures active == {}
    {
      active := {};
    }

    method TryReserve(ids: seq<string>) returns (ok: bool)
      modifies this
      ensures ok <==> forall i :: 0 <= i < |ids| ==> ids[i] !in old(active)
      ensures active == if ok then old(active) + Elements(ids) else old(active)
      ensures forall drills: seq<Drill>, s: State, k: nat ::
                k < |drills| && ids == Ids(drills[k]) && s.active == old(active) && PhaseOf(s, k) == Waiting ==>
                var t := Apply(drills, s, Reserve(k)); active == t.active && PhaseOf(t, k) == if ok then SettingUp else Refused
    {
      var i := 0;
      while i < |ids|
        invariant 0 <= i <= |ids| && active == old(active)
        invariant forall j :: 0 <= j < i ==> ids[j] !in active
      {
        if ids[i] in active { return false; }
        i := i + 1;
      }
      active := active + Elements(ids);
      ok := true;
    }

    method Release(ids: seq<string>)
      modifies this
      ensures active == old(active) - Elements(ids)
      ensures forall drills: seq<Drill>, s: State, k: nat ::
                k < |drills| && ids == Ids(drills[k]) && s.active == old(active) && PhaseOf(s, k) == Working ==>
                Apply(drills, s, Finish(k)).active == active
    {
      var i := 0;
      while i < |ids|
        invariant 0 <= i <= |ids| && active == old(active) - Elements(ids[..i])
      {
        assert Elements(ids[..i + 1]) == Elements(ids[..i]) + {ids[i]};
        active := active - {ids[i]};
        i := i + 1;
      }
      assert ids[..i] == ids;
    }
  }

  function Elements(ids: seq<string>): set<string> { set i | 0 <= i < |ids| :: ids[i] }

  // ---- Interleavings.

  datatype Drill = Drill(scenario: string, seed: nat, worker: nat, count: nat)

  function Ids(d: Drill): seq<string> { ResourceIds(d.scenario, d.seed, d.worker, d.count) }

  datatype Phase = Waiting | Refused | SettingUp | Working | Crashed | Finished

  // The drills that have started are in `phase`; the others wait.
  datatype State = State(active: set<string>, phase: map<int, Phase>)

  datatype Step = Reserve(k: nat) | SetUp(k: nat) | Crash(k: nat) | Finish(k: nat)

  function PhaseOf(s: State, k: int): Phase { if k in s.phase then s.phase[k] else Waiting }

  predicate Holds(p: Phase) { p == SettingUp || p == Working || p == Crashed }

  predicate Running(p: Phase) { p == SettingUp || p == Working }

  const START: State := State({}, map[])

  function Apply(drills: seq<Drill>, s: State, step: Step): State {
    if step.k >= |drills| then s
    else
      var ids := Elements(Ids(drills[step.k]));
      match step
      case Reserve(k) =>
        if PhaseOf(s, k) != Waiting then s
        else if ids !! s.active then State(s.active + ids, s.phase[k := SettingUp])
        else State(s.active, s.phase[k := Refused])
      case SetUp(k) => if PhaseOf(s, k) == SettingUp then State(s.active, s.phase[k := Working]) else s
      case Crash(k) => if PhaseOf(s, k) == SettingUp then State(s.active, s.phase[k := Crashed]) else s
      case Finish(k) => if PhaseOf(s, k) == Working then State(s.active - ids, s.phase[k := Finished]) else s
  }

  function Execute(drills: seq<Drill>, s: State, steps: seq<Step>): State
    decreases |steps|
  {
    if steps == [] then s else Execute(drills, Apply(drills, s, steps[0]), steps[1..])
  }

  // ---- What every step keeps.

  predicate Shares(drills: seq<Drill>, j: nat, k: nat)
    requires j < |drills| && k < |drills|
  {
    !(Elements(Ids(drills[j])) !! Elements(Ids(drills[k])))
  }

  /** The active ids are those of the holders, and no two holders share one. */
  ghost predicate Invariant(drills: seq<Drill>, s: State) {
    && (forall x :: x in s.active <==> exists k :: Holder(drills, s, k) && x in Elements(Ids(drills[k])))
    && (forall j, k :: Holder(drills, s, j) && Holder(drills, s, k) && j != k ==> !Shares(drills, j, k))
  }

  ghost predicate Holder(drills: seq<Drill>, s: State, k: int) { 0 <= k < |drills| && Holds(PhaseOf(s, k)) }

  lemma Kept(drills: seq<Drill>, s: State, step: Step)
    requires Invariant(drills, s)
    ensures Invariant(drills, Apply(drills, s, step))
  {
    hide Elements, Ids;
    if step.k < |drills| {
      match step
      case Reserve(k) => ReserveKept(drills, s, k);
      case SetUp(k) => PhaseKept(drills, s, Apply(drills, s, step));
      case Crash(k) => PhaseKept(drills, s, Apply(drills, s, step));
      case Finish(k) => FinishKept(drills, s, k);
    }
  }

  lemma PhaseKept(drills: seq<Drill>, s: State, t: State)
    requires Invariant(drills, s) && t.active == s.active
    requires forall k :: Holder(drills, t, k) <==> Holder(drills, s, k)
    ensures Invariant(drills, t)
  {
    hide Elements, Ids, PhaseOf;
  }

  lemma ReserveKept(drills: seq<Drill>, s: State, k: nat)
    requires Invariant(drills, s) && k < |drills|
    ensures Invariant(drills, Apply(drills, s, Reserve(k)))
  {
    hide Elements, Ids;
    var t := Apply(drills, s, Reserve(k));
    var ids := Elements(Ids(drills[k]));
    if PhaseOf(s, k) == Waiting && ids !! s.active {
      forall j | Holder(drills, s, j) ensures j != k && Elements(Ids(drills[j])) <= s.active && Elements(Ids(drills[j])) !! ids {}
      forall j ensures Holder(drills, t, j) <==> Holder(drills, s, j) || j == k {}
      forall x ensures x in t.active <==> exists j :: Holder(drills, t, j) && x in Elements(Ids(drills[j])) {
        if x in s.active {
          var j :| Holder(drills, s, j) && x in Elements(Ids(drills[j]));
          assert Holder(drills, t, j);
        } else if x in ids {
          assert Holder(drills, t, k);
        }
      }
    } else {
      forall j ensures Holder(drills, t, j) <==> Holder(drills, s, j) {}
      PhaseKept(drills, s, t);
    }
  }

  lemma FinishKept(drills: seq<Drill>, s: State, k: nat)
    requires Invariant(drills, s) && k < |drills|
    ensures Invariant(drills, Apply(drills, s, Finish(k)))
  {
    hide Elements, Ids;
    var t := Apply(drills, s, Finish(k));
    var ids := Elements(Ids(drills[k]));
    if PhaseOf(s, k) == Working {
      assert Holder(drills, s, k);
      forall j ensures Holder(drills, t, j) <==> Holder(drills, s, j) && j != k {}
      forall x ensures x in t.active <==> exists j :: Holder(drills, t, j) && x in Elements(Ids(drills[j])) {
        if x in t.active {
          var j :| Holder(drills, s, j) && x in Elements(Ids(drills[j]));
          assert Holder(drills, t, j);
        }
        if j :| Holder(drills, t, j) && x in Elements(Ids(drills[j])) {
          assert Holder(drills, s, j) && !Shares(drills, j, k);
          assert x in s.active;
        }
      }
    }
  }

  lemma {:induction false} Reachable(drills: seq<Drill>, s: State, steps: seq<Step>)
    requires Invariant(drills, s)
    ensures Invariant(drills, Execute(drills, s, steps))
    decreases |steps|
  {
    hide Invariant, Apply;
    if steps != [] {
      Kept(drills, s, steps[0]);
      Reachable(drills, Apply(drills, s, steps[0]), steps[1..]);
    }
  }

  lemma StartHolds(drills: seq<Drill>)
    ensures Invariant(drills, START)
  {
  }

  /** In every interleaving, no two running drills hold the same resource id, and every id of
      a running drill is reserved. */
  lemma NoTwoShare(drills: seq<Drill>, steps: seq<Step>, j: nat, k: nat)
    requires j < |drills| && k < |drills| && j != k
    ensures var s := Execute(drills, START, steps);
            && (Running(PhaseOf(s, j)) ==> Elements(Ids(drills[j])) <= s.active)
            && (Running(PhaseOf(s, j)) && Running(PhaseOf(s, k)) ==> !Shares(drills, j, k))
  {
    hide Elements, Ids, Execute;
    StartHolds(drills);
    Reachable(drills, START, steps);
    var s := Execute(drills, START, steps);
    if Running(PhaseOf(s, j)) { assert Holder(drills, s, j); }
    if Running(PhaseOf(s, k)) { assert Holder(drills, s, k); }
  }

  /** A step of one drill never takes an id away from another that holds it; in particular a
      refused drill changes nothing. */
  lemma NeverTakenAway(drills: seq<Drill>, s: State, step: Step, j: nat)
    requires Invariant(drills, s) && Holder(drills, s, j) && step.k != j
    ensures Elements(Ids(drills[j])) <= Apply(drills, s, step).active
    ensures PhaseOf(s, step.k) == Refused ==> Apply(drills, s, step) == s
    ensures step.k < |drills| && step.Reserve? && PhaseOf(s, step.k) == Waiting && Shares(drills, step.k, j) ==>
              Apply(drills, s, step) == State(s.active, s.phase[step.k := Refused])
  {
    hide Elements, Ids;
    assert Elements(Ids(drills[j])) <= s.active;
    if step.Finish? && step.k < |drills| && PhaseOf(s, step.k) == Working {
      assert Holder(drills, s, step.k) && !Shares(drills, j, step.k);
    }
  }

  /** A drill is refused exactly when it shares an id with a drill that holds it. */
  lemma RefusedExactly(drills: seq<Drill>, steps: seq<Step>, k: nat)
    requires k < |drills| && PhaseOf(Execute(drills, START, steps), k) == Waiting
    ensures var s := Execute(drills, START, steps);
            PhaseOf(Apply(drills, s, Reserve(k)), k) == Refused <==> exists j :: Holder(drills, s, j) && Shares(drills, k, j)
  {
    hide Elements, Ids, Execute;
    StartHolds(drills);
    Reachable(drills, START, steps);
    var s := Execute(drills, START, steps);
    var ids := Elements(Ids(drills[k]));
    if !(ids !! s.active) {
      var x :| x in ids && x in s.active;
      var j :| Holder(drills, s, j) && x in Elements(Ids(drills[j]));
      assert Shares(drills, k, j);
    }
    if j :| Holder(drills, s, j) && Shares(drills, k, j) {
      assert Elements(Ids(drills[j])) <= s.active;
    }
  }

  /** Once every drill has ended, an id is still reserved exactly when the setup of a drill
      that held it had failed. */
  lemma LeakedExactly(drills: seq<Drill>, steps: seq<Step>)
    requires forall k :: 0 <= k < |drills| ==> !Running(PhaseOf(Execute(drills, START, steps), k))
    ensures var s := Execute(drills, START, steps);
            forall x :: x in s.active <==> exists k :: 0 <= k < |drills| && PhaseOf(s, k) == Crashed && x in Elements(Ids(drills[k]))
  {
    hide Elements, Ids, Execute;
    StartHolds(drills);
    Reachable(drills, START, steps);
    var s := Execute(drills, START, steps);
    forall x ensures x in s.active <==> exists k :: 0 <= k < |drills| && PhaseOf(s, k) == Crashed && x in Elements(Ids(drills[k])) {
      if x in s.active {
        var k :| Holder(drills, s, k) && x in Elements(Ids(drills[k]));
        assert PhaseOf(s, k) == Crashed;
      }
      if k :| 0 <= k < |drills| && PhaseOf(s, k) == Crashed && x in Elements(Ids(drills[k])) {
        assert Holder(drills, s, k);
      }
    }
  }

  /** Such a run: one drill reserves and its setup fails, and its ids stay reserved for good. */
  lemma CrashLeaks(d: Drill, steps: seq<Step>)
    requires d.count >= 1
    ensures var s := Execute([d], START, [Reserve(0), Crash(0)]);
            PhaseOf(s, 0) == Crashed && s.active == Elements(Ids(d)) != {} && Execute([d], s, steps) == s
  {
    var reserved := Apply([d], START, Reserve(0));
    assert [Reserve(0), Crash(0)][1..] == [Crash(0)] && [Crash(0)][1..] == [];
    assert Ids(d)[0] in Elements(Ids(d));
    NothingMore([d], Apply([d], reserved, Crash(0)), steps);
  }

  lemma {:induction false} NothingMore(drills: seq<Drill>, s: State, steps: seq<Step>)
    requires forall k :: 0 <= k < |drills| ==> PhaseOf(s, k) == Crashed
    ensures Execute(drills, s, steps) == s
    decreases |steps|
  {
    hide Elements, Ids;
    if steps != [] { NothingMore(drills, s, steps[1..]); }
  }

  predicate InRange(d: Drill) { d.seed < LIMIT && d.worker < LIMIT }

  /** Two drills conflict exactly when the slugs of their scenarios, their seeds and their
      workers agree and both ask for a resource. */
  lemma ConflictExactly(drills: seq<Drill>, j: nat, k: nat)
    requires j < |drills| && k < |drills| && InRange(drills[j]) && InRange(drills[k])
    ensures Shares(drills, j, k) <==>
            var d, e := drills[j], drills[k];
            Slug(d.scenario) == Slug(e.scenario) && d.seed == e.seed && d.worker == e.worker && d.count >= 1 && e.count >= 1
  {
    hide Slug, ResourceIds;
    var d, e := drills[j], drills[k];
    SharedExactly(d.scenario, d.seed, d.worker, d.count, e.scenario, e.seed, e.worker, e.count);
    forall x: string ensures (x in Elements(Ids(d)) <==> x in Ids(d)) && (x in Elements(Ids(e)) <==> x in Ids(e)) {}
  }

  /** Drills with colon-free scenario ids conflict only when scenario, seed and worker agree. */
  lemma ConflictMeansSameDrill(drills: seq<Drill>, j: nat, k: nat)
    requires j < |drills| && k < |drills| && InRange(drills[j]) && InRange(drills[k]) && Shares(drills, j, k)
    requires ':' !in drills[j].scenario && ':' !in drills[k].scenario
    ensures drills[j].scenario == drills[k].scenario && drills[j].seed == drills[k].seed && drills[j].worker == drills[k].worker
  {
    hide Shares, Slug;
    ConflictExactly(drills, j, k);
    SlugOfPlain(drills[j].scenario);
    SlugOfPlain(drills[k].scenario);
  }

  /** So drills that differ pairwise in slug, seed or worker are never refused, in any interleaving. */
  lemma DifferentDrillsRun(drills: seq<Drill>, steps: seq<Step>, k: nat)
    requires forall i :: 0 <= i < |drills| ==> InRange(drills[i])
    requires forall i, j :: 0 <= i < j < |drills| ==>
               Slug(drills[i].scenario) != Slug(drills[j].scenario) || drills[i].seed != drills[j].seed || drills[i].worker != drills[j].worker
    requires k < |drills| && PhaseOf(Execute(drills, START, steps), k) == Waiting
    ensures PhaseOf(Apply(drills, Execute(drills, START, steps), Reserve(k)), k) == SettingUp
  {
    hide Elements, Ids, Execute, Slug;
    RefusedExactly(drills, steps, k);
    var s := Execute(drills, START, steps);
    if j :| Holder(drills, s, j) && Shares(drills, k, j) {
      ConflictExactly(drills, k, j);
    }
  }
}
