/** The consultation budget (scripts/ask_sol.py).

    A call checks recursion, the git context, the capability and the dry-run flag, each
    outside the lock; then it reads, decides and rewrites the ledger in one critical section
    under an exclusive file lock.  The writes of a critical section are taken as one step. */
module Budget {
  import opened Sets
  import opened Text

  // ---- Keys.

  predicate Hex(s: string) { forall i :: 0 <= i < |s| ==> '0' <= s[i] <= '9' || 'a' <= s[i] <= 'f' }

  predicate Head(s: string) { |s| == 40 && Hex(s) }

  // The digest of the worktree: clean, or dirty with sixteen hexadecimal digits.
  predicate Digest(s: string) { s == "clean" || (|s| == 22 && s[..6] == "dirty:" && Hex(s[6..])) }

  datatype Situation = Situation(task: string, head: string, digest: string)

  predicate Proper(s: Situation) { Head(s.head) && Digest(s.digest) }

  // `task_id or "default"`
  function TaskOf(s: Situation): string { if s.task == "" then "default" else s.task }

  function KeyOf(s: Situation): string { TaskOf(s) + ":" + s.head + ":" + s.digest }

  lemma LastOf(s: Situation)
    requires Proper(s)
    ensures var k := KeyOf(s); (k[|k| - 1] == 'n' <==> s.digest == "clean") && |s.digest| == (if s.digest == "clean" then 5 else 22)
  {
  }

  /** Two situations share a key exactly when task, head and digest agree, whatever colons
      the task id holds. */
  lemma KeyExactly(s: Situation, t: Situation)
    requires Proper(s) && Proper(t)
    ensures KeyOf(s) == KeyOf(t) <==> SameSituation(s, t)
  {
    if KeyOf(s) == KeyOf(t) {
      LastOf(s);
      LastOf(t);
      CutEnd(TaskOf(s) + ":" + s.head + ":", TaskOf(t) + ":" + t.head + ":", s.digest, t.digest);
      CutEnd(TaskOf(s) + ":" + s.head, TaskOf(t) + ":" + t.head, ":", ":");
      CutEnd(TaskOf(s) + ":", TaskOf(t) + ":", s.head, t.head);
      CutEnd(TaskOf(s), TaskOf(t), ":", ":");
    }
  }

  predicate SameSituation(s: Situation, t: Situation) { TaskOf(s) == TaskOf(t) && s.head == t.head && s.digest == t.digest }

  // ---- The ledger.

  function Count(counts: map<string, nat>, key: string): nat { if key in counts then counts[key] else 0 }

  /** The file: missing or blank, a store of counts, or text that is no store. */
  datatype File = Blank | Store(counts: map<string, nat>) | Corrupt

  function CountsOf(f: File): map<string, nat> { if f.Store? then f.counts else map[] }

  datatype Decision = Permitted(n: nat) | Exhausted(n: nat) | Failed

  // One critical section: the file after it, and what it decides.
  function Decide(f: File, s: Situation, limit: int): (File, Decision) {
    var n := Count(CountsOf(f), KeyOf(s));
    if f.Corrupt? then (f, Failed)
    else if n >= limit then (f, Exhausted(n))
    else (Store(CountsOf(f)[KeyOf(s) := n + 1]), Permitted(n + 1))
  }

  // ---- Calls.

  datatype Call = Call(situation: Situation, recursive: bool, gitOk: bool, capable: bool, dryRun: bool)

  datatype Stop = Recursive | NoGitContext | Incapable | DryRun

  datatype Outcome = Halted(why: Stop) | Answered(d: Decision)

  // The check `why` stops the call and no check before it does.
  predicate StopsAt(c: Call, why: Stop) {
    && (why == Recursive ==> c.recursive)
    && (why == NoGitContext ==> !c.gitOk && !c.recursive)
    && (why == Incapable ==> !c.capable && c.gitOk && !c.recursive)
    && (why == DryRun ==> c.dryRun && c.capable && c.gitOk && !c.recursive)
  }

  class Tracker {
    var file: File

    constructor (f: File)
      ensures file == f
    {
      file := f;
    }

    method CheckAndRecord(s: Situation, limit: int) returns (d: Decision)
      modifies this
      ensures (file, d) == Decide(old(file), s, limit)
    {
      if file.Corrupt? { return Failed; }
      var store := CountsOf(file);
      var saved := if KeyOf(s) in store then store[KeyOf(s)] else 0;
      if saved >= limit { return Exhausted(saved); }
      store := store[KeyOf(s) := saved + 1];
      file := Store(store);
      d := Permitted(saved + 1);
    }

    /** The steps of a call in their order.  The ledger changes exactly when the call is
        permitted; a call that a check halts, a dry run among them, leaves it as it was. */
    method Consult(c: Call, limit: int) returns (o: Outcome)
      modifies this
      ensures file != old(file) <==> o.Answered? && o.d.Permitted?
      ensures forall why :: o == Halted(why) <==> StopsAt(c, why)
      ensures o.Answered? ==> (file, o.d) == Decide(old(file), c.situation, limit)
      ensures State(file, map[0 := PhaseAfter(o)]) == Execute([c], limit, State(old(file), map[]), [Preflight(0), Record(0)])
    {
      hide KeyOf;
      Alone(c, limit, file);
      if c.recursive { return Halted(Recursive); }
      if !c.gitOk { return Halted(NoGitContext); }
      if !c.capable { return Halted(Incapable); }
      if c.dryRun { return Halted(DryRun); }
      var d := CheckAndRecord(c.situation, limit);
      o := Answered(d);
    }
  }

  // ---- Interleavings of callers.

  datatype Phase = Waiting | Stopped(why: Stop) | Ready | Done(d: Decision)

  function PhaseAfter(o: Outcome): Phase { if o.Halted? then Stopped(o.why) else Done(o.d) }

  datatype State = State(file: File, phase: map<int, Phase>)

  // A caller's checks, or its critical section.
  datatype Step = Preflight(k: int) | Record(k: int)

  function PhaseOf(s: State, k: int): Phase { if k in s.phase then s.phase[k] else Waiting }

  // The checks of one caller, all before its critical section.
  function Checked(c: Call): Phase {
    if c.recursive then Stopped(Recursive)
    else if !c.gitOk then Stopped(NoGitContext)
    else if !c.capable then Stopped(Incapable)
    else if c.dryRun then Stopped(DryRun)
    else Ready
  }

  function Apply(calls: seq<Call>, limit: int, s: State, step: Step): State {
    if !(0 <= step.k < |calls|) then s
    else
      match step
      case Preflight(k) =>
        if PhaseOf(s, k) == Waiting then State(s.file, s.phase[k := Checked(calls[k])]) else s
      case Record(k) =>
        if PhaseOf(s, k) != Ready then s
        else var (file, d) := Decide(s.file, calls[k].situation, limit); State(file, s.phase[k := Done(d)])
  }

  function Execute(calls: seq<Call>, limit: int, s: State, steps: seq<Step>): State
    decreases |steps|
  {
    if steps == [] then s else Execute(calls, limit, Apply(calls, limit, s, steps[0]), steps[1..])
  }

  // One caller alone.
  lemma Alone(c: Call, limit: int, f: File)
    ensures var end := Execute([c], limit, State(f, map[]), [Preflight(0), Record(0)]);
            end == if Checked(c) == Ready then State(Decide(f, c.situation, limit).0, map[0 := Done(Decide(f, c.situation, limit).1)])
                   else State(f, map[0 := Checked(c)])
  {
    hide Decide, KeyOf;
    var s := Apply([c], limit, State(f, map[]), Preflight(0));
    assert [Preflight(0), Record(0)][1..] == [Record(0)] && [Record(0)][1..] == [];
    assert Execute([c], limit, State(f, map[]), [Preflight(0), Record(0)]) == Apply([c], limit, s, Record(0));
  }

  // Nobody has called yet.
  function Start(f: File): State { State(f, map[]) }

  predicate Granted(calls: seq<Call>, s: State, k: int, key: string) {
    0 <= k < |calls| && KeyOf(calls[k].situation) == key && PhaseOf(s, k).Done? && PhaseOf(s, k).d.Permitted?
  }

  /** The callers that were permitted for a key. */
  function Permits(calls: seq<Call>, s: State, key: string): set<int> { set k | 0 <= k < |calls| && Granted(calls, s, k, key) }

  /** For every key, as many permits as the count has grown since `base`, never beyond the limit,
      and numbered without repetition from the count that was stored at first. */
  ghost predicate Invariant(calls: seq<Call>, limit: int, base: File, s: State) {
    && (s.file.Corrupt? <==> base.Corrupt?)
    && (forall key :: |Permits(calls, s, key)| == Count(CountsOf(s.file), key) - Count(CountsOf(base), key))
    && (forall key :: Permits(calls, s, key) != {} ==> Count(CountsOf(s.file), key) <= limit)
    && (forall j, key :: Granted(calls, s, j, key) ==> Count(CountsOf(base), key) < PhaseOf(s, j).d.n <= Count(CountsOf(s.file), key))
    && (forall j, k, key :: Granted(calls, s, j, key) && Granted(calls, s, k, key) && j != k ==> PhaseOf(s, j).d.n != PhaseOf(s, k).d.n)
  }

  lemma SamePermits(calls: seq<Call>, limit: int, base: File, s: State, t: State)
    requires Invariant(calls, limit, base, s) && t.file == s.file
    requires forall j, key :: Granted(calls, t, j, key) <==> Granted(calls, s, j, key)
    requires forall j, key :: Granted(calls, s, j, key) ==> PhaseOf(t, j) == PhaseOf(s, j)
    ensures Invariant(calls, limit, base, t)
  {
    hide KeyOf, Granted;
    forall key ensures Permits(calls, t, key) == Permits(calls, s, key) {}
  }

  lemma OneMorePermit(calls: seq<Call>, limit: int, base: File, s: State, k: int)
    requires Invariant(calls, limit, base, s) && !s.file.Corrupt? && 0 <= k < |calls| && PhaseOf(s, k) == Ready
    requires Count(CountsOf(s.file), KeyOf(calls[k].situation)) < limit
    ensures Invariant(calls, limit, base, Apply(calls, limit, s, Record(k)))
  {
    hide KeyOf, Permits, Apply;
    var t := Apply(calls, limit, s, Record(k));
    var mine := KeyOf(calls[k].situation);
    GrantedAfter(calls, limit, s, k);
    forall key ensures |Permits(calls, t, key)| == Count(CountsOf(t.file), key) - Count(CountsOf(base), key) {
      PermitsAfter(calls, limit, s, k, key);
    }
    forall key | Permits(calls, t, key) != {} ensures Count(CountsOf(t.file), key) <= limit {
      PermitsAfter(calls, limit, s, k, key);
    }
    forall j, key | Granted(calls, t, j, key) ensures Count(CountsOf(base), key) < PhaseOf(t, j).d.n <= Count(CountsOf(t.file), key) {
      if j != k { assert Granted(calls, s, j, key); }
    }
    forall i, j, key | Granted(calls, t, i, key) && Granted(calls, t, j, key) && i != j ensures PhaseOf(t, i).d.n != PhaseOf(t, j).d.n {
      if i != k { assert Granted(calls, s, i, key); }
      if j != k { assert Granted(calls, s, j, key); }
    }
  }

  lemma PermitsAfter(calls: seq<Call>, limit: int, s: State, k: int, key: string)
    requires !s.file.Corrupt? && 0 <= k < |calls| && PhaseOf(s, k) == Ready
    requires Count(CountsOf(s.file), KeyOf(calls[k].situation)) < limit
    ensures |Permits(calls, Apply(calls, limit, s, Record(k)), key)| ==
            |Permits(calls, s, key)| + (if key == KeyOf(calls[k].situation) then 1 else 0)
  {
    hide KeyOf, Granted, Apply;
    var t := Apply(calls, limit, s, Record(k));
    GrantedAfter(calls, limit, s, k);
    if key == KeyOf(calls[k].situation) {
      assert Permits(calls, t, key) == Permits(calls, s, key) + {k} && k !in Permits(calls, s, key);
    } else {
      assert Permits(calls, t, key) == Permits(calls, s, key);
    }
  }

  lemma GrantedAfter(calls: seq<Call>, limit: int, s: State, k: int)
    requires !s.file.Corrupt? && 0 <= k < |calls| && PhaseOf(s, k) == Ready
    requires Count(CountsOf(s.file), KeyOf(calls[k].situation)) < limit
    ensures var t := Apply(calls, limit, s, Record(k)); var mine := KeyOf(calls[k].situation); var n := Count(CountsOf(s.file), mine);
            && t.file == Store(CountsOf(s.file)[mine := n + 1]) && PhaseOf(t, k) == Done(Permitted(n + 1))
            && (forall j, key :: Granted(calls, t, j, key) <==> Granted(calls, s, j, key) || (j == k && key == mine))
            && (forall key :: !Granted(calls, s, k, key))
            && (forall j :: j != k ==> PhaseOf(t, j) == PhaseOf(s, j))
  {
  }

  lemma Kept(calls: seq<Call>, limit: int, base: File, s: State, step: Step)
    requires Invariant(calls, limit, base, s)
    ensures Invariant(calls, limit, base, Apply(calls, limit, s, step))
  {
    hide KeyOf;
    var t := Apply(calls, limit, s, step);
    if 0 <= step.k < |calls| && step.Record? && !s.file.Corrupt? && PhaseOf(s, step.k) == Ready && Count(CountsOf(s.file), KeyOf(calls[step.k].situation)) < limit {
      OneMorePermit(calls, limit, base, s, step.k);
    } else {
      SamePermits(calls, limit, base, s, t);
    }
  }

  lemma {:induction false} Reachable(calls: seq<Call>, limit: int, base: File, s: State, steps: seq<Step>)
    requires Invariant(calls, limit, base, s)
    ensures Invariant(calls, limit, base, Execute(calls, limit, s, steps))
    decreases |steps|
  {
    hide Invariant, Apply;
    if steps != [] {
      Kept(calls, limit, base, s, steps[0]);
      Reachable(calls, limit, base, Apply(calls, limit, s, steps[0]), steps[1..]);
    }
  }

  lemma StartHolds(calls: seq<Call>, limit: int, base: File)
    ensures Invariant(calls, limit, base, Start(base))
  {
  }

  /** Over every interleaving and from any ledger, the permits granted for a key are exactly the
      growth of the stored count, and they stop at the limit. */
  lemma PermitsAreCounted(calls: seq<Call>, limit: int, base: File, steps: seq<Step>, key: string)
    ensures var s := Execute(calls, limit, Start(base), steps);
            var before, after := Count(CountsOf(base), key), Count(CountsOf(s.file), key);
            && |Permits(calls, s, key)| == after - before
            && (after > before ==> after <= limit)
  {
    hide Execute, KeyOf, Permits;
    StartHolds(calls, limit, base);
    Reachable(calls, limit, base, Start(base), steps);
  }

  /** So for each task, head and digest the callers permitted are at most what the limit leaves
      of the stored count. */
  lemma PermitsPerSituation(calls: seq<Call>, limit: int, base: File, steps: seq<Step>, s: Situation, who: set<int>)
    requires Proper(s)
    requires forall k :: k in who ==> 0 <= k < |calls| && Proper(calls[k].situation) && SameSituation(calls[k].situation, s)
    requires forall k :: k in who ==> var p := PhaseOf(Execute(calls, limit, Start(base), steps), k); p.Done? && p.d.Permitted?
    ensures who == {} || |who| <= limit - Count(CountsOf(base), KeyOf(s))
  {
    hide Execute, KeyOf;
    var t := Execute(calls, limit, Start(base), steps);
    forall k | k in who ensures k in Permits(calls, t, KeyOf(s)) { KeyExactly(calls[k].situation, s); }
    PermitsAreCounted(calls, limit, base, steps, KeyOf(s));
    SubsetSize(who, Permits(calls, t, KeyOf(s)));
  }

  /** Over every interleaving, a call that some check stops ends stopped by the first such check,
      once it has run its checks, and never enters its critical section. */
  lemma {:induction false} StoppedLeavesLedger(calls: seq<Call>, limit: int, s: State, k: int, why: Stop, steps: seq<Step>)
    requires 0 <= k < |calls| && PhaseOf(s, k) == Waiting && StopsAt(calls[k], why)
    ensures Apply(calls, limit, s, Preflight(k)) == State(s.file, s.phase[k := Stopped(why)])
    ensures PhaseOf(Execute(calls, limit, Apply(calls, limit, s, Preflight(k)), steps), k) == Stopped(why)
    ensures Apply(calls, limit, s, Record(k)) == s
  {
    StaysStopped(calls, limit, Apply(calls, limit, s, Preflight(k)), k, steps);
  }

  lemma {:induction false} StaysStopped(calls: seq<Call>, limit: int, s: State, k: int, steps: seq<Step>)
    requires PhaseOf(s, k).Stopped?
    ensures PhaseOf(Execute(calls, limit, s, steps), k) == PhaseOf(s, k)
    decreases |steps|
  {
    if steps != [] { StaysStopped(calls, limit, Apply(calls, limit, s, steps[0]), k, steps[1..]); }
  }
}
