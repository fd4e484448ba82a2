/** The write-once report (scripts/efficiency_live_benchmark.py).

    Writers of one report identity run in parallel.  A step is one call on the file system;
    `Fault` is such a call raising an error.  A file is an inode: the number of the writer that
    created it, or FOUND for the file that was there before.  Linking gives the target the
    inode of the temporary file, so both names share their bytes. */
module ReportWriter {

  type Bytes = seq<int>

  const FOUND := -1

  datatype Phase =
    | Start
    | Exists                    // the target was there
    | Clear                     // the target was not there
    | Created                   // the temporary file is open
    | Written                   // the temporary file holds the report
    | Collided                  // linking found a target
    | Unlinking(ok: bool)       // in the final block
    | Done(ok: bool)

  datatype Target = Absent | Present(inode: int)

  // `temps` are the temporary names that exist, one for each writer.
  datatype State = State(target: Target, temps: set<int>, data: map<int, Bytes>, phase: map<int, Phase>)

  datatype Step =
    | Look(k: int)
    | Compare(k: int)
    | Create(k: int)
    | WritePart(k: int, n: nat)
    | WriteAll(k: int)
    | Link(k: int)
    | Fault(k: int)
    | Unlink(k: int)

  function PhaseOf(s: State, k: int): Phase { if k in s.phase then s.phase[k] else Start }

  function BytesOf(s: State, inode: int): Bytes { if inode in s.data then s.data[inode] else [] }

  function TargetBytes(s: State): Bytes { if s.target.Present? then BytesOf(s, s.target.inode) else [] }

  function Front(b: Bytes, n: nat): Bytes { if n < |b| then b[..n] else b }

  function To(s: State, k: int, p: Phase): State { s.(phase := s.phase[k := p]) }

  function Apply(reports: seq<Bytes>, s: State, step: Step): State {
    var k := step.k;
    if !(0 <= k < |reports|) then s
    else
      match (step, PhaseOf(s, k))
      case (Look(_), Start) => To(s, k, if s.target.Present? then Exists else Clear)
      case (Compare(_), Exists) => To(s, k, Done(TargetBytes(s) == reports[k]))
      case (Create(_), Clear) => To(s.(temps := s.temps + {k}, data := s.data[k := []]), k, Created)
      case (WritePart(_, n), Created) => s.(data := s.data[k := Front(reports[k], n)])
      case (WriteAll(_), Created) => To(s.(data := s.data[k := reports[k]]), k, Written)
      case (Link(_), Written) =>
        if s.target.Present? then To(s, k, Collided) else To(s.(target := Present(k)), k, Unlinking(true))
      case (Compare(_), Collided) => To(s, k, Unlinking(TargetBytes(s) == reports[k]))
      case (Fault(_), Start) => To(s, k, Done(false))
      case (Fault(_), Exists) => To(s, k, Done(false))
      case (Fault(_), Clear) => To(s, k, Unlinking(false))
      case (Fault(_), Created) => To(s, k, Unlinking(false))
      case (Fault(_), Written) => To(s, k, Unlinking(false))
      case (Fault(_), Collided) => To(s, k, Unlinking(false))
      case (Fault(_), Unlinking(_)) => To(s, k, Unlinking(false))
      case (Unlink(_), Unlinking(ok)) => To(s.(temps := s.temps - {k}), k, Done(ok))
      case _ => s
  }

  function Execute(reports: seq<Bytes>, s: State, steps: seq<Step>): State
    decreases |steps|
  {
    if steps == [] then s else Execute(reports, Apply(reports, s, steps[0]), steps[1..])
  }

  // Before any writer: nothing, or a report from an earlier run.
  predicate Initial(s: State) {
    s.temps == {} && s.phase == map[] && (s.target == Absent || (s.target == Present(FOUND) && FOUND in s.data))
  }

  predicate HasTemp(p: Phase) { p == Created || p == Written || p == Collided || p.Unlinking? }

  predicate Complete(p: Phase) { p == Written || p == Collided }

  predicate Succeeded(p: Phase) { (p.Unlinking? || p.Done?) && p.ok }

  // What each writer may rely on.
  predicate WriterOk(reports: seq<Bytes>, s: State, k: int)
    requires 0 <= k < |reports|
  {
    var p := PhaseOf(s, k);
    && (Complete(p) ==> BytesOf(s, k) == reports[k])
    && (k in s.temps ==> HasTemp(p))
    && (Succeeded(p) ==> s.target.Present? && TargetBytes(s) == reports[k])
    && (s.target == Present(k) ==> BytesOf(s, k) == reports[k] && (p.Unlinking? || p.Done?))
    && (p == Exists || p == Collided ==> s.target.Present?)
  }

  ghost predicate Invariant(reports: seq<Bytes>, s: State) {
    && (forall k :: 0 <= k < |reports| ==> WriterOk(reports, s, k))
    && (forall k :: k in s.temps ==> 0 <= k < |reports|)
    && (s.target.Present? ==> s.target.inode == FOUND || 0 <= s.target.inode < |reports|)
  }

  /** One step keeps the invariant, never removes or replaces the target, and never changes
      its bytes. */
  lemma Kept(reports: seq<Bytes>, s: State, step: Step)
    requires Invariant(reports, s)
    ensures Invariant(reports, Apply(reports, s, step))
    ensures s.target.Present? ==> var t := Apply(reports, s, step); t.target == s.target && TargetBytes(t) == TargetBytes(s)
  {
    var t := Apply(reports, s, step);
    if 0 <= step.k < |reports| {
      assert WriterOk(reports, s, step.k);
      Frame(reports, s, step);
      forall k | 0 <= k < |reports| ensures WriterOk(reports, t, k) {
        assert WriterOk(reports, s, k);
        if k != step.k { Others(reports, s, step, k); } else { Mine(reports, s, step); }
      }
    }
  }

  // A step leaves the target's inode and its bytes.
  lemma Frame(reports: seq<Bytes>, s: State, step: Step)
    requires 0 <= step.k < |reports| && WriterOk(reports, s, step.k)
    ensures var t := Apply(reports, s, step);
            && (s.target.Present? ==> t.target == s.target && TargetBytes(t) == TargetBytes(s))
            && (s.target.Absent? ==> t.target == s.target || (t.target == Present(step.k) && PhaseOf(s, step.k) == Written))
            && (forall k :: k != step.k ==> PhaseOf(t, k) == PhaseOf(s, k) && BytesOf(t, k) == BytesOf(s, k) && (k in t.temps <==> k in s.temps))
  {
  }

  lemma Others(reports: seq<Bytes>, s: State, step: Step, k: int)
    requires 0 <= step.k < |reports| && 0 <= k < |reports| && k != step.k
    requires WriterOk(reports, s, step.k) && WriterOk(reports, s, k)
    ensures WriterOk(reports, Apply(reports, s, step), k)
  {
  }

  lemma Mine(reports: seq<Bytes>, s: State, step: Step)
    requires 0 <= step.k < |reports| && WriterOk(reports, s, step.k)
    ensures WriterOk(reports, Apply(reports, s, step), step.k)
  {
  }

  lemma {:induction false} Reachable(reports: seq<Bytes>, s: State, steps: seq<Step>)
    requires Invariant(reports, s)
    ensures Invariant(reports, Execute(reports, s, steps))
    ensures s.target.Present? ==> var t := Execute(reports, s, steps); t.target == s.target && TargetBytes(t) == TargetBytes(s)
    decreases |steps|
  {
    hide Invariant, Apply, TargetBytes;
    if steps != [] {
      Kept(reports, s, steps[0]);
      Reachable(reports, Apply(reports, s, steps[0]), steps[1..]);
    }
  }

  lemma InitialHolds(reports: seq<Bytes>, s: State)
    requires Initial(s)
    ensures Invariant(reports, s)
  {
  }

  /** Once the target exists, its bytes never change, in any interleaving. */
  lemma WrittenOnce(reports: seq<Bytes>, start: State, before: seq<Step>, after: seq<Step>)
    requires Initial(start) && Execute(reports, start, before).target.Present?
    ensures var s := Execute(reports, start, before); var t := Execute(reports, s, after);
            t.target == s.target && TargetBytes(t) == TargetBytes(s)
  {
    hide Execute, Initial, Invariant, TargetBytes;
    InitialHolds(reports, start);
    Reachable(reports, start, before);
    Reachable(reports, Execute(reports, start, before), after);
  }

  /** Every writer that returns successfully finds its own bytes in the target, so any two of
      them agree; and no writer that has returned leaves its temporary file. */
  lemma WritersAgree(reports: seq<Bytes>, start: State, steps: seq<Step>, j: int, k: int)
    requires Initial(start) && 0 <= j < |reports| && 0 <= k < |reports|
    ensures var s := Execute(reports, start, steps);
            && (PhaseOf(s, j).Done? ==> j !in s.temps)
            && (PhaseOf(s, j) == Done(true) ==> s.target.Present? && TargetBytes(s) == reports[j])
            && (PhaseOf(s, j) == Done(true) && PhaseOf(s, k) == Done(true) ==> reports[j] == reports[k])
  {
    hide Execute, Initial, TargetBytes;
    InitialHolds(reports, start);
    Reachable(reports, start, steps);
    assert WriterOk(reports, Execute(reports, start, steps), j) && WriterOk(reports, Execute(reports, start, steps), k);
  }

  /** When all writers have returned, no temporary file is left. */
  lemma NothingLeft(reports: seq<Bytes>, start: State, steps: seq<Step>)
    requires Initial(start) && forall k :: 0 <= k < |reports| ==> PhaseOf(Execute(reports, start, steps), k).Done?
    ensures Execute(reports, start, steps).temps == {}
  {
    hide Execute, Initial, TargetBytes;
    InitialHolds(reports, start);
    Reachable(reports, start, steps);
    var s := Execute(reports, start, steps);
    forall k | 0 <= k < |reports| ensures k !in s.temps { assert WriterOk(reports, s, k); }
  }

  /** A writer that runs alone on a clear identity, without a fault, publishes its report. */
  lemma AloneSucceeds(report: Bytes, start: State)
    requires Initial(start) && start.target.Absent?
    ensures var s := Execute([report], start, [Look(0), Create(0), WriteAll(0), Link(0), Unlink(0)]);
            PhaseOf(s, 0) == Done(true) && s.target == Present(0) && TargetBytes(s) == report && s.temps == {}
  {
    var r := [report];
    var a := Apply(r, start, Look(0));
    var b := Apply(r, a, Create(0));
    var c := Apply(r, b, WriteAll(0));
    var d := Apply(r, c, Link(0));
    var e := Apply(r, d, Unlink(0));
    Executed(r, start, [Look(0), Create(0), WriteAll(0), Link(0), Unlink(0)]);
    Executed(r, a, [Create(0), WriteAll(0), Link(0), Unlink(0)]);
    Executed(r, b, [WriteAll(0), Link(0), Unlink(0)]);
    Executed(r, c, [Link(0), Unlink(0)]);
    Executed(r, d, [Unlink(0)]);
    assert Execute(r, e, []) == e;
  }

  lemma Executed(reports: seq<Bytes>, s: State, steps: seq<Step>)
    requires steps != []
    ensures Execute(reports, s, steps) == Execute(reports, Apply(reports, s, steps[0]), steps[1..])
  {
  }
}
