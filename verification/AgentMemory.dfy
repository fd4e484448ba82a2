/** Bounded memory digests of agents (engine/src/agent_memory.rs).

    A Rust string is a sequence of scalar values whose length is that of its UTF-8 encoding.
    Redaction and the search for sensitive patterns are functions of the text. */
module AgentMemory {
  import opened Text

  // ---- Capping a text.

  const SUFFIX := " [truncated]"
  const MAX_SUMMARY: nat := 1024
  const MAX_REFS: nat := 16

  function Size(s: string): nat { |Utf8(s)| }

  /** `is_char_boundary`: the byte offset lies between two characters. */
  predicate Boundary(s: string, offset: nat) { exists k :: 0 <= k <= |s| && Size(s[..k]) == offset }

  // The most characters whose encoding fits.
  function Fit(s: string, max: nat): (k: nat)
    ensures k <= |s|
  {
    if s == "" || |Utf8Char(s[0])| > max then 0 else 1 + Fit(s[1..], max - |Utf8Char(s[0])|)
  }

  function Cap(s: string, max: nat): string { if Size(s) <= max then s else s[..Fit(s, max)] + SUFFIX }

  lemma SizeConcat(a: string, b: string)
    ensures Size(a + b) == Size(a) + Size(b)
  {
    Utf8Concat(a, b);
  }

  lemma SizeStep(s: string, k: nat)
    requires k < |s|
    ensures Size(s[..k]) < Size(s[..k + 1]) <= Size(s[..k]) + 4
  {
    assert s[..k + 1] == s[..k] + [s[k]];
    SizeConcat(s[..k], [s[k]]);
    assert Utf8([s[k]]) == Utf8Char(s[k]) + Utf8([]);
  }

  lemma {:induction false} SizeMonotone(s: string, j: nat, k: nat)
    requires j <= k <= |s|
    ensures Size(s[..j]) <= Size(s[..k]) && (j < k ==> Size(s[..j]) < Size(s[..k]))
    decreases k - j
  {
    if j < k {
      SizeStep(s, j);
      SizeMonotone(s, j + 1, k);
    }
  }

  /** The cut fits, and one more character does not. */
  lemma {:induction false} FitExactly(s: string, max: nat)
    ensures Size(s[..Fit(s, max)]) <= max
    ensures Fit(s, max) < |s| ==> Size(s[..Fit(s, max) + 1]) > max
  {
    if s != "" {
      var w := |Utf8Char(s[0])|;
      assert Utf8(s[..1]) == Utf8Char(s[0]) + Utf8([]);
      if w <= max {
        var k := Fit(s[1..], max - w);
        FitExactly(s[1..], max - w);
        HeadSize(s, k);
        if k + 1 < |s| { HeadSize(s, k + 1); }
      }
    }
  }

  lemma HeadSize(s: string, k: nat)
    requires k + 1 <= |s|
    ensures Size(s[..k + 1]) == |Utf8Char(s[0])| + Size(s[1..][..k])
  {
    assert s[..k + 1] == [s[0]] + s[1..][..k];
    SizeConcat([s[0]], s[1..][..k]);
    assert Utf8([s[0]]) == Utf8Char(s[0]) + Utf8([]);
  }

  // The number of characters that fit is determined by the two bounds.
  lemma FitUnique(s: string, max: nat, k: nat)
    requires k <= |s| && Size(s[..k]) <= max && (k < |s| ==> Size(s[..k + 1]) > max)
    ensures Fit(s, max) == k
  {
    hide Fit;
    FitExactly(s, max);
    var f := Fit(s, max);
    if f < k { SizeMonotone(s, f + 1, k); }
    if k < f { SizeMonotone(s, k + 1, f); }
  }

  /** Steps back from the limit to a character boundary. */
  method CapText(s: string, max: nat) returns (r: string)
    ensures r == Cap(s, max)
  {
    hide Fit, Size;
    if Size(s) <= max { return s; }
    var split := max;
    FitExactly(s, max);
    ghost var best := Size(s[..Fit(s, max)]);
    BoundaryAt(s, Fit(s, max));
    while split > 0 && !Boundary(s, split)
      invariant best <= split <= max
      invariant forall n :: split < n <= max ==> !Boundary(s, n)
    {
      split := split - 1;
    }
    if split > best { NoBoundaryBetween(s, max, split); }
    var k := CharactersIn(s, split);
    SameOffset(s, k, Fit(s, max));
    r := s[..k] + SUFFIX;
  }

  lemma BoundaryAt(s: string, k: nat)
    requires k <= |s|
    ensures Boundary(s, Size(s[..k]))
  {
  }

  lemma NoBoundaryBetween(s: string, max: nat, n: nat)
    requires Size(s[..Fit(s, max)]) < n <= max
    ensures n > 0 && !Boundary(s, n)
  {
    hide Fit;
    FitExactly(s, max);
    var f := Fit(s, max);
    forall k | 0 <= k <= |s| ensures Size(s[..k]) != n {
      if k <= f { SizeMonotone(s, k, f); } else { SizeMonotone(s, f + 1, k); }
    }
  }

  // `&text[..split]`: the characters before a boundary.
  method CharactersIn(s: string, offset: nat) returns (k: nat)
    requires Boundary(s, offset)
    ensures k <= |s| && Size(s[..k]) == offset
  {
    hide Size;
    k := 0;
    ghost var j :| 0 <= j <= |s| && Size(s[..j]) == offset;
    while Size(s[..k]) != offset
      invariant k <= j
      decreases j - k
    {
      k := k + 1;
    }
  }

  lemma SameOffset(s: string, j: nat, k: nat)
    requires j <= |s| && k <= |s| && Size(s[..j]) == Size(s[..k])
    ensures j == k
  {
    if j < k { SizeMonotone(s, j, k); } else if k < j { SizeMonotone(s, k, j); }
  }

  // ---- How large a capped text is, and what capping it again does.

  lemma SuffixSize()
    ensures Size(SUFFIX) == 12 && |SUFFIX| == 12
  {
  }

  lemma SizeOfAscii(s: string)
    requires forall i :: 0 <= i < |s| ==> s[i] as int < 128
    ensures Size(s) == |s|
  {
    AsciiLength(s);
  }

  lemma SuffixAscii()
    ensures forall i :: 0 <= i < |SUFFIX| ==> SUFFIX[i] as int < 128
  {
  }

  /** A capped text has at most twelve bytes over the limit; what was cut is a prefix. */
  lemma CapSize(s: string, max: nat)
    ensures Size(Cap(s, max)) <= max + 12
    ensures Size(s) > max ==> Cap(s, max)[..Fit(s, max)] == s[..Fit(s, max)] && Boundary(s, Size(s[..Fit(s, max)]))
    ensures Size(s) > max ==> max - 4 < Size(s[..Fit(s, max)])
  {
    hide Fit, Size;
    FitExactly(s, max);
    SuffixSize();
    var f := Fit(s, max);
    SizeConcat(s[..f], SUFFIX);
    BoundaryAt(s, f);
    if Size(s) > max {
      assert s[..|s|] == s;
      SizeStep(s, f);
    }
  }

  // A text that exceeds the limit by the suffix alone is a fixed point.
  lemma ExactPrefix(p: string, max: nat)
    requires Size(p) == max
    ensures Cap(p + SUFFIX, max) == p + SUFFIX
  {
    hide Fit, Size;
    var t := p + SUFFIX;
    SuffixSize();
    SizeConcat(p, SUFFIX);
    assert t[..|p|] == p;
    SizeStep(t, |p|);
    FitUnique(t, max, |p|);
  }

  /** Capping reaches a fixed point after two applications. */
  lemma CapTwice(s: string, max: nat)
    ensures Cap(Cap(Cap(s, max), max), max) == Cap(Cap(s, max), max)
  {
    hide Fit, Size;
    if Size(s) > max {
      CapSize(s, max);
      FitExactly(s, max);
      var p := s[..Fit(s, max)];
      var gap := max - Size(p);
      SuffixSize();
      SuffixAscii();
      var t := p + SUFFIX;
      SizeConcat(p, SUFFIX);
      var q := p + SUFFIX[..gap];
      SizeOfAscii(SUFFIX[..gap]);
      SizeConcat(p, SUFFIX[..gap]);
      assert t[..|p| + gap] == q;
      SizeStep(t, |p| + gap);
      FitUnique(t, max, |p| + gap);
      assert Cap(t, max) == q + SUFFIX;
      ExactPrefix(q, max);
    }
  }

  // ---- Digests.

  datatype Rules = Rules(redact: string -> string, sensitive: string -> bool)

  function Sanitize(s: string, rules: Rules): string { Cap(rules.redact(s), MAX_SUMMARY) }

  predicate RefChar(c: char) { '0' <= c <= '9' || 'a' <= c <= 'z' || 'A' <= c <= 'Z' || c == '_' || c == '-' || c == ':' || c == '.' }

  predicate SafeRef(s: string, rules: Rules) {
    s != "" && Size(s) <= 128 && !rules.sensitive(s) && forall i :: 0 <= i < |s| ==> RefChar(s[i])
  }

  predicate SafeTime(s: string) {
    s != "" && Size(s) <= 64 && forall i :: 0 <= i < |s| ==> '0' <= s[i] <= '9' || s[i] in "-:TZ.+"
  }

  datatype Digest = Digest(refs: seq<string>, summary: Option<string>, updatedAt: Option<string>, mailbox: Option<int>)

  // A stored value: no object, or the fields that are read; an array element that is no string is None.
  datatype Value = NoObject | Object(refs: seq<Option<string>>, summary: Option<string>, updatedAt: Option<string>, mailbox: Option<int>)

  function Strings(refs: seq<string>): seq<Option<string>> { seq(|refs|, i requires 0 <= i < |refs| => Some(refs[i])) }

  function AsValue(d: Digest): Value { Object(Strings(d.refs), d.summary, d.updatedAt, d.mailbox) }

  // The first safe references, at most `room`.
  function SafeRefs(refs: seq<Option<string>>, room: nat, rules: Rules): (r: seq<string>)
    ensures |r| <= room && forall x :: x in r ==> SafeRef(x, rules)
  {
    if refs == [] || room == 0 then []
    else if refs[0].Some? && SafeRef(refs[0].value, rules) then [refs[0].value] + SafeRefs(refs[1..], room - 1, rules)
    else SafeRefs(refs[1..], room, rules)
  }

  function NotNegative(n: int): int { if n < 0 then 0 else n }

  function Normalize(v: Value, rules: Rules): Option<Digest> {
    if v.NoObject? then None
    else
      var refs := SafeRefs(v.refs, MAX_REFS, rules);
      var summary := if v.summary.Some? && Sanitize(v.summary.value, rules) != "" then Some(Sanitize(v.summary.value, rules)) else None;
      var updatedAt := if v.updatedAt.Some? && SafeTime(v.updatedAt.value) then Some(Cap(v.updatedAt.value, 64)) else None;
      var mailbox := if v.mailbox.Some? then Some(NotNegative(v.mailbox.value)) else None;
      if refs == [] && summary.None? then None else Some(Digest(refs, summary, updatedAt, mailbox))
  }

  function Retain(refs: seq<string>, own: string): (r: seq<string>)
    ensures |r| <= |refs| && (forall x :: x in r ==> x == own) && (own in refs <==> r != [])
  {
    if refs == [] then [] else (if refs[0] == own then [own] else []) + Retain(refs[1..], own)
  }

  function NormalizeForAgent(v: Value, own: string, rules: Rules): Option<Digest> {
    match Normalize(v, rules)
    case None => None
    case Some(d) =>
      var kept := Retain(d.refs, own);
      if kept != [] || d.summary.Some? then Some(d.(refs := kept)) else None
  }

  // ---- Agent states.

  datatype Agent = Agent(run: string, agent: string, scratchpad: Option<string>, digest: Option<Value>, updatedAt: string)

  function OwnRef(a: Agent): string { "agent_state:" + a.run + ":" + a.agent + ":scratchpad_summary" }

  function ScratchpadDigest(a: Agent, rules: Rules): Option<Digest> {
    if a.scratchpad.None? || Sanitize(a.scratchpad.value, rules) == "" then None
    else Some(Digest([OwnRef(a)], Some(Sanitize(a.scratchpad.value, rules)), Some(Cap(a.updatedAt, 64)), None))
  }

  function Load(a: Agent, rules: Rules): Option<Digest> {
    var stored := if a.digest.Some? then NormalizeForAgent(a.digest.value, OwnRef(a), rules) else None;
    if stored.Some? then stored else ScratchpadDigest(a, rules)
  }

  /** A digest that holds nothing of another agent and is bounded. */
  predicate Bounded(d: Digest, own: string) {
    && |d.refs| <= MAX_REFS && (forall x :: x in d.refs ==> x == own)
    && (d.summary.Some? ==> Size(d.summary.value) <= MAX_SUMMARY + 12)
    && (d.updatedAt.Some? ==> Size(d.updatedAt.value) <= 76)
    && (d.mailbox.Some? ==> d.mailbox.value >= 0)
  }

  lemma LoadBounded(a: Agent, rules: Rules)
    ensures Load(a, rules).Some? ==> Bounded(Load(a, rules).value, OwnRef(a)) && (Load(a, rules).value.refs != [] || Load(a, rules).value.summary.Some?)
  {
    hide Cap, SafeRef, SafeTime, OwnRef, Size;
    CapSize(a.updatedAt, 64);
    if a.scratchpad.Some? { CapSize(rules.redact(a.scratchpad.value), MAX_SUMMARY); }
    if a.digest.Some? && a.digest.value.Object? {
      var v := a.digest.value;
      if v.summary.Some? { CapSize(rules.redact(v.summary.value), MAX_SUMMARY); }
      if v.updatedAt.Some? { CapSize(v.updatedAt.value, 64); }
    }
  }

  function SafeOnly(refs: seq<string>, rules: Rules): seq<string> {
    if refs == [] then []
    else SafeOnly(refs[..|refs| - 1], rules) + (if SafeRef(refs[|refs| - 1], rules) then [refs[|refs| - 1]] else [])
  }

  method FilterSafe(refs: seq<string>, rules: Rules) returns (r: seq<string>)
    ensures r == SafeOnly(refs, rules)
  {
    hide SafeRef;
    r := [];
    var i := 0;
    while i < |refs|
      invariant 0 <= i <= |refs| && r == SafeOnly(refs[..i], rules)
    {
      assert refs[..i + 1][..i] == refs[..i];
      if SafeRef(refs[i], rules) { r := r + [refs[i]]; }
      i := i + 1;
    }
    assert refs[..i] == refs;
  }

  lemma {:induction false} OwnOnly(refs: seq<string>, own: string, rules: Rules)
    requires forall x :: x in refs ==> x == own
    ensures SafeOnly(refs, rules) == if SafeRef(own, rules) then refs else []
  {
    hide SafeRef;
    if refs != [] {
      var before := refs[..|refs| - 1];
      forall x | x in before ensures x == own { assert x in refs; }
      OwnOnly(before, own, rules);
      assert refs[|refs| - 1] in refs && refs == before + [refs[|refs| - 1]];
    }
  }

  function Truncated(refs: seq<string>, n: nat): seq<string> { if |refs| <= n then refs else refs[..n] }

  // The references that are written: the loaded ones while they are safe, else the own one.
  function WrittenRefs(prior: Option<Digest>, own: string, rules: Rules): seq<string> {
    if prior.Some? && prior.value.refs != [] && SafeRef(own, rules) then prior.value.refs else [own]
  }

  predicate Consolidated(d: Digest, own: string) { Bounded(d, own) && 1 <= |d.refs| && d.mailbox.Some? && d.updatedAt.Some? }

  // The summary that wins: the sanitised action or scratchpad text, else the prior one.
  function Winning(a: Agent, action: Option<string>, prior: Option<Digest>, rules: Rules): Option<string> {
    var newest := if action.Some? then action else a.scratchpad;
    if newest.Some? && Sanitize(newest.value, rules) != "" then Some(Sanitize(newest.value, rules))
    else if prior.Some? then prior.value.summary
    else None
  }

  /** What one consolidation writes, if anything. */
  function ConsolidatedDigest(a: Agent, action: Option<string>, mailbox: int, rules: Rules): Option<Digest> {
    var prior := Load(a, rules);
    var summary := Winning(a, action, prior, rules);
    if prior.None? && summary.None? then None
    else Some(Digest(WrittenRefs(prior, OwnRef(a), rules), summary, Some(Cap(a.updatedAt, 64)), Some(NotNegative(mailbox))))
  }

  /** A consolidated digest carries only the agent's own reference, one to sixteen times, a
      bounded summary and a mailbox count that is not negative. */
  method Consolidate(a: Agent, action: Option<string>, mailbox: int, rules: Rules) returns (r: Option<Digest>)
    ensures r == ConsolidatedDigest(a, action, mailbox, rules)
    ensures r.Some? ==> Consolidated(r.value, OwnRef(a))
  {
    hide Load, Cap, Size, OwnRef, SafeRef, SafeOnly;
    var prior := Load(a, rules);
    LoadBounded(a, rules);
    var summary := Winning(a, action, prior, rules);
    WinningBounded(a, action, prior, rules);
    if summary.None? && prior.None? { return None; }
    var refs: seq<string> := [];
    if prior.Some? {
      refs := FilterSafe(prior.value.refs, rules);
      OwnOnly(prior.value.refs, OwnRef(a), rules);
      assert refs != [] ==> refs[0] in refs;
    }
    if OwnRef(a) !in refs { refs := refs + [OwnRef(a)]; }
    refs := Truncated(refs, MAX_REFS);
    assert refs == WrittenRefs(prior, OwnRef(a), rules);
    CapSize(a.updatedAt, 64);
    r := Some(Digest(refs, summary, Some(Cap(a.updatedAt, 64)), Some(NotNegative(mailbox))));
  }

  lemma WinningBounded(a: Agent, action: Option<string>, prior: Option<Digest>, rules: Rules)
    requires prior.Some? ==> Bounded(prior.value, OwnRef(a))
    ensures var w := Winning(a, action, prior, rules); w.Some? ==> Size(w.value) <= MAX_SUMMARY + 12
  {
    hide Cap, Size, OwnRef;
    if action.Some? { CapSize(rules.redact(action.value), MAX_SUMMARY); }
    if a.scratchpad.Some? { CapSize(rules.redact(a.scratchpad.value), MAX_SUMMARY); }
  }

  // ---- Runs.

  datatype Turn = Turn(scratchpad: Option<string>, action: Option<string>, mailbox: int, updatedAt: string)

  // The agent as a turn finds it.
  function At(a: Agent, t: Turn): Agent { a.(scratchpad := t.scratchpad, updatedAt := t.updatedAt) }

  function Written(a: Agent, t: Turn, rules: Rules): Option<Digest> { ConsolidatedDigest(At(a, t), t.action, t.mailbox, rules) }

  function After(a: Agent, t: Turn, rules: Rules): Agent {
    var d := Written(a, t, rules);
    if d.Some? then At(a, t).(digest := Some(AsValue(d.value))) else At(a, t)
  }

  /** The agent after a run of load, consolidate and patch, and the digests that were written. */
  function RunOf(start: Agent, turns: seq<Turn>, rules: Rules): (Agent, seq<Digest>) {
    if turns == [] then (start, [])
    else
      var (a, before) := RunOf(start, turns[..|turns| - 1], rules);
      var t := turns[|turns| - 1];
      var d := Written(a, t, rules);
      (After(a, t, rules), if d.Some? then before + [d.value] else before)
  }

  method RunTurns(start: Agent, turns: seq<Turn>, rules: Rules) returns (end: Agent, written: seq<Digest>)
    ensures (end, written) == RunOf(start, turns, rules)
  {
    hide ConsolidatedDigest, Consolidated, AsValue;
    end, written := start, [];
    var i := 0;
    while i < |turns|
      invariant 0 <= i <= |turns| && (end, written) == RunOf(start, turns[..i], rules)
    {
      assert turns[..i + 1][..i] == turns[..i];
      end := end.(scratchpad := turns[i].scratchpad, updatedAt := turns[i].updatedAt);
      var d := Consolidate(end, turns[i].action, turns[i].mailbox, rules);
      if d.Some? {
        written := written + [d.value];
        end := end.(digest := Some(AsValue(d.value)));
      }
      i := i + 1;
    }
    assert turns[..i] == turns;
  }

  lemma DigestConsolidated(a: Agent, action: Option<string>, mailbox: int, rules: Rules)
    ensures var d := ConsolidatedDigest(a, action, mailbox, rules); d.Some? ==> Consolidated(d.value, OwnRef(a))
  {
    hide Load, Winning, Cap, Size, OwnRef, SafeRef;
    LoadBounded(a, rules);
    WinningBounded(a, action, Load(a, rules), rules);
    CapSize(a.updatedAt, 64);
  }

  /** What holds of the digests of a run: each is consolidated for this agent, the last one is
      stored, all have the references of the first, and those are the own reference alone when
      it is not safe. */
  ghost predicate RunHolds(start: Agent, end: Agent, written: seq<Digest>, rules: Rules) {
    && end.run == start.run && end.agent == start.agent
    && (forall i :: 0 <= i < |written| ==> Consolidated(written[i], OwnRef(start)) && written[i].refs == written[0].refs)
    && end.digest == (if written == [] then start.digest else Some(AsValue(written[|written| - 1])))
    && (written != [] && !SafeRef(OwnRef(start), rules) ==> written[0].refs == [OwnRef(start)])
  }

  /** Over any run, from any stored value. */
  lemma {:induction false} RunKept(start: Agent, turns: seq<Turn>, rules: Rules)
    ensures var r := RunOf(start, turns, rules); RunHolds(start, r.0, r.1, rules)
  {
    hide Written, After, RunHolds;
    if turns == [] {
      NothingWritten(start, rules);
    } else {
      var before := turns[..|turns| - 1];
      RunKept(start, before, rules);
      var r := RunOf(start, before, rules);
      TurnKept(start, r.0, r.1, turns[|turns| - 1], rules);
    }
  }

  lemma NothingWritten(start: Agent, rules: Rules)
    ensures RunHolds(start, start, [], rules)
  {
  }

  lemma TurnKept(start: Agent, a: Agent, written: seq<Digest>, t: Turn, rules: Rules)
    requires RunHolds(start, a, written, rules)
    ensures var d := Written(a, t, rules);
            RunHolds(start, After(a, t, rules), if d.Some? then written + [d.value] else written, rules)
  {
    hide ConsolidatedDigest, Consolidated, AsValue, SafeRef;
    var d := Written(a, t, rules);
    DigestConsolidated(At(a, t), t.action, t.mailbox, rules);
    if d.Some? { SameRefs(start, a, written, t, rules); }
  }

  lemma SameRefs(start: Agent, a: Agent, written: seq<Digest>, t: Turn, rules: Rules)
    requires RunHolds(start, a, written, rules) && Written(a, t, rules).Some?
    ensures var refs := Written(a, t, rules).value.refs;
            && (written != [] ==> refs == written[0].refs)
            && (!SafeRef(OwnRef(start), rules) ==> refs == [OwnRef(start)])
  {
    hide Winning, Cap, SafeRef, Consolidated, NormalizeForAgent, AsValue;
    if written != [] && SafeRef(OwnRef(start), rules) {
      StoredLoaded(start, a, written, t, rules);
      AtLeastOne(written[|written| - 1], OwnRef(start));
    }
  }

  lemma AtLeastOne(d: Digest, own: string)
    requires Consolidated(d, own)
    ensures d.refs != []
  {
  }

  // With a safe own reference the stored digest is loaded, with its references.
  lemma StoredLoaded(start: Agent, a: Agent, written: seq<Digest>, t: Turn, rules: Rules)
    requires RunHolds(start, a, written, rules) && written != [] && SafeRef(OwnRef(start), rules)
    ensures var l := Load(At(a, t), rules); l.Some? && l.value.refs == written[|written| - 1].refs
  {
    hide SafeRef, Consolidated, NormalizeForAgent, AsValue;
    Reloaded(written[|written| - 1], OwnRef(start), rules);
  }

  /** While the own reference is safe a run never loses its digest: once one is written, every
      later turn writes one. */
  lemma {:induction false} RunPersists(start: Agent, turns: seq<Turn>, k: nat, rules: Rules)
    requires k <= |turns| && SafeRef(OwnRef(start), rules) && RunOf(start, turns[..k], rules).1 != []
    ensures |RunOf(start, turns, rules).1| == |RunOf(start, turns[..k], rules).1| + |turns| - k
    decreases |turns|
  {
    hide After, RunHolds, SafeRef, Winning;
    if k < |turns| {
      var n := |turns| - 1;
      assert turns[..n][..k] == turns[..k];
      RunPersists(start, turns[..n], k, rules);
      RunKept(start, turns[..n], rules);
      var r := RunOf(start, turns[..n], rules);
      StoredLoaded(start, r.0, r.1, turns[n], rules);
    } else {
      assert turns[..k] == turns;
    }
  }

  /** Reading a consolidated digest back keeps its references exactly when the agent's own
      reference is safe, keeps the count, and sanitises the summary once more; it finds nothing
      exactly when that reference is not safe and the summary sanitises to nothing. */
  lemma Reloaded(d: Digest, own: string, rules: Rules)
    requires Consolidated(d, own)
    ensures var r := NormalizeForAgent(AsValue(d), own, rules);
            && (r.None? <==> !SafeRef(own, rules) && (d.summary.None? || Sanitize(d.summary.value, rules) == ""))
            && (SafeRef(own, rules) ==> r.Some? && r.value.refs == d.refs)
            && (!SafeRef(own, rules) && r.Some? ==> r.value.refs == [])
            && (r.Some? ==> r.value.mailbox == d.mailbox)
            && (r.Some? && r.value.summary.Some? ==> d.summary.Some? && r.value.summary.value == Sanitize(d.summary.value, rules))
  {
    hide SafeRef, SafeTime, Cap, Sanitize, Size;
    OwnRefsKept(d.refs, own, MAX_REFS, rules);
  }

  lemma {:induction false} OwnRefsKept(refs: seq<string>, own: string, room: nat, rules: Rules)
    requires |refs| <= room && forall x :: x in refs ==> x == own
    ensures SafeRef(own, rules) ==> SafeRefs(Strings(refs), room, rules) == refs
    ensures !SafeRef(own, rules) ==> SafeRefs(Strings(refs), room, rules) == []
    ensures Retain(refs, own) == refs
  {
    hide SafeRef;
    if refs != [] {
      assert refs[0] in refs;
      assert Strings(refs)[1..] == Strings(refs[1..]);
      forall x | x in refs[1..] ensures x == own { assert x in refs; }
      if SafeRef(own, rules) { OwnRefsKept(refs[1..], own, room - 1, rules); } else { OwnRefsKept(refs[1..], own, room, rules); }
    }
  }

  // ---- The context of a node.

  function EstimateTokens(s: string): nat { if |s| / 4 < 1 then 1 else |s| / 4 }

  function TakeTokens(s: string, tokens: nat): string { if tokens * 4 < |s| then s[..tokens * 4] else s }

  datatype Context = Context(maxTokens: nat, estimated: nat, included: nat, truncated: bool, digest: Digest)

  function SummaryText(d: Digest): string { if d.summary.Some? then d.summary.value else "" }

  function BuildContext(a: Agent, budget: nat, rules: Rules): Option<Context> {
    match Load(a, rules)
    case None => None
    case Some(d) =>
      var max := if budget < 1 then 1 else budget;
      var estimated := EstimateTokens(SummaryText(d));
      var included := if estimated < max then estimated else max;
      var truncated := estimated > included;
      Some(Context(max, estimated, included, truncated,
                   if truncated then d.(summary := Some(TakeTokens(SummaryText(d), included))) else d))
  }

  /** The summary of a node context re-estimates to exactly its included tokens, never more
      than the budget; a truncated one is a prefix of the loaded summary. */
  lemma ContextExactly(a: Agent, budget: nat, rules: Rules)
    requires BuildContext(a, budget, rules).Some?
    ensures var c := BuildContext(a, budget, rules).value; var loaded := SummaryText(Load(a, rules).value);
            && EstimateTokens(SummaryText(c.digest)) == c.included <= c.maxTokens
            && (c.truncated <==> EstimateTokens(loaded) > c.maxTokens)
            && SummaryText(c.digest) <= loaded && (!c.truncated ==> c.digest == Load(a, rules).value)
            && c.digest.refs == Load(a, rules).value.refs
  {
    hide Load;
  }
}
