/** The indentation parser of tools/release_workflow_contract.py.

    Dictionaries are lists of entries in insertion order; a job under
    construction is the last job of the list. */
module Workflow {
  import opened Text

  datatype Step = Step(name: string, stepId: string, uses: string, inputs: seq<Entry>, run: string)
  datatype Job = Job(name: string, needs: string, permissions: seq<Entry>, steps: seq<Step>)

  // ---- Lines and mapping entries.

  // The characters at which `str.splitlines` cuts, besides the pair \r\n.
  predicate Break(c: char) {
    var n := c as int;
    0x0A <= n <= 0x0D || 0x1C <= n <= 0x1E || n == 0x85 || n == 0x2028 || n == 0x2029
  }

  function SplitLines(text: string): seq<string>
    decreases |text|
  {
    if text == "" then []
    else
      var n := LineEnd(text);
      if n == |text| then [text]
      else if text[n] == '\r' && n + 1 < |text| && text[n + 1] == '\n' then [text[..n]] + SplitLines(text[n + 2..])
      else [text[..n]] + SplitLines(text[n + 1..])
  }

  function LineEnd(text: string): (n: nat)
    ensures n <= |text|
  {
    if text == "" || Break(text[0]) then 0 else 1 + LineEnd(text[1..])
  }

  predicate Blank(line: string) { Strip(line) == "" }

  function Unquoted(s: string): string { StripOf(StripOf(Strip(s), '\"'), '\'') }

  function Value(line: string): Result<Entry> {
    var s := Strip(line);
    var i := IndexOf(s, ':');
    if i == |s| then Err("expected mapping entry") else Ok(Entry(s[..i], Unquoted(s[i + 1..])))
  }

  // The text before the first " #".
  function BeforeComment(s: string): string {
    if s == "" || " #" <= s then "" else [s[0]] + BeforeComment(s[1..])
  }

  predicate StartsStep(line: string) { Indent(line) == 6 && "- " <= Strip(line) }

  predicate EndsSection(line: string) { !Blank(line) && Indent(line) <= 4 }

  // ---- The nested loops as functions of the remaining lines.

  datatype Parsed<T> = Parsed(value: T, rest: seq<string>)

  function ParsePermissions(lines: seq<string>, acc: seq<Entry>): Result<Parsed<seq<Entry>>> {
    if lines == [] || EndsSection(lines[0]) then Ok(Parsed(acc, lines))
    else if !Blank(lines[0]) && Indent(lines[0]) == 6 then
      var e := Value(lines[0]);
      if e.Err? then Err(e.error) else ParsePermissions(lines[1..], Put(acc, e.value.key, e.value.value))
    else ParsePermissions(lines[1..], acc)
  }

  function ParseInputs(block: seq<string>, acc: seq<Entry>): Result<Parsed<seq<Entry>>> {
    if block == [] || (!Blank(block[0]) && Indent(block[0]) <= 8) then Ok(Parsed(acc, block))
    else if !Blank(block[0]) && Indent(block[0]) == 10 then
      var e := Value(block[0]);
      if e.Err? then Err(e.error) else ParseInputs(block[1..], Put(acc, e.value.key, e.value.value))
    else ParseInputs(block[1..], acc)
  }

  // The value of an entry that is known to hold a colon.
  function EntryValue(line: string): string {
    var e := Value(line);
    if e.Ok? then e.value.value else ""
  }

  function RunLine(line: string): string { if Spaces(10) <= line then line[10..] else Strip(line) }

  function RunLines(lines: seq<string>): seq<string> {
    if lines == [] then [] else [RunLine(lines[0])] + RunLines(lines[1..])
  }

  predicate Field(line: string, key: string) { Indent(line) == 8 && key <= Strip(line) }

  function ParseFields(block: seq<string>, step: Step): Result<Step>
    decreases |block|
  {
    if block == [] then Ok(step)
    else
      var line := block[0];
      if Field(line, "name:") then ParseFields(block[1..], step.(name := EntryValue(line)))
      else if Field(line, "id:") then ParseFields(block[1..], step.(stepId := EntryValue(line)))
      else if Field(line, "uses:") then ParseFields(block[1..], step.(uses := BeforeComment(EntryValue(line))))
      else if Indent(line) == 8 && Strip(line) == "with:" then
        var inputs := ParseInputs(block[1..], step.inputs);
        if inputs.Err? then Err(inputs.error)
        else
          InputsShorter(block[1..], step.inputs);
          ParseFields(inputs.value.rest, step.(inputs := inputs.value.value))
      else if Field(line, "run:") then
        var marker := EntryValue(line);
        if marker in {"|", ">", "|-", ">-"} then Ok(step.(run := Join(RunLines(block[1..]), "\n")))
        else Ok(step.(run := marker))
      else ParseFields(block[1..], step)
  }

  lemma {:induction false} InputsShorter(block: seq<string>, acc: seq<Entry>)
    ensures var r := ParseInputs(block, acc); r.Ok? ==> |r.value.rest| <= |block|
  {
    if block != [] && (Blank(block[0]) || Indent(block[0]) > 8) {
      var e := Value(block[0]);
      if !Blank(block[0]) && Indent(block[0]) == 10 {
        if e.Ok? { InputsShorter(block[1..], Put(acc, e.value.key, e.value.value)); }
      } else {
        InputsShorter(block[1..], acc);
      }
    }
  }

  function ParseStep(block: seq<string>): Result<Step>
    requires block != [] && StartsStep(block[0])
  {
    var first := Strip(block[0])[2..];
    ParseFields(block[1..], Step(if "name:" <= first then EntryValue(first) else "", "", "", [], ""))
  }

  // The number of lines that belong to a step after its first line.
  function BlockSize(lines: seq<string>): (n: nat)
    ensures n <= |lines|
  {
    if lines == [] || (!Blank(lines[0]) && StartsStep(lines[0])) || EndsSection(lines[0]) then 0
    else 1 + BlockSize(lines[1..])
  }

  function ParseSteps(lines: seq<string>, acc: seq<Step>): Result<Parsed<seq<Step>>>
    decreases |lines|
  {
    if lines == [] then Ok(Parsed(acc, lines))
    else if Blank(lines[0]) then ParseSteps(lines[1..], acc)
    else if Indent(lines[0]) <= 4 then Ok(Parsed(acc, lines))
    else if !StartsStep(lines[0]) then ParseSteps(lines[1..], acc)
    else
      var n := 1 + BlockSize(lines[1..]);
      var step := ParseStep(lines[..n]);
      if step.Err? then Err(step.error) else ParseSteps(lines[n..], acc + [step.value])
  }

  function Last(jobs: seq<Job>): Job
    requires jobs != []
  {
    jobs[|jobs| - 1]
  }

  function SetLast(jobs: seq<Job>, job: Job): seq<Job>
    requires jobs != []
  {
    jobs[..|jobs| - 1] + [job]
  }

  predicate EndsWithColon(s: string) { s != "" && s[|s| - 1] == ':' }

  predicate HasJob(jobs: seq<Job>, name: string) { exists i :: 0 <= i < |jobs| && jobs[i].name == name }

  // The lines after "jobs:".
  function ParseJobs(lines: seq<string>, jobs: seq<Job>): Result<seq<Job>>
    decreases |lines|
  {
    if lines == [] then Ok(jobs)
    else
      var raw := lines[0];
      var stripped, indent := Strip(raw), Indent(raw);
      if raw == "jobs:" then ParseJobs(lines[1..], jobs)
      else if stripped != "" && indent == 0 then Ok(jobs)
      else if indent == 2 && EndsWithColon(stripped) then
        var name := stripped[..|stripped| - 1];
        if HasJob(jobs, name) then Err("duplicate job") else ParseJobs(lines[1..], jobs + [Job(name, "", [], [])])
      else if jobs == [] then ParseJobs(lines[1..], jobs)
      else if indent == 4 && "needs:" <= stripped then
        ParseJobs(lines[1..], SetLast(jobs, Last(jobs).(needs := EntryValue(raw))))
      else if indent == 4 && stripped == "permissions:" then
        var r := ParsePermissions(lines[1..], Last(jobs).permissions);
        if r.Err? then Err(r.error)
        else
          PermissionsShorter(lines[1..], Last(jobs).permissions);
          ParseJobs(r.value.rest, SetLast(jobs, Last(jobs).(permissions := r.value.value)))
      else if indent == 4 && stripped == "steps:" then
        var r := ParseSteps(lines[1..], Last(jobs).steps);
        if r.Err? then Err(r.error)
        else
          StepsShorter(lines[1..], Last(jobs).steps);
          ParseJobs(r.value.rest, SetLast(jobs, Last(jobs).(steps := r.value.value)))
      else ParseJobs(lines[1..], jobs)
  }

  lemma {:induction false} PermissionsShorter(lines: seq<string>, acc: seq<Entry>)
    ensures var r := ParsePermissions(lines, acc); r.Ok? ==> |r.value.rest| <= |lines|
  {
    if lines != [] && !EndsSection(lines[0]) {
      var e := Value(lines[0]);
      if !Blank(lines[0]) && Indent(lines[0]) == 6 {
        if e.Ok? { PermissionsShorter(lines[1..], Put(acc, e.value.key, e.value.value)); }
      } else {
        PermissionsShorter(lines[1..], acc);
      }
    }
  }

  lemma {:induction false} StepsShorter(lines: seq<string>, acc: seq<Step>)
    ensures var r := ParseSteps(lines, acc); r.Ok? ==> |r.value.rest| <= |lines|
    decreases |lines|
  {
    if lines != [] {
      if Blank(lines[0]) || (Indent(lines[0]) > 4 && !StartsStep(lines[0])) {
        StepsShorter(lines[1..], acc);
      } else if Indent(lines[0]) > 4 {
        var n := 1 + BlockSize(lines[1..]);
        var step := ParseStep(lines[..n]);
        if step.Ok? { StepsShorter(lines[n..], acc + [step.value]); }
      }
    }
  }

  // The lines from the first that follows "jobs:".
  function AfterJobs(lines: seq<string>): seq<string> {
    if lines == [] then [] else if lines[0] == "jobs:" then lines[1..] else AfterJobs(lines[1..])
  }

  function Parse(text: string): Result<seq<Job>> {
    var r := ParseJobs(AfterJobs(SplitLines(text)), []);
    if r == Ok([]) then Err("workflow has no parsed jobs") else r
  }

  // ---- The loops, over indices into the lines.

  method PermissionsLoop(lines: seq<string>, start: nat, permissions: seq<Entry>)
    returns (r: Result<seq<Entry>>, index: nat)
    requires start <= |lines|
    ensures start <= index <= |lines|
    ensures var spec := ParsePermissions(lines[start..], permissions);
            if r.Err? then spec == Err(r.error) else spec == Ok(Parsed(r.value, lines[index..]))
  {
    hide Value, Strip, Indent, Put;
    index := start;
    var acc := permissions;
    while index < |lines|
      invariant start <= index <= |lines|
      invariant ParsePermissions(lines[index..], acc) == ParsePermissions(lines[start..], permissions)
    {
      var nested := lines[index];
      assert lines[index..][1..] == lines[index + 1..];
      if !Blank(nested) && Indent(nested) <= 4 { break; }
      if !Blank(nested) && Indent(nested) == 6 {
        var e := Value(nested);
        if e.Err? { return Err(e.error), index; }
        acc := Put(acc, e.value.key, e.value.value);
      }
      index := index + 1;
    }
    r := Ok(acc);
  }

  // Returns the index of the line at which the outer loop must go on; the script
  // gets there by stepping back one line and then forward again.
  method InputsLoop(block: seq<string>, start: nat, inputs: seq<Entry>) returns (r: Result<seq<Entry>>, next: nat)
    requires start <= |block|
    ensures start <= next <= |block|
    ensures var spec := ParseInputs(block[start..], inputs);
            if r.Err? then spec == Err(r.error) else spec == Ok(Parsed(r.value, block[next..]))
  {
    hide Value, Strip, Indent, Put;
    var blockIndex := start;
    var acc := inputs;
    while blockIndex < |block|
      invariant start <= blockIndex <= |block|
      invariant ParseInputs(block[blockIndex..], acc) == ParseInputs(block[start..], inputs)
    {
      var child := block[blockIndex];
      assert block[blockIndex..][1..] == block[blockIndex + 1..];
      if !Blank(child) && Indent(child) <= 8 { break; }
      if !Blank(child) && Indent(child) == 10 {
        var e := Value(child);
        if e.Err? { return Err(e.error), blockIndex; }
        acc := Put(acc, e.value.key, e.value.value);
      }
      blockIndex := blockIndex + 1;
    }
    r, next := Ok(acc), blockIndex;
  }

  method RunLoop(lines: seq<string>) returns (r: seq<string>)
    ensures r == RunLines(lines)
  {
    hide RunLine;
    r := [];
    for i := 0 to |lines|
      invariant r + RunLines(lines[i..]) == RunLines(lines)
    {
      assert lines[i..][1..] == lines[i + 1..];
      r := r + [RunLine(lines[i])];
    }
  }

  method FieldsLoop(block: seq<string>, start: Step) returns (r: Result<Step>)
    requires block != []
    ensures r == ParseFields(block[1..], start)
  {
    hide EntryValue, Strip, Indent, Field, BeforeComment, ParseInputs, RunLines, Join;
    var step, blockIndex := start, 1;
    while blockIndex < |block|
      invariant 1 <= blockIndex <= |block|
      invariant ParseFields(block[blockIndex..], step) == ParseFields(block[1..], start)
      decreases |block| - blockIndex
    {
      var entry := block[blockIndex];
      var rest := block[blockIndex + 1..];
      assert block[blockIndex..][1..] == rest;
      if Field(entry, "name:") {
        step := step.(name := EntryValue(entry));
      } else if Field(entry, "id:") {
        step := step.(stepId := EntryValue(entry));
      } else if Field(entry, "uses:") {
        step := step.(uses := BeforeComment(EntryValue(entry)));
      } else if Indent(entry) == 8 && Strip(entry) == "with:" {
        var inputs, next := InputsLoop(block, blockIndex + 1, step.inputs);
        if inputs.Err? { return Err(inputs.error); }
        step := step.(inputs := inputs.value);
        blockIndex := next - 1;
      } else if Field(entry, "run:") {
        var marker := EntryValue(entry);
        if marker in {"|", ">", "|-", ">-"} {
          var run := RunLoop(rest);
          return Ok(step.(run := Join(run, "\n")));
        }
        return Ok(step.(run := marker));
      }
      blockIndex := blockIndex + 1;
    }
    r := Ok(step);
  }

  method StepOf(block: seq<string>) returns (r: Result<Step>)
    requires block != [] && StartsStep(block[0])
    ensures r == ParseStep(block)
  {
    var first := Strip(block[0])[2..];
    r := FieldsLoop(block, Step(if "name:" <= first then EntryValue(first) else "", "", "", [], ""));
  }

  method StepsLoop(lines: seq<string>, start: nat, steps: seq<Step>) returns (r: Result<seq<Step>>, index: nat)
    requires start <= |lines|
    ensures start <= index <= |lines|
    ensures var spec := ParseSteps(lines[start..], steps);
            if r.Err? then spec == Err(r.error) else spec == Ok(Parsed(r.value, lines[index..]))
  {
    hide ParseStep, BlockSize, Strip, Indent;
    index := start;
    var acc := steps;
    while index < |lines|
      invariant start <= index <= |lines|
      invariant ParseSteps(lines[index..], acc) == ParseSteps(lines[start..], steps)
    {
      assert lines[index..][1..] == lines[index + 1..];
      if Blank(lines[index]) {
        index := index + 1;
        continue;
      }
      if Indent(lines[index]) <= 4 { break; }
      if !StartsStep(lines[index]) {
        index := index + 1;
        continue;
      }
      var blockStart := index;
      index := BlockLoop(lines, index + 1);
      var block := lines[blockStart..index];
      assert lines[blockStart..][..index - blockStart] == block;
      assert lines[blockStart..][index - blockStart..] == lines[index..];
      var step := StepOf(block);
      if step.Err? { return Err(step.error), index; }
      acc := acc + [step.value];
    }
    r := Ok(acc);
  }

  method BlockLoop(lines: seq<string>, start: nat) returns (index: nat)
    requires start <= |lines|
    ensures index == start + BlockSize(lines[start..])
  {
    index := start;
    while index < |lines|
      invariant start <= index <= |lines|
      invariant index + BlockSize(lines[index..]) == start + BlockSize(lines[start..])
    {
      var candidate := lines[index];
      assert lines[index..][1..] == lines[index + 1..];
      if !Blank(candidate) && StartsStep(candidate) { break; }
      if EndsSection(candidate) { break; }
      index := index + 1;
    }
  }

  method ParseWorkflow(text: string) returns (r: Result<seq<Job>>)
    ensures r == Parse(text)
  {
    var lines := SplitLines(text);
    var jobs: seq<Job> := [];
    var inJobs, index := false, 0;
    while index < |lines|
      invariant 0 <= index <= |lines|
      invariant inJobs ==> ParseJobs(lines[index..], jobs) == ParseJobs(AfterJobs(lines), [])
      invariant !inJobs ==> jobs == [] && AfterJobs(lines[index..]) == AfterJobs(lines)
    {
      var raw := lines[index];
      var stripped, indent := Strip(raw), Indent(raw);
      assert lines[index..][1..] == lines[index + 1..];
      if raw == "jobs:" {
        inJobs := true;
        index := index + 1;
        continue;
      }
      if !inJobs {
        index := index + 1;
        continue;
      }
      if stripped != "" && indent == 0 { break; }
      if indent == 2 && EndsWithColon(stripped) {
        var name := stripped[..|stripped| - 1];
        if HasJob(jobs, name) { return Err("duplicate job"); }
        jobs := jobs + [Job(name, "", [], [])];
        index := index + 1;
        continue;
      }
      if jobs == [] {
        index := index + 1;
        continue;
      }
      var current := Last(jobs);
      if indent == 4 && "needs:" <= stripped {
        jobs := SetLast(jobs, current.(needs := EntryValue(raw)));
        index := index + 1;
        continue;
      }
      if indent == 4 && stripped == "permissions:" {
        var permissions;
        permissions, index := PermissionsLoop(lines, index + 1, current.permissions);
        if permissions.Err? { return Err(permissions.error); }
        jobs := SetLast(jobs, current.(permissions := permissions.value));
        continue;
      }
      if indent == 4 && stripped == "steps:" {
        var steps;
        steps, index := StepsLoop(lines, index + 1, current.steps);
        if steps.Err? { return Err(steps.error); }
        jobs := SetLast(jobs, current.(steps := steps.value));
        continue;
      }
      index := index + 1;
    }
    if jobs == [] { return Err("workflow has no parsed jobs"); }
    r := Ok(jobs);
  }

  // ---- Canonical text of a workflow.

  predicate NoBreaks(s: string) { forall i :: 0 <= i < |s| ==> !Break(s[i]) }

  predicate Flush(s: string) { s != "" ==> !IsSpace(s[0]) }

  predicate Key(k: string) { ':' !in k && Flush(k) && NoBreaks(k) }

  // A value that is its own unquoted form.
  predicate Clean(v: string) { Unquoted(v) == v && NoBreaks(v) }

  function Line(n: nat, body: string): string { Spaces(n) + body }

  function EntryText(key: string, value: string): string { key + ": " + value }

  function PrintEntries(n: nat, es: seq<Entry>): seq<string> {
    if es == [] then [] else [Line(n, EntryText(es[0].key, es[0].value))] + PrintEntries(n, es[1..])
  }

  function Optional(n: nat, key: string, value: string): seq<string> {
    if value == "" then [] else [Line(n, EntryText(key, value))]
  }

  function Section(n: nat, title: string, es: seq<Entry>): seq<string> {
    if es == [] then [] else [Line(n, title)] + PrintEntries(n + 2, es)
  }

  function PrintRun(lines: seq<string>): seq<string> {
    if lines == [] then [] else [Line(10, lines[0])] + PrintRun(lines[1..])
  }

  function PrintFields(s: Step): seq<string> {
    Optional(8, "id", s.stepId) + (Optional(8, "uses", s.uses) + (Section(8, "with:", s.inputs) +
      ([Line(8, "run: |")] + PrintRun(Split(s.run, '\n')))))
  }

  function PrintStep(s: Step): seq<string> {
    [Line(6, "- " + EntryText("name", s.name))] + PrintFields(s)
  }

  function PrintSteps(steps: seq<Step>): seq<string> {
    if steps == [] then [] else PrintStep(steps[0]) + PrintSteps(steps[1..])
  }

  function PrintJob(j: Job): seq<string> {
    [Line(2, j.name + ":")] + (Optional(4, "needs", j.needs) + (Section(4, "permissions:", j.permissions) +
      ([Line(4, "steps:")] + PrintSteps(j.steps))))
  }

  function PrintJobs(jobs: seq<Job>): seq<string> {
    if jobs == [] then [] else PrintJob(jobs[0]) + PrintJobs(jobs[1..])
  }

  function Unlines(lines: seq<string>): string {
    if lines == [] then "" else lines[0] + "\n" + Unlines(lines[1..])
  }

  function Print(prologue: seq<string>, jobs: seq<Job>, epilogue: seq<string>): string {
    Unlines(prologue + (["jobs:"] + (PrintJobs(jobs) + epilogue)))
  }

  predicate DistinctKeys(es: seq<Entry>) {
    forall i, j :: 0 <= i < j < |es| ==> es[i].key != es[j].key
  }

  predicate GoodEntries(es: seq<Entry>) {
    DistinctKeys(es) && forall i :: 0 <= i < |es| ==> Key(es[i].key) && Clean(es[i].value)
  }

  predicate GoodStep(s: Step) {
    && Clean(s.name) && Clean(s.stepId) && Clean(s.uses) && BeforeComment(s.uses) == s.uses
    && GoodEntries(s.inputs)
    && forall i :: 0 <= i < |s.run| ==> !Break(s.run[i]) || s.run[i] == '\n'
  }

  predicate GoodJob(j: Job) {
    && Flush(j.name) && NoBreaks(j.name) && Clean(j.needs) && GoodEntries(j.permissions)
    && forall i :: 0 <= i < |j.steps| ==> GoodStep(j.steps[i])
  }

  predicate GoodJobs(jobs: seq<Job>) {
    && (forall i :: 0 <= i < |jobs| ==> GoodJob(jobs[i]))
    && forall i, j :: 0 <= i < j < |jobs| ==> jobs[i].name != jobs[j].name
  }

  // ---- Reading back one line.

  lemma {:induction false} IndentLine(n: nat, body: string)
    ensures Flush(body) ==> Indent(Line(n, body)) == n
    ensures Indent(Line(n, body)) >= n
    ensures Strip(Line(n, body)) == Strip(body)
  {
    if n == 0 {
      assert Line(n, body) == body;
    } else {
      IndentLine(n - 1, body);
      assert Line(n, body)[1..] == Line(n - 1, body);
    }
  }

  lemma {:induction false} TrimLeftOfShorter(s: string, c: char)
    ensures |TrimLeftOf(s, c)| <= |s|
  {
    if s != "" && s[0] == c { TrimLeftOfShorter(s[1..], c); }
  }

  lemma {:induction false} TrimRightOfShorter(s: string, c: char)
    ensures |TrimRightOf(s, c)| <= |s|
  {
    if s != "" && s[|s| - 1] == c { TrimRightOfShorter(s[..|s| - 1], c); }
  }

  lemma {:induction false} TrimLeftShorter(s: string)
    ensures |TrimLeft(s)| <= |s| && (|TrimLeft(s)| == |s| ==> TrimLeft(s) == s && Flush(s))
  {
    if s != "" && IsSpace(s[0]) { TrimLeftShorter(s[1..]); }
  }

  lemma {:induction false} TrimRightShorter(s: string)
    ensures |TrimRight(s)| <= |s|
    ensures |TrimRight(s)| == |s| ==> TrimRight(s) == s && (s != "" ==> !IsSpace(s[|s| - 1]))
  {
    if s != "" && IsSpace(s[|s| - 1]) { TrimRightShorter(s[..|s| - 1]); }
  }

  // A clean value has no white space at its ends.
  lemma CleanEnds(v: string)
    requires Unquoted(v) == v
    ensures Strip(v) == v && Flush(v) && (v != "" ==> !IsSpace(v[|v| - 1]))
  {
    TrimLeftShorter(v);
    TrimRightShorter(TrimLeft(v));
    var a := Strip(v);
    TrimLeftOfShorter(a, '\"');
    TrimRightOfShorter(TrimLeftOf(a, '\"'), '\"');
    var b := StripOf(a, '\"');
    TrimLeftOfShorter(b, '\'');
    TrimRightOfShorter(TrimLeftOf(b, '\''), '\'');
  }

  lemma TrimRightIdentity(s: string)
    requires s != "" && !IsSpace(s[|s| - 1])
    ensures TrimRight(s) == s
  {
  }

  lemma ColonNoSpace()
    ensures !IsSpace(':') && IsSpace(' ')
  {
  }

  function EntryTail(v: string): string { if v == "" then "" else " " + v }

  lemma EntryStrip(key: string, v: string)
    requires Flush(key) && Unquoted(v) == v
    ensures Strip(EntryText(key, v)) == key + ":" + EntryTail(v)
  {
    hide Unquoted, Break, IsSpace;
    CleanEnds(v);
    ColonNoSpace();
    var t, c := EntryText(key, v), key + ":";
    assert TrimLeft(t) == t;
    if v == "" {
      assert t[..|t| - 1] == c;
      TrimRightIdentity(c);
    } else {
      assert t == c + EntryTail(v) && t[|t| - 1] == v[|v| - 1];
      TrimRightIdentity(t);
    }
  }

  lemma {:induction false} ColonAt(key: string, rest: string)
    requires ':' !in key
    ensures IndexOf(key + ":" + rest, ':') == |key|
  {
    var t := key + ":" + rest;
    if key != "" {
      assert t[1..] == key[1..] + ":" + rest;
      ColonAt(key[1..], rest);
    }
  }

  /** An entry line at any depth is read back as its key and value. */
  lemma EntryLine(n: nat, key: string, v: string)
    requires Key(key) && Unquoted(v) == v
    ensures var line := Line(n, EntryText(key, v));
            && Indent(line) == n && Strip(line) == key + ":" + EntryTail(v)
            && !Blank(line) && Value(line) == Ok(Entry(key, v))
  {
    hide Unquoted, IndexOf;
    var body := EntryText(key, v);
    assert Flush(body) by { if key == "" { assert body[0] == ':'; } }
    IndentLine(n, body);
    EntryStrip(key, v);
    var tail := EntryTail(v);
    var s := key + ":" + tail;
    ColonAt(key, tail);
    assert s[..|key|] == key && s[|key| + 1..] == tail;
    UnquotedTail(v);
  }

  lemma UnquotedTail(v: string)
    requires Unquoted(v) == v
    ensures Unquoted(EntryTail(v)) == v
  {
  }

  lemma TitleLine(n: nat, title: string)
    requires title != "" && !IsSpace(title[0]) && !IsSpace(title[|title| - 1])
    ensures var line := Line(n, title); Indent(line) == n && Strip(line) == title && !Blank(line)
  {
    IndentLine(n, title);
    TrimRightIdentity(title);
  }

  // ---- Reading back sections.

  lemma {:induction false} PutNew(d: seq<Entry>, key: string, value: string)
    requires forall i :: 0 <= i < |d| ==> d[i].key != key
    ensures Put(d, key, value) == d + [Entry(key, value)]
  {
    if d != [] {
      PutNew(d[1..], key, value);
      assert d == [d[0]] + d[1..];
    }
  }

  predicate StopsPermissions(rest: seq<string>) { rest == [] || EndsSection(rest[0]) }

  lemma OnePermission(line: string, e: Entry, rest: seq<string>, acc: seq<Entry>)
    requires !Blank(line) && Indent(line) == 6 && Value(line) == Ok(e)
    ensures ParsePermissions([line] + rest, acc) == ParsePermissions(rest, Put(acc, e.key, e.value))
  {
    hide Value, Strip, Indent, Put;
    assert ([line] + rest)[1..] == rest;
  }

  lemma NoPermission(rest: seq<string>, acc: seq<Entry>)
    requires StopsPermissions(rest)
    ensures ParsePermissions(rest, acc) == Ok(Parsed(acc, rest))
  {
    hide Value, Strip, Indent, Put;
  }

  lemma {:induction false} PermissionsBack(es: seq<Entry>, acc: seq<Entry>, rest: seq<string>)
    requires GoodEntries(acc + es) && StopsPermissions(rest)
    ensures ParsePermissions(PrintEntries(6, es) + rest, acc) == Ok(Parsed(acc + es, rest))
  {
    hide Value, Strip, Indent, Blank, Line, EntryText, Clean, Key, GoodEntries, Put, ParsePermissions, StopsPermissions;
    if es == [] {
      assert PrintEntries(6, es) + rest == rest && acc + es == acc;
      NoPermission(rest, acc);
    } else {
      var line, more := Line(6, EntryText(es[0].key, es[0].value)), PrintEntries(6, es[1..]);
      FirstEntry(acc, es);
      EntryLine(6, es[0].key, es[0].value);
      assert PrintEntries(6, es) + rest == [line] + (more + rest) by { Associative([line], more, rest); }
      OnePermission(line, es[0], more + rest, acc);
      PermissionsBack(es[1..], acc + [es[0]], rest);
    }
  }

  predicate StopsInputs(rest: seq<string>) { rest == [] || (!Blank(rest[0]) && Indent(rest[0]) <= 8) }

  lemma OneInput(line: string, e: Entry, rest: seq<string>, acc: seq<Entry>)
    requires !Blank(line) && Indent(line) == 10 && Value(line) == Ok(e)
    ensures ParseInputs([line] + rest, acc) == ParseInputs(rest, Put(acc, e.key, e.value))
  {
    hide Value, Strip, Indent, Put;
    assert ([line] + rest)[1..] == rest;
  }

  lemma NoInput(rest: seq<string>, acc: seq<Entry>)
    requires StopsInputs(rest)
    ensures ParseInputs(rest, acc) == Ok(Parsed(acc, rest))
  {
    hide Value, Strip, Indent, Put;
  }

  lemma {:induction false} InputsBack(es: seq<Entry>, acc: seq<Entry>, rest: seq<string>)
    requires GoodEntries(acc + es) && StopsInputs(rest)
    ensures ParseInputs(PrintEntries(10, es) + rest, acc) == Ok(Parsed(acc + es, rest))
  {
    hide Value, Strip, Indent, Blank, Line, EntryText, Clean, Key, GoodEntries, Put, ParseInputs, StopsInputs;
    if es == [] {
      assert PrintEntries(10, es) + rest == rest && acc + es == acc;
      NoInput(rest, acc);
    } else {
      var line, more := Line(10, EntryText(es[0].key, es[0].value)), PrintEntries(10, es[1..]);
      FirstEntry(acc, es);
      EntryLine(10, es[0].key, es[0].value);
      assert PrintEntries(10, es) + rest == [line] + (more + rest) by { Associative([line], more, rest); }
      OneInput(line, es[0], more + rest, acc);
      InputsBack(es[1..], acc + [es[0]], rest);
    }
  }

  // The first of the entries still to come is good and its key is new.
  lemma FirstEntry(acc: seq<Entry>, es: seq<Entry>)
    requires GoodEntries(acc + es) && es != []
    ensures Key(es[0].key) && Unquoted(es[0].value) == es[0].value
    ensures Put(acc, es[0].key, es[0].value) == acc + [es[0]] && acc + [es[0]] + es[1..] == acc + es
  {
    hide Clean, Key, GoodEntries, Put, Unquoted;
    assert (acc + es)[|acc|] == es[0];
    GoodEntry(acc + es, |acc|);
    NewKey(acc, es);
    PutNew(acc, es[0].key, es[0].value);
  }

  lemma GoodEntry(es: seq<Entry>, i: nat)
    requires GoodEntries(es) && i < |es|
    ensures Key(es[i].key) && Unquoted(es[i].value) == es[i].value
  {
  }

  lemma NewKey(acc: seq<Entry>, es: seq<Entry>)
    requires GoodEntries(acc + es) && es != []
    ensures forall i :: 0 <= i < |acc| ==> acc[i].key != es[0].key
  {
    forall i | 0 <= i < |acc| ensures acc[i].key != es[0].key {
      assert (acc + es)[i] == acc[i] && (acc + es)[|acc|] == es[0];
    }
  }

  lemma {:induction false} RunBack(lines: seq<string>)
    ensures RunLines(PrintRun(lines)) == lines
  {
    hide Line, RunLine;
    if lines != [] {
      RunBack(lines[1..]);
      assert PrintRun(lines)[1..] == PrintRun(lines[1..]);
      RunLineBack(lines[0]);
      assert lines == [lines[0]] + lines[1..];
    }
  }

  lemma RunLineBack(line: string)
    ensures RunLine(Line(10, line)) == line
  {
    hide Strip;
    assert |Spaces(10)| == 10;
    assert Line(10, line)[10..] == line;
  }

  // ---- Reading back a step.

  lemma IdBack(v: string, rest: seq<string>, step: Step)
    requires Clean(v) && step.stepId == ""
    ensures ParseFields(Optional(8, "id", v) + rest, step) == ParseFields(rest, step.(stepId := v))
  {
    hide Indent, Strip, Line, EntryText, Value, ParseInputs;
    var lines := Optional(8, "id", v) + rest;
    if v == "" {
      assert lines == rest;
    } else {
      EntryLine(8, "id", v);
      assert lines[0] == Line(8, EntryText("id", v)) && lines[1..] == rest;
      assert Strip(lines[0])[0] == 'i' && "id:" <= Strip(lines[0]);
    }
  }

  lemma UsesBack(v: string, rest: seq<string>, step: Step)
    requires Clean(v) && BeforeComment(v) == v && step.uses == ""
    ensures ParseFields(Optional(8, "uses", v) + rest, step) == ParseFields(rest, step.(uses := v))
  {
    hide Indent, Strip, Line, EntryText, Value, ParseInputs, BeforeComment;
    var lines := Optional(8, "uses", v) + rest;
    if v == "" {
      assert lines == rest;
    } else {
      EntryLine(8, "uses", v);
      assert lines[0] == Line(8, EntryText("uses", v)) && lines[1..] == rest;
      assert Strip(lines[0])[0] == 'u' && "uses:" <= Strip(lines[0]);
    }
  }

  lemma WithBack(es: seq<Entry>, rest: seq<string>, step: Step)
    requires GoodEntries(es) && step.inputs == [] && StopsInputs(rest)
    ensures ParseFields(Section(8, "with:", es) + rest, step) == ParseFields(rest, step.(inputs := es))
  {
    hide Indent, Strip, Line, PrintEntries, ParseInputs, GoodEntries;
    var lines := Section(8, "with:", es) + rest;
    if es == [] {
      assert lines == rest;
    } else {
      TitleLine(8, "with:");
      assert lines[0] == Line(8, "with:") && lines[1..] == PrintEntries(10, es) + rest;
      assert [] + es == es;
      InputsBack(es, [], rest);
    }
  }

  lemma BarClean()
    ensures Unquoted("|") == "|"
  {
  }

  lemma RunFieldBack(run: string, step: Step)
    ensures ParseFields([Line(8, "run: |")] + PrintRun(Split(run, '\n')), step) == Ok(step.(run := run))
    ensures StopsInputs([Line(8, "run: |")] + PrintRun(Split(run, '\n')))
  {
    hide Indent, Strip, Line, Value, ParseInputs, PrintRun, RunLines, Split;
    var block := [Line(8, "run: |")] + PrintRun(Split(run, '\n'));
    assert EntryText("run", "|") == "run: |";
    BarClean();
    EntryLine(8, "run", "|");
    assert block[1..] == PrintRun(Split(run, '\n'));
    RunBack(Split(run, '\n'));
    JoinSplit(run, '\n');
    assert Strip(block[0])[0] == 'r' && "run:" <= Strip(block[0]) && EntryValue(block[0]) == "|";
  }

  lemma FieldsBack(s: Step)
    requires GoodStep(s)
    ensures ParseFields(PrintFields(s), Step(s.name, "", "", [], "")) == Ok(s)
  {
    hide ParseFields, Optional, Section, PrintRun, Split, GoodEntries, StopsInputs, Clean;
    var start := Step(s.name, "", "", [], "");
    var run := [Line(8, "run: |")] + PrintRun(Split(s.run, '\n'));
    var inputs := Section(8, "with:", s.inputs) + run;
    var uses := Optional(8, "uses", s.uses) + inputs;
    IdBack(s.stepId, uses, start);
    UsesBack(s.uses, inputs, start.(stepId := s.stepId));
    RunFieldBack(s.run, start.(stepId := s.stepId, uses := s.uses, inputs := s.inputs));
    WithBack(s.inputs, run, start.(stepId := s.stepId, uses := s.uses));
  }

  lemma FirstLine(name: string)
    requires Clean(name)
    ensures var line := Line(6, "- " + EntryText("name", name));
            && !Blank(line) && StartsStep(line)
            && "name:" <= Strip(line)[2..] && EntryValue(Strip(line)[2..]) == name
  {
    hide Unquoted, Value, Strip, Indent, Line, EntryText, EntryValue;
    NameText(name);
    EntryLine(6, "- name", name);
    FirstText(name);
  }

  lemma FirstText(name: string)
    requires Unquoted(name) == name
    ensures var stripped := "- name" + ":" + EntryTail(name);
            "- " <= stripped && "name:" <= stripped[2..] && EntryValue(stripped[2..]) == name
  {
    hide Unquoted, Value, Strip, Indent;
    var stripped := "- name" + ":" + EntryTail(name);
    var first := "name:" + EntryTail(name);
    assert stripped[2..] == first;
    if name == "" {
      EmptyName();
      assert first == "name:";
    } else {
      EntryLine(0, "name", name);
      assert Line(0, EntryText("name", name)) == first;
    }
  }

  lemma EmptyName()
    ensures Value("name:") == Ok(Entry("name", ""))
  {
    TrimRightIdentity("name:");
    assert TrimLeft("name:") == "name:";
    ColonAt("name", "");
    assert "name" + ":" + "" == "name:";
    assert "name:"[..4] == "name" && "name:"[5..] == "";
    assert Unquoted("") == "";
  }

  // A line that neither starts a step nor ends the section.
  predicate InBlock(line: string) { Blank(line) || Indent(line) > 6 }

  ghost predicate AllInBlock(lines: seq<string>) { forall i :: 0 <= i < |lines| ==> InBlock(lines[i]) }

  lemma {:induction false} EntriesInBlock(n: nat, es: seq<Entry>)
    requires n > 6 && GoodEntries(es)
    ensures AllInBlock(PrintEntries(n, es))
  {
    if es != [] {
      EntryLine(n, es[0].key, es[0].value);
      EntriesInBlock(n, es[1..]);
    }
  }

  lemma {:induction false} RunInBlock(lines: seq<string>)
    ensures AllInBlock(PrintRun(lines))
  {
    if lines != [] {
      IndentLine(10, lines[0]);
      RunInBlock(lines[1..]);
    }
  }

  lemma OptionalInBlock(key: string, v: string)
    requires Key(key) && Clean(v)
    ensures AllInBlock(Optional(8, key, v))
  {
    EntryLine(8, key, v);
  }

  lemma WithInBlock(es: seq<Entry>)
    requires GoodEntries(es)
    ensures AllInBlock(Section(8, "with:", es))
  {
    TitleLine(8, "with:");
    EntriesInBlock(10, es);
  }

  lemma InBlockAppend(a: seq<string>, b: seq<string>)
    requires AllInBlock(a) && AllInBlock(b)
    ensures AllInBlock(a + b)
  {
  }

  lemma FieldsInBlock(s: Step)
    requires GoodStep(s)
    ensures AllInBlock(PrintFields(s))
  {
    hide Line, Optional, Section, PrintRun, Split, InBlock, AllInBlock, Clean, GoodEntries;
    var run := PrintRun(Split(s.run, '\n'));
    OptionalInBlock("id", s.stepId);
    OptionalInBlock("uses", s.uses);
    WithInBlock(s.inputs);
    RunTitleInBlock();
    RunInBlock(Split(s.run, '\n'));
    InBlockAppend([Line(8, "run: |")], run);
    InBlockAppend(Section(8, "with:", s.inputs), [Line(8, "run: |")] + run);
    InBlockAppend(Optional(8, "uses", s.uses), Section(8, "with:", s.inputs) + ([Line(8, "run: |")] + run));
    InBlockAppend(Optional(8, "id", s.stepId),
                  Optional(8, "uses", s.uses) + (Section(8, "with:", s.inputs) + ([Line(8, "run: |")] + run)));
  }

  lemma RunTitleInBlock()
    ensures AllInBlock([Line(8, "run: |")])
  {
    TitleLine(8, "run: |");
  }

  predicate StopsBlock(rest: seq<string>) {
    rest == [] || (!Blank(rest[0]) && StartsStep(rest[0])) || EndsSection(rest[0])
  }

  lemma {:induction false} BlockSizeOf(lines: seq<string>, rest: seq<string>)
    requires AllInBlock(lines) && StopsBlock(rest)
    ensures BlockSize(lines + rest) == |lines|
  {
    if lines == [] {
      assert lines + rest == rest;
    } else {
      assert InBlock(lines[0]);
      BlockSizeOf(lines[1..], rest);
      assert (lines + rest)[1..] == lines[1..] + rest;
    }
  }

  lemma StepBack(s: Step, rest: seq<string>, acc: seq<Step>)
    requires GoodStep(s) && StopsBlock(rest)
    ensures ParseSteps(PrintStep(s) + rest, acc) == ParseSteps(rest, acc + [s])
  {
    hide PrintFields, ParseFields, Line, EntryText, GoodStep, Strip, Indent, EntryValue, StopsBlock;
    var fields, lines := PrintFields(s), PrintStep(s) + rest;
    GoodStepName(s);
    FirstLine(s.name);
    FieldsInBlock(s);
    BlockSizeOf(fields, rest);
    assert lines[1..] == fields + rest;
    var n := 1 + |fields|;
    assert lines[..n] == PrintStep(s) && lines[n..] == rest;
    assert PrintStep(s)[1..] == fields;
    FieldsBack(s);
  }

  lemma GoodStepName(s: Step)
    requires GoodStep(s)
    ensures Clean(s.name)
  {
  }

  lemma {:induction false} StepsBack(steps: seq<Step>, rest: seq<string>, acc: seq<Step>)
    requires forall i :: 0 <= i < |steps| ==> GoodStep(steps[i])
    requires StopsPermissions(rest)
    ensures ParseSteps(PrintSteps(steps) + rest, acc) == Ok(Parsed(acc + steps, rest))
    ensures StopsBlock(PrintSteps(steps) + rest)
  {
    hide GoodStep, PrintStep, ParseSteps, Blank, EndsSection, StopsPermissions, StopsBlock;
    if steps == [] {
      assert PrintSteps(steps) + rest == rest && acc + steps == acc;
      NoStep(rest, acc);
    } else {
      var more := PrintSteps(steps[1..]);
      StepsBack(steps[1..], rest, acc + [steps[0]]);
      StepBack(steps[0], more + rest, acc);
      Associative(PrintStep(steps[0]), more, rest);
      assert acc + [steps[0]] + steps[1..] == acc + steps;
      StepStarts(steps[0], more + rest);
    }
  }

  lemma NoStep(rest: seq<string>, acc: seq<Step>)
    requires StopsPermissions(rest)
    ensures ParseSteps(rest, acc) == Ok(Parsed(acc, rest)) && StopsBlock(rest)
  {
    hide Strip, Indent, ParseStep, BlockSize;
  }

  lemma StepStarts(s: Step, more: seq<string>)
    requires GoodStep(s)
    ensures StopsBlock(PrintStep(s) + more)
  {
    hide GoodStep, Line, EntryText, PrintFields, Strip, Indent;
    GoodStepName(s);
    FirstLine(s.name);
    assert (PrintStep(s) + more)[0] == Line(6, "- " + EntryText("name", s.name));
  }

  // ---- A step that starts with another entry than its name.

  lemma KeyText(key: string, v: string)
    ensures EntryText("- " + key, v) == "- " + EntryText(key, v)
  {
  }

  // The first colon of an entry ends its key.
  lemma NamesName(key: string, tail: string)
    requires ':' !in key
    ensures "name:" <= key + ":" + tail <==> key == "name"
  {
    hide IndexOf;
    var t := key + ":" + tail;
    if "name:" <= t {
      assert t == "name" + ":" + t[5..];
      ColonAt("name", t[5..]);
      ColonAt(key, tail);
      assert key == t[..4];
    }
  }

  lemma FirstKey(key: string, v: string)
    requires ':' !in key && NoBreaks(key) && Clean(v)
    ensures var line := Line(6, "- " + EntryText(key, v));
            StartsStep(line) && Strip(line)[2..] == key + ":" + EntryTail(v) && ("name:" <= Strip(line)[2..] <==> key == "name")
  {
    hide Value, Strip, Indent, Line, Unquoted, EntryText;
    KeyText(key, v);
    EntryLine(6, "- " + key, v);
    var tail := EntryTail(v);
    var stripped := "- " + key + ":" + tail;
    assert stripped[..2] == "- " && stripped[2..] == key + ":" + tail;
    NamesName(key, tail);
  }

  /** Of the entry on the first line of a step the parser keeps the value exactly when its key is
      `name`; a step that starts with any other entry, such as `- uses:`, `- id:` or `- run:`, is
      parsed as though that line held nothing. */
  lemma FirstLineExactly(key: string, v: string, fields: seq<string>)
    requires ':' !in key && NoBreaks(key) && Clean(v)
    ensures var first := Line(6, "- " + EntryText(key, v));
            && StartsStep(first)
            && ParseStep([first] + fields) == ParseFields(fields, Step(if key == "name" then v else "", "", "", [], ""))
  {
    hide ParseFields, Line, EntryText, Strip, Indent, EntryValue;
    var first := Line(6, "- " + EntryText(key, v));
    FirstKey(key, v);
    if key == "name" { FirstLine(v); }
    assert ([first] + fields)[1..] == fields;
  }

  // The field that a key of a step names, and the step without it.
  function FieldOf(s: Step, key: string): string { if key == "uses" then s.uses else if key == "id" then s.stepId else s.run }

  function Without(s: Step, key: string): Step {
    if key == "uses" then s.(uses := "") else if key == "id" then s.(stepId := "") else s.(run := "")
  }

  /** A nameless step printed with its action, its id or its run text on the first line is read
      back without that field and with all others: so it is read back exactly when the field was
      empty. */
  lemma FirstFieldLost(s: Step, key: string)
    requires GoodStep(s) && s.name == "" && key in {"uses", "id", "run"} && Clean(FieldOf(s, key))
    ensures var first := Line(6, "- " + EntryText(key, FieldOf(s, key))); var block := [first] + PrintFields(Without(s, key));
            && StartsStep(first) && ParseStep(block) == Ok(Without(s, key))
            && (ParseStep(block) == Ok(s) <==> FieldOf(s, key) == "")
  {
    hide ParseStep, PrintFields, Line, EntryText, Clean, StartsStep, ParseFields;
    ShortKey(key);
    FirstLineExactly(key, FieldOf(s, key), PrintFields(Without(s, key)));
    NothingClean();
    FieldsBack(Without(s, key));
  }

  lemma ShortKey(key: string)
    requires key in {"uses", "id", "run"}
    ensures ':' !in key && NoBreaks(key) && key != "name"
  {
  }

  lemma NothingClean()
    ensures Clean("") && BeforeComment("") == ""
  {
  }

  /** In particular a step that starts with `- uses:` loses its action. */
  lemma UsesLost(s: Step)
    requires GoodStep(s) && s.name == ""
    ensures var block := [Line(6, "- " + EntryText("uses", s.uses))] + PrintFields(s.(uses := ""));
            && StartsStep(block[0]) && ParseStep(block) == Ok(s.(uses := ""))
            && (ParseStep(block) == Ok(s) <==> s.uses == "")
  {
    hide ParseStep, PrintFields, Line, EntryText, StartsStep, Clean, GoodEntries;
    FirstFieldLost(s, "uses");
  }

  // ---- Reading back a job.

  lemma NameBack(name: string, rest: seq<string>, acc: seq<Job>)
    requires Flush(name) && !HasJob(acc, name)
    ensures ParseJobs([Line(2, name + ":")] + rest, acc) == ParseJobs(rest, acc + [Job(name, "", [], [])])
    ensures EndsSection(Line(2, name + ":"))
  {
    hide HasJob, ParsePermissions, ParseSteps, Line, Strip, Indent;
    var lines := [Line(2, name + ":")] + rest;
    TitleLine(2, name + ":");
    IndentOfTitle();
    assert lines[1..] == rest;
    assert (name + ":")[..|name|] == name;
  }

  lemma IndentOfTitle()
    ensures Indent("jobs:") == 0
  {
  }

  lemma NeedsBack(v: string, rest: seq<string>, jobs: seq<Job>)
    requires Clean(v) && jobs != [] && Last(jobs).needs == ""
    ensures ParseJobs(Optional(4, "needs", v) + rest, jobs) == ParseJobs(rest, SetLast(jobs, Last(jobs).(needs := v)))
  {
    hide HasJob, ParsePermissions, ParseSteps, Line, EntryText, Strip, Indent, Value;
    var lines := Optional(4, "needs", v) + rest;
    if v == "" {
      assert lines == rest;
      assert SetLast(jobs, Last(jobs)) == jobs;
    } else {
      EntryLine(4, "needs", v);
      IndentOfTitle();
      assert lines[0] == Line(4, EntryText("needs", v)) && lines[1..] == rest;
      assert "needs:" <= Strip(lines[0]);
    }
  }

  lemma PermissionSectionBack(es: seq<Entry>, rest: seq<string>, jobs: seq<Job>)
    requires GoodEntries(es) && jobs != [] && Last(jobs).permissions == [] && StopsPermissions(rest)
    ensures ParseJobs(Section(4, "permissions:", es) + rest, jobs) ==
            ParseJobs(rest, SetLast(jobs, Last(jobs).(permissions := es)))
  {
    hide HasJob, ParsePermissions, ParseSteps, Line, PrintEntries, Strip, Indent, GoodEntries, StopsPermissions;
    var lines := Section(4, "permissions:", es) + rest;
    if es == [] {
      assert lines == rest;
      assert SetLast(jobs, Last(jobs)) == jobs;
    } else {
      TitleLine(4, "permissions:");
      IndentOfTitle();
      assert lines[0] == Line(4, "permissions:") && lines[1..] == PrintEntries(6, es) + rest;
      assert [] + es == es;
      PermissionsBack(es, [], rest);
    }
  }

  lemma StepSectionBack(steps: seq<Step>, rest: seq<string>, jobs: seq<Job>)
    requires jobs != [] && Last(jobs).steps == [] && StopsPermissions(rest)
    requires forall i :: 0 <= i < |steps| ==> GoodStep(steps[i])
    ensures ParseJobs([Line(4, "steps:")] + (PrintSteps(steps) + rest), jobs) ==
            ParseJobs(rest, SetLast(jobs, Last(jobs).(steps := steps)))
    ensures StopsPermissions([Line(4, "steps:")] + (PrintSteps(steps) + rest))
  {
    hide HasJob, ParsePermissions, ParseSteps, Line, PrintSteps, Strip, Indent, GoodStep;
    var lines := [Line(4, "steps:")] + (PrintSteps(steps) + rest);
    TitleLine(4, "steps:");
    IndentOfTitle();
    assert lines[1..] == PrintSteps(steps) + rest;
    StepsBack(steps, rest, []);
    assert [] + steps == steps;
  }

  lemma SetLastTwice(acc: seq<Job>, a: Job, b: Job)
    ensures SetLast(acc + [a], b) == acc + [b] && Last(acc + [a]) == a
  {
  }

  lemma JobBack(j: Job, rest: seq<string>, acc: seq<Job>)
    requires GoodJob(j) && !HasJob(acc, j.name) && StopsPermissions(rest)
    ensures ParseJobs(PrintJob(j) + rest, acc) == ParseJobs(rest, acc + [j])
  {
    hide ParseJobs, HasJob, Line, Optional, Section, PrintSteps, StopsPermissions, GoodEntries, GoodStep, SetLast, Last;
    var steps := [Line(4, "steps:")] + (PrintSteps(j.steps) + rest);
    var permissions := Section(4, "permissions:", j.permissions) + steps;
    var needs := Optional(4, "needs", j.needs) + permissions;
    var lines := [Line(2, j.name + ":")] + needs;
    RegroupJob(j, rest);
    var a := Job(j.name, "", [], []);
    var b := a.(needs := j.needs);
    var c := b.(permissions := j.permissions);
    SetLastTwice(acc, a, b);
    SetLastTwice(acc, b, c);
    SetLastTwice(acc, c, j);
    NameBack(j.name, needs, acc);
    NeedsBack(j.needs, permissions, acc + [a]);
    StepSectionBack(j.steps, rest, acc + [c]);
    PermissionSectionBack(j.permissions, steps, acc + [b]);
  }

  lemma RegroupJob(j: Job, rest: seq<string>)
    ensures PrintJob(j) + rest ==
            [Line(2, j.name + ":")] + (Optional(4, "needs", j.needs) + (Section(4, "permissions:", j.permissions) +
              ([Line(4, "steps:")] + (PrintSteps(j.steps) + rest))))
  {
    hide Line, Optional, Section, PrintSteps;
    Regroup([Line(2, j.name + ":")], Optional(4, "needs", j.needs), Section(4, "permissions:", j.permissions),
            [Line(4, "steps:")], PrintSteps(j.steps), rest);
  }

  lemma Regroup(a: seq<string>, b: seq<string>, c: seq<string>, d: seq<string>, e: seq<string>, rest: seq<string>)
    ensures a + (b + (c + (d + e))) + rest == a + (b + (c + (d + (e + rest))))
  {
    Associative(d, e, rest);
    Associative(c, d + e, rest);
    Associative(b, c + (d + e), rest);
    Associative(a, b + (c + (d + e)), rest);
  }

  predicate Epilogue(lines: seq<string>) {
    lines == [] || (!Blank(lines[0]) && Indent(lines[0]) == 0 && lines[0] != "jobs:")
  }

  lemma {:induction false} JobsBack(jobs: seq<Job>, rest: seq<string>, acc: seq<Job>)
    requires GoodJobs(acc + jobs) && Epilogue(rest)
    ensures ParseJobs(PrintJobs(jobs) + rest, acc) == Ok(acc + jobs)
    ensures StopsPermissions(PrintJobs(jobs) + rest)
  {
    hide GoodJob, PrintJob, Line;
    if jobs == [] {
      assert PrintJobs(jobs) + rest == rest && acc + jobs == acc;
    } else {
      var more := PrintJobs(jobs[1..]) + rest;
      assert acc + [jobs[0]] + jobs[1..] == acc + jobs;
      JobsBack(jobs[1..], rest, acc + [jobs[0]]);
      NewJob(acc, jobs);
      JobBack(jobs[0], more, acc);
      Associative(PrintJob(jobs[0]), PrintJobs(jobs[1..]), rest);
      JobStarts(jobs[0], more);
    }
  }

  lemma NewJob(acc: seq<Job>, jobs: seq<Job>)
    requires GoodJobs(acc + jobs) && jobs != []
    ensures GoodJob(jobs[0]) && !HasJob(acc, jobs[0].name)
  {
    hide GoodJob;
    var all := acc + jobs;
    assert all[|acc|] == jobs[0];
    forall i | 0 <= i < |acc| ensures acc[i].name != jobs[0].name {
      assert all[i] == acc[i];
    }
  }

  lemma JobStarts(j: Job, more: seq<string>)
    requires GoodJob(j)
    ensures StopsPermissions(PrintJob(j) + more)
  {
    hide Line, Optional, Section, PrintSteps;
    TitleLine(2, j.name + ":");
    assert (PrintJob(j) + more)[0] == Line(2, j.name + ":");
  }

  // ---- Lines and text.

  ghost predicate AllNoBreaks(lines: seq<string>) { forall i :: 0 <= i < |lines| ==> NoBreaks(lines[i]) }

  lemma {:induction false} LineEndOf(line: string, rest: string)
    requires NoBreaks(line)
    ensures LineEnd(line + "\n" + rest) == |line|
  {
    var t := line + "\n" + rest;
    if line != "" {
      LineEndOf(line[1..], rest);
      assert t[1..] == line[1..] + "\n" + rest;
    }
  }

  lemma {:induction false} LinesBack(lines: seq<string>)
    requires AllNoBreaks(lines)
    ensures SplitLines(Unlines(lines)) == lines
  {
    hide SplitLines, NoBreaks;
    if lines != [] {
      LinesBack(lines[1..]);
      FirstLineBack(lines[0], Unlines(lines[1..]));
      assert lines == [lines[0]] + lines[1..];
    } else {
      NoLines();
    }
  }

  lemma NoLines()
    ensures SplitLines("") == []
  {
  }

  lemma FirstLineBack(line: string, rest: string)
    requires NoBreaks(line)
    ensures SplitLines(line + "\n" + rest) == [line] + SplitLines(rest)
  {
    hide LineEnd, NoBreaks;
    var t := line + "\n" + rest;
    LineEndOf(line, rest);
    assert t[|line|] == '\n' && t[..|line|] == line && t[|line| + 1..] == rest;
  }

  lemma {:induction false} SpacesNoBreaks(n: nat)
    ensures NoBreaks(Spaces(n))
  {
    if n > 0 { SpacesNoBreaks(n - 1); }
  }

  lemma EntryNoBreaks(n: nat, key: string, v: string)
    requires NoBreaks(key) && NoBreaks(v)
    ensures NoBreaks(Line(n, EntryText(key, v))) && NoBreaks(Line(n, key)) && NoBreaks(Line(n, key + ":"))
  {
    SpacesNoBreaks(n);
  }

  lemma {:induction false} EntriesNoBreaks(n: nat, es: seq<Entry>)
    requires GoodEntries(es)
    ensures AllNoBreaks(PrintEntries(n, es))
  {
    hide Line, EntryText, NoBreaks;
    if es != [] {
      EntryNoBreaks(n, es[0].key, es[0].value);
      EntriesNoBreaks(n, es[1..]);
    }
  }

  lemma {:induction false} RunNoBreaks(lines: seq<string>)
    requires AllNoBreaks(lines)
    ensures AllNoBreaks(PrintRun(lines))
  {
    hide Line, NoBreaks;
    if lines != [] {
      EntryNoBreaks(10, lines[0], "");
      RunNoBreaks(lines[1..]);
    }
  }

  lemma {:induction false} SplitChars(s: string, i: nat)
    requires i < |Split(s, '\n')|
    requires forall k :: 0 <= k < |s| ==> !Break(s[k]) || s[k] == '\n'
    ensures NoBreaks(Split(s, '\n')[i])
  {
    if s != "" {
      if s[0] == '\n' {
        if i > 0 { SplitChars(s[1..], i - 1); }
      } else {
        SplitChars(s[1..], i);
      }
    }
  }

  lemma NoBreaksAppend(a: seq<string>, b: seq<string>)
    requires AllNoBreaks(a) && AllNoBreaks(b)
    ensures AllNoBreaks(a + b)
  {
    hide NoBreaks;
  }

  lemma OptionalNoBreaks(n: nat, key: string, v: string)
    requires NoBreaks(key) && NoBreaks(v)
    ensures AllNoBreaks(Optional(n, key, v))
  {
    hide Line, EntryText, NoBreaks;
    EntryNoBreaks(n, key, v);
  }

  lemma SectionNoBreaks(n: nat, title: string, es: seq<Entry>)
    requires NoBreaks(title) && GoodEntries(es)
    ensures AllNoBreaks(Section(n, title, es))
  {
    hide Line, NoBreaks, GoodEntries, PrintEntries;
    EntryNoBreaks(n, title, "");
    EntriesNoBreaks(n + 2, es);
    NoBreaksAppend([Line(n, title)], PrintEntries(n + 2, es));
  }

  lemma RunPartNoBreaks(run: string)
    requires forall i :: 0 <= i < |run| ==> !Break(run[i]) || run[i] == '\n'
    ensures AllNoBreaks([Line(8, "run: |")] + PrintRun(Split(run, '\n')))
  {
    hide Line, PrintRun, Split;
    assert NoBreaks("run: |");
    EntryNoBreaks(8, "run: |", "");
    forall i | 0 <= i < |Split(run, '\n')| ensures NoBreaks(Split(run, '\n')[i]) { SplitChars(run, i); }
    RunNoBreaks(Split(run, '\n'));
  }

  lemma FirstNoBreaks(name: string)
    requires NoBreaks(name)
    ensures NoBreaks(Line(6, "- " + EntryText("name", name)))
  {
    hide Line, EntryText;
    assert NoBreaks("- name");
    EntryNoBreaks(6, "- name", name);
    NameText(name);
  }

  lemma StepNoBreaks(s: Step)
    requires GoodStep(s)
    ensures AllNoBreaks(PrintStep(s))
  {
    hide Line, EntryText, Optional, Section, PrintRun, Split, AllNoBreaks, GoodEntries;
    assert NoBreaks("id") && NoBreaks("uses") && NoBreaks("with:");
    hide NoBreaks;
    var run, inputs := [Line(8, "run: |")] + PrintRun(Split(s.run, '\n')), Section(8, "with:", s.inputs);
    var uses, id := Optional(8, "uses", s.uses), Optional(8, "id", s.stepId);
    RunPartNoBreaks(s.run);
    SectionNoBreaks(8, "with:", s.inputs);
    OptionalNoBreaks(8, "uses", s.uses);
    OptionalNoBreaks(8, "id", s.stepId);
    NoBreaksAppend(inputs, run);
    NoBreaksAppend(uses, inputs + run);
    NoBreaksAppend(id, uses + (inputs + run));
    FirstNoBreaks(s.name);
    OneNoBreaks(Line(6, "- " + EntryText("name", s.name)), PrintFields(s));
  }

  lemma OneNoBreaks(line: string, rest: seq<string>)
    requires NoBreaks(line) && AllNoBreaks(rest)
    ensures AllNoBreaks([line] + rest)
  {
    hide NoBreaks;
  }

  lemma NameText(name: string)
    ensures EntryText("- name", name) == "- " + EntryText("name", name)
  {
  }

  lemma {:induction false} StepsNoBreaks(steps: seq<Step>)
    requires forall i :: 0 <= i < |steps| ==> GoodStep(steps[i])
    ensures AllNoBreaks(PrintSteps(steps))
  {
    hide PrintStep, NoBreaks, GoodStep;
    if steps != [] {
      StepNoBreaks(steps[0]);
      StepsNoBreaks(steps[1..]);
    }
  }

  lemma JobNoBreaks(j: Job)
    requires GoodJob(j)
    ensures AllNoBreaks(PrintJob(j))
  {
    hide Line, EntryText, PrintEntries, PrintSteps, GoodStep;
    assert NoBreaks("needs") && NoBreaks("permissions:") && NoBreaks("steps:");
    EntryNoBreaks(2, j.name, "");
    EntryNoBreaks(4, "needs", j.needs);
    EntryNoBreaks(4, "permissions:", "");
    EntryNoBreaks(4, "steps:", "");
    EntriesNoBreaks(6, j.permissions);
    StepsNoBreaks(j.steps);
  }

  lemma {:induction false} JobsNoBreaks(jobs: seq<Job>)
    requires forall i :: 0 <= i < |jobs| ==> GoodJob(jobs[i])
    ensures AllNoBreaks(PrintJobs(jobs))
  {
    hide PrintJob, NoBreaks, GoodJob;
    if jobs != [] {
      JobNoBreaks(jobs[0]);
      JobsNoBreaks(jobs[1..]);
    }
  }

  lemma {:induction false} PrologueSkipped(prologue: seq<string>, rest: seq<string>)
    requires "jobs:" !in prologue
    ensures AfterJobs(prologue + (["jobs:"] + rest)) == rest
  {
    var lines := prologue + (["jobs:"] + rest);
    if prologue == [] {
      assert lines == ["jobs:"] + rest && lines[1..] == rest;
    } else {
      PrologueSkipped(prologue[1..], rest);
      assert lines[1..] == prologue[1..] + (["jobs:"] + rest);
    }
  }

  /** Printing uniquely named jobs and parsing the text gives the same jobs,
      whatever lines stand before "jobs:" and after the last job. */
  lemma ParsePrint(prologue: seq<string>, jobs: seq<Job>, epilogue: seq<string>)
    requires GoodJobs(jobs) && jobs != []
    requires "jobs:" !in prologue && AllNoBreaks(prologue)
    requires Epilogue(epilogue) && AllNoBreaks(epilogue)
    ensures Parse(Print(prologue, jobs, epilogue)) == Ok(jobs)
  {
    hide GoodJob, PrintJobs, Unlines, SplitLines, ParseJobs, AfterJobs, Epilogue, NoBreaks;
    JobsNoBreaks(jobs);
    TitleNoBreaks();
    var body := PrintJobs(jobs) + epilogue;
    var lines := prologue + (["jobs:"] + body);
    assert AllNoBreaks(lines);
    LinesBack(lines);
    PrologueSkipped(prologue, body);
    assert [] + jobs == jobs;
    JobsBack(jobs, epilogue, []);
  }

  lemma TitleNoBreaks()
    ensures NoBreaks("jobs:")
  {
  }
}
