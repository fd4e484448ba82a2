/** Resource ids of fault drills (scripts/fault_drill_registry.py). */
module DrillRegistry {
  import opened Text

  const LIMIT: nat := 0x1_0000_0000

  // ---- Numbers as text.

  function HexChar(d: nat): (c: char)
    requires d < 16
    ensures c != '.'
  {
    if d < 10 then (48 + d) as char else (87 + d) as char
  }

  // The last `width` hexadecimal digits of a number.
  function Hex(n: nat, width: nat): (s: string)
    ensures |s| == width && '.' !in s
  {
    if width == 0 then "" else Hex(n / 16, width - 1) + [HexChar(n % 16)]
  }

  function Power(width: nat): (p: nat)
    ensures p >= 1
  {
    if width == 0 then 1 else 16 * Power(width - 1)
  }

  lemma {:induction false} HexInjective(a: nat, b: nat, width: nat)
    requires a < Power(width) && b < Power(width) && Hex(a, width) == Hex(b, width)
    ensures a == b
  {
    if width > 0 {
      var p, q := Hex(a / 16, width - 1), Hex(b / 16, width - 1);
      assert (p + [HexChar(a % 16)])[..width - 1] == p && (q + [HexChar(b % 16)])[..width - 1] == q;
      assert (p + [HexChar(a % 16)])[width - 1] == HexChar(a % 16) && (q + [HexChar(b % 16)])[width - 1] == HexChar(b % 16);
      HexInjective(a / 16, b / 16, width - 1);
    }
  }

  lemma EightDigits()
    ensures Power(8) == LIMIT
  {
  }

  // ---- Resource ids.

  // `scenario_id.replace(":", ".")`
  function Slug(id: string): (s: string)
    ensures |s| == |id| && forall i :: 0 <= i < |id| ==> s[i] == if id[i] == ':' then '.' else id[i]
  {
    seq(|id|, i requires 0 <= i < |id| => if id[i] == ':' then '.' else id[i])
  }

  function Tail(seed: nat, worker: nat, index: nat): string {
    ".s" + Hex(seed, 8) + ".w" + Hex(worker, 8) + ".r" + Decimal(index)
  }

  function ResourceId(id: string, seed: nat, worker: nat, index: nat): string {
    "pe6." + Slug(id) + Tail(seed, worker, index)
  }

  // Two texts that end in a part without dots after the same separator.
  lemma CutAtDot(a: string, b: string, x: string, y: string)
    requires a + ".r" + x == b + ".r" + y && '.' !in x && '.' !in y
    ensures a == b && x == y
  {
    LastDot(a, x);
    LastDot(b, y);
    SameCut(a, b, ".r", x, y);
  }

  lemma LastDot(a: string, x: string)
    requires '.' !in x
    ensures var s := a + ".r" + x; s[|a|] == '.' && forall i :: |a| < i < |s| ==> s[i] != '.'
  {
  }

  lemma SameCut(a: string, b: string, m: string, x: string, y: string)
    requires a + m + x == b + m + y && |a| == |b|
    ensures a == b && x == y
  {
    assert (a + m + x)[..|a|] == a && (b + m + y)[..|b|] == b;
    assert (a + m + x)[|a| + |m|..] == x && (b + m + y)[|b| + |m|..] == y;
  }

  /** Two resource ids are equal exactly when the slug, the seed, the worker and the index are. */
  lemma ResourceIdExactly(id: string, seed: nat, worker: nat, index: nat, id': string, seed': nat, worker': nat, index': nat)
    requires seed < LIMIT && seed' < LIMIT && worker < LIMIT && worker' < LIMIT
    ensures ResourceId(id, seed, worker, index) == ResourceId(id', seed', worker', index') <==>
            Slug(id) == Slug(id') && seed == seed' && worker == worker' && index == index'
  {
    if ResourceId(id, seed, worker, index) == ResourceId(id', seed', worker', index') {
      var a, b := "pe6." + Slug(id), "pe6." + Slug(id');
      var s, s', w, w' := Hex(seed, 8), Hex(seed', 8), Hex(worker, 8), Hex(worker', 8);
      Parts(a, b, s, s', w, w', Decimal(index), Decimal(index'));
      EightDigits();
      HexInjective(seed, seed', 8);
      HexInjective(worker, worker', 8);
      DecimalInjective(index, index');
      assert a[4..] == Slug(id) && b[4..] == Slug(id');
    }
  }

  lemma Parts(a: string, b: string, s: string, s': string, w: string, w': string, x: string, y: string)
    requires a + (".s" + s + ".w" + w + ".r" + x) == b + (".s" + s' + ".w" + w' + ".r" + y)
    requires |s| == |s'| && |w| == |w'| && '.' !in x && '.' !in y
    ensures a == b && s == s' && w == w' && x == y
  {
    assert a + (".s" + s + ".w" + w + ".r" + x) == (a + ".s" + s + ".w" + w) + ".r" + x;
    assert b + (".s" + s' + ".w" + w' + ".r" + y) == (b + ".s" + s' + ".w" + w') + ".r" + y;
    CutAtDot(a + ".s" + s + ".w" + w, b + ".s" + s' + ".w" + w', x, y);
    CutEnd(a + ".s" + s + ".w", b + ".s" + s' + ".w", w, w');
    CutEnd(a + ".s" + s, b + ".s" + s', ".w", ".w");
    CutEnd(a + ".s", b + ".s", s, s');
    CutEnd(a, b, ".s", ".s");
  }

  /** The resource ids of a drill: one for each resource kind, numbered from one. */
  function ResourceIds(id: string, seed: nat, worker: nat, count: nat): (r: seq<string>)
    ensures |r| == count && forall i :: 0 <= i < count ==> r[i] == ResourceId(id, seed, worker, i + 1)
  {
    seq(count, i requires 0 <= i < count => ResourceId(id, seed, worker, i + 1))
  }

  lemma {:induction false} SlugOfPlain(id: string)
    requires ':' !in id
    ensures Slug(id) == id
  {
  }

  /** Two drills have a resource id in common exactly when slug, seed and worker agree and both
      ask for a resource; then the ids of the two agree index by index, and at no other indices. */
  lemma SharedExactly(id: string, seed: nat, worker: nat, count: nat, id': string, seed': nat, worker': nat, count': nat)
    requires seed < LIMIT && seed' < LIMIT && worker < LIMIT && worker' < LIMIT
    ensures var r, r' := ResourceIds(id, seed, worker, count), ResourceIds(id', seed', worker', count');
            && ((exists x :: x in r && x in r') <==>
                Slug(id) == Slug(id') && seed == seed' && worker == worker' && count >= 1 && count' >= 1)
            && (forall i, j :: 0 <= i < count && 0 <= j < count' ==>
                  (r[i] == r'[j] <==> Slug(id) == Slug(id') && seed == seed' && worker == worker' && i == j))
  {
    hide ResourceId, Slug;
    var r, r' := ResourceIds(id, seed, worker, count), ResourceIds(id', seed', worker', count');
    forall i, j | 0 <= i < count && 0 <= j < count'
      ensures r[i] == r'[j] <==> Slug(id) == Slug(id') && seed == seed' && worker == worker' && i == j
    {
      ResourceIdExactly(id, seed, worker, i + 1, id', seed', worker', j + 1);
    }
    if Slug(id) == Slug(id') && seed == seed' && worker == worker' && count >= 1 && count' >= 1 {
      assert r[0] in r && r'[0] in r' && r[0] == r'[0];
    }
  }

  /** A colon and a dot collide: two different scenarios with the same resource ids. */
  lemma ColonsCollide(seed: nat, worker: nat, index: nat)
    ensures "pe6:a" != "pe6.a" && ResourceId("pe6:a", seed, worker, index) == ResourceId("pe6.a", seed, worker, index)
  {
  }
}
