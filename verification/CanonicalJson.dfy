/** Canonical JSON and the idempotency hash of engine/src/event_schema.rs.

    A document is a tree; an object lists its fields in the order in which the
    map is iterated.  A number is the text that serde_json prints for it. */
module CanonicalJson {
  import opened Ordering
  import opened Text

  datatype Value =
    | Null
    | Bool(b: bool)
    | Number(text: string)
    | Str(s: string)
    | Array(items: seq<Value>)
    | Object(fields: seq<Field>)

  datatype Field = Field(key: string, value: Value)

  function FieldKey(f: Field): Key { [f.key] }

  // ---- Sizes, so that a sorted copy of the fields is known to be no larger.

  ghost function Size(v: Value): nat {
    match v
    case Array(items) => 1 + SizeItems(items)
    case Object(fields) => 1 + SizeFields(fields)
    case _ => 1
  }

  ghost function SizeItems(items: seq<Value>): nat {
    if items == [] then 0 else 1 + Size(items[0]) + SizeItems(items[1..])
  }

  ghost function SizeFields(fields: seq<Field>): nat {
    if fields == [] then 0 else 1 + Size(fields[0].value) + SizeFields(fields[1..])
  }

  lemma {:induction false} SizeOfInsert(x: Field, fields: seq<Field>)
    ensures SizeFields(Insert(x, fields, FieldKey)) == 1 + Size(x.value) + SizeFields(fields)
  {
    var r := Insert(x, fields, FieldKey);
    if fields != [] && !KeyLeq(FieldKey(x), FieldKey(fields[0])) {
      SizeOfInsert(x, fields[1..]);
      assert r == [fields[0]] + Insert(x, fields[1..], FieldKey);
    } else {
      assert r == [x] + fields;
    }
  }

  lemma {:induction false} SizeOfSort(fields: seq<Field>)
    ensures SizeFields(SortBy(fields, FieldKey)) == SizeFields(fields)
  {
    if fields != [] {
      SizeOfSort(fields[1..]);
      SizeOfInsert(fields[0], SortBy(fields[1..], FieldKey));
    }
  }

  lemma {:induction false} SizeOfElement(fields: seq<Field>, i: nat)
    requires i < |fields|
    ensures Size(fields[i].value) < SizeFields(fields)
  {
    if i > 0 { SizeOfElement(fields[1..], i - 1); }
  }

  // ---- String literals (section 7 of RFC 8259).

  function HexDigit(n: nat): char
    requires n < 16
  {
    if n < 10 then '0' + n as char else 'a' + (n - 10) as char
  }

  function HexValue(c: char): int {
    if '0' <= c <= '9' then c as int - '0' as int
    else if 'a' <= c <= 'f' then c as int - 'a' as int + 10
    else if 'A' <= c <= 'F' then c as int - 'A' as int + 10
    else -1
  }

  function EscapeChar(c: char): string {
    if c == '\"' then "\\\""
    else if c == '\\' then "\\\\"
    else if c == '\U{0008}' then "\\b"
    else if c == '\U{000C}' then "\\f"
    else if c == '\n' then "\\n"
    else if c == '\r' then "\\r"
    else if c == '\t' then "\\t"
    else if c < ' ' then "\\u00" + [HexDigit(c as int / 16), HexDigit(c as int % 16)]
    else [c]
  }

  function Escaped(s: string): string {
    if s == "" then "" else EscapeChar(s[0]) + Escaped(s[1..])
  }

  function Quoted(s: string): string { "\"" + Escaped(s) + "\"" }

  // ---- The canonical printer.

  function Canonical(v: Value): string
    decreases Size(v), 0
  {
    match v
    case Null => "null"
    case Bool(b) => if b then "true" else "false"
    case Number(text) => text
    case Str(s) => Quoted(s)
    case Array(items) => "[" + CanonicalItems(items) + "]"
    case Object(fields) =>
      SizeOfSort(fields);
      "{" + CanonicalFields(SortBy(fields, FieldKey)) + "}"
  }

  function CanonicalItems(items: seq<Value>): string
    decreases SizeItems(items), 1
  {
    if items == [] then ""
    else if |items| == 1 then Canonical(items[0])
    else Canonical(items[0]) + "," + CanonicalItems(items[1..])
  }

  function FieldText(key: string, text: string): string { "\"" + key + "\":" + text }

  function CanonicalFields(fields: seq<Field>): string
    decreases SizeFields(fields), 1
  {
    if fields == [] then ""
    else
      var first := FieldText(fields[0].key, Canonical(fields[0].value));
      if |fields| == 1 then first else first + "," + CanonicalFields(fields[1..])
  }

  // ---- A decoder for the canonical text.

  datatype Parsed<+T> = Fail | Done(value: T, rest: string) {
    predicate IsFailure() { Fail? }
    function PropagateFailure<U>(): Parsed<U> requires Fail? { Fail }
    function Extract(): (T, string) requires Done? { (value, rest) }
  }

  predicate NumberChar(c: char) { '0' <= c <= '9' || c in "+-.eE" }

  function NumberPrefix(t: string): (n: nat)
    ensures n <= |t|
  {
    if t != "" && NumberChar(t[0]) then 1 + NumberPrefix(t[1..]) else 0
  }

  // The character written by the escape sequence after a backslash, and the
  // number of characters it takes.
  function Unescape(t: string): (r: Parsed<char>)
    ensures r.Done? ==> |r.rest| < |t|
  {
    if t == "" then Fail
    else if t[0] == '\"' then Done('\"', t[1..])
    else if t[0] == '\\' then Done('\\', t[1..])
    else if t[0] == '/' then Done('/', t[1..])
    else if t[0] == 'b' then Done('\U{0008}', t[1..])
    else if t[0] == 'f' then Done('\U{000C}', t[1..])
    else if t[0] == 'n' then Done('\n', t[1..])
    else if t[0] == 'r' then Done('\r', t[1..])
    else if t[0] == 't' then Done('\t', t[1..])
    else if t[0] != 'u' || |t| < 5 then Fail
    else
      var a, b, c, d := HexValue(t[1]), HexValue(t[2]), HexValue(t[3]), HexValue(t[4]);
      var code := ((a * 16 + b) * 16 + c) * 16 + d;
      if a < 0 || b < 0 || c < 0 || d < 0 || 0xD800 <= code < 0xE000 then Fail
      else Done(code as char, t[5..])
  }

  // The rest of a string literal, after its opening quote.
  function ParseString(t: string): (r: Parsed<string>)
    ensures r.Done? ==> |r.rest| < |t|
    decreases |t|
  {
    if t == "" || t[0] < ' ' then Fail
    else if t[0] == '\"' then Done("", t[1..])
    else
      var (c, rest) :- if t[0] == '\\' then Unescape(t[1..]) else Done(t[0], t[1..]);
      var (s, rest') :- ParseString(rest);
      Done([c] + s, rest')
  }

  // The rest of an object key: everything up to the next quote, taken literally.
  function ParseKey(t: string): (r: Parsed<string>)
    ensures r.Done? ==> |r.rest| < |t|
  {
    if t == "" then Fail
    else if t[0] == '\"' then Done("", t[1..])
    else
      var (s, rest) :- ParseKey(t[1..]);
      Done([t[0]] + s, rest)
  }

  function Parse(t: string): (r: Parsed<Value>)
    ensures r.Done? ==> |r.rest| < |t|
    decreases |t|, 0
  {
    if t == "" then Fail
    else if t[0] == 'n' then Literal(t, "null", Null)
    else if t[0] == 't' then Literal(t, "true", Bool(true))
    else if t[0] == 'f' then Literal(t, "false", Bool(false))
    else if t[0] == '\"' then
      var (s, rest) :- ParseString(t[1..]);
      Done(Str(s), rest)
    else if t[0] == '[' then
      if |t| > 1 && t[1] == ']' then Done(Array([]), t[2..])
      else
        var (items, rest) :- ParseItems(t[1..]);
        Done(Array(items), rest)
    else if t[0] == '{' then
      if |t| > 1 && t[1] == '}' then Done(Object([]), t[2..])
      else
        var (fields, rest) :- ParseFields(t[1..]);
        Done(Object(fields), rest)
    else
      var n := NumberPrefix(t);
      if n == 0 then Fail else Done(Number(t[..n]), t[n..])
  }

  function Literal(t: string, word: string, v: Value): (r: Parsed<Value>)
    requires word != ""
    ensures r.Done? ==> |r.rest| < |t|
  {
    if word <= t then Done(v, t[|word|..]) else Fail
  }

  // One or more values separated by commas, up to and with the closing bracket.
  function ParseItems(t: string): (r: Parsed<seq<Value>>)
    ensures r.Done? ==> |r.rest| < |t|
    decreases |t|, 1
  {
    var (v, rest) :- Parse(t);
    if rest == "" then Fail
    else if rest[0] == ']' then Done([v], rest[1..])
    else if rest[0] != ',' then Fail
    else
      var (items, rest') :- ParseItems(rest[1..]);
      Done([v] + items, rest')
  }

  // One field: a quoted key, a colon and a value.
  function ParseField(t: string): (r: Parsed<Field>)
    ensures r.Done? ==> |r.rest| < |t|
    decreases |t|, 1
  {
    if t == "" || t[0] != '\"' then Fail
    else
      var (key, rest) :- ParseKey(t[1..]);
      if rest == "" || rest[0] != ':' then Fail
      else
        var (v, rest') :- Parse(rest[1..]);
        Done(Field(key, v), rest')
  }

  // One or more fields separated by commas, up to and with the closing brace.
  function ParseFields(t: string): (r: Parsed<seq<Field>>)
    ensures r.Done? ==> |r.rest| < |t|
    decreases |t|, 2
  {
    var (f, rest) :- ParseField(t);
    if rest == "" then Fail
    else if rest[0] == '}' then Done([f], rest[1..])
    else if rest[0] != ',' then Fail
    else
      var (fields, rest') :- ParseFields(rest[1..]);
      Done([f] + fields, rest')
  }

  // ---- The documents that the printer separates.

  /** Keys of one object are distinct, as a map's are; numbers are number texts;
      and no key holds a quote, which the printer would not escape. */
  ghost predicate Plain(v: Value) {
    match v
    case Number(text) => text != "" && NumberPrefix(text) == |text|
    case Array(items) => PlainItems(items)
    case Object(fields) => PlainFields(fields) && DistinctBy(fields, FieldKey)
    case _ => true
  }

  ghost predicate PlainItems(items: seq<Value>) {
    items != [] ==> Plain(items[0]) && PlainItems(items[1..])
  }

  ghost predicate PlainFields(fields: seq<Field>) {
    fields != [] ==>
      '\"' !in fields[0].key && Plain(fields[0].value) && PlainFields(fields[1..])
  }

  lemma {:induction false} PlainFieldsElement(fields: seq<Field>)
    ensures PlainFields(fields) <==>
            forall i :: 0 <= i < |fields| ==> '\"' !in fields[i].key && Plain(fields[i].value)
  {
    if fields != [] {
      PlainFieldsElement(fields[1..]);
      assert forall i :: 0 <= i < |fields[1..]| ==> fields[1..][i] == fields[i + 1];
      assert forall i :: 1 <= i < |fields| ==> fields[i] == fields[1..][i - 1];
    }
  }

  /** The same document with every object's fields in key order. */
  ghost function Normal(v: Value): Value {
    match v
    case Array(items) => Array(NormalItems(items))
    case Object(fields) => Object(SortBy(NormalFields(fields), FieldKey))
    case _ => v
  }

  ghost function NormalItems(items: seq<Value>): (r: seq<Value>)
    ensures |r| == |items|
  {
    if items == [] then [] else [Normal(items[0])] + NormalItems(items[1..])
  }

  ghost function NormalFields(fields: seq<Field>): (r: seq<Field>)
    ensures |r| == |fields|
  {
    if fields == [] then []
    else [Field(fields[0].key, Normal(fields[0].value))] + NormalFields(fields[1..])
  }

  lemma {:induction false} NormalItemsAt(items: seq<Value>, i: nat)
    requires i < |items|
    ensures NormalItems(items)[i] == Normal(items[i])
  {
    if i > 0 { NormalItemsAt(items[1..], i - 1); }
  }

  lemma {:induction false} NormalFieldsAt(fields: seq<Field>, i: nat)
    requires i < |fields|
    ensures NormalFields(fields)[i] == Field(fields[i].key, Normal(fields[i].value))
  {
    if i > 0 { NormalFieldsAt(fields[1..], i - 1); }
  }

  // ---- Decoding a string literal.

  lemma UnescapeEscape(c: char, rest: string)
    requires |EscapeChar(c)| > 1
    ensures Unescape(EscapeChar(c)[1..] + rest) == Done(c, rest)
  {
  }

  lemma EscapeShape(c: char)
    ensures EscapeChar(c) != ""
    ensures |EscapeChar(c)| == 1 ==> EscapeChar(c) == [c] && c != '\"' && c != '\\' && c >= ' '
    ensures |EscapeChar(c)| > 1 ==> EscapeChar(c)[0] == '\\'
  {
  }

  lemma {:induction false} ParseQuoted(s: string, rest: string)
    ensures ParseString(Escaped(s) + "\"" + rest) == Done(s, rest)
  {
    hide EscapeChar, Unescape;
    var t := Escaped(s) + "\"" + rest;
    if s == "" {
      assert t == "\"" + rest;
    } else {
      var tail := Escaped(s[1..]) + "\"" + rest;
      ParseQuoted(s[1..], rest);
      assert t == EscapeChar(s[0]) + tail;
      EscapeShape(s[0]);
      if |EscapeChar(s[0])| > 1 {
        UnescapeEscape(s[0], tail);
        assert t[1..] == EscapeChar(s[0])[1..] + tail;
      } else {
        assert t[1..] == tail;
      }
      assert s == [s[0]] + s[1..];
    }
  }

  lemma {:induction false} ParseRawKey(key: string, rest: string)
    requires '\"' !in key
    ensures ParseKey(key + "\"" + rest) == Done(key, rest)
  {
    var t := key + "\"" + rest;
    if key == "" {
      assert t == "\"" + rest;
    } else {
      ParseRawKey(key[1..], rest);
      assert t[1..] == key[1..] + "\"" + rest;
      assert key == [key[0]] + key[1..];
    }
  }

  lemma {:induction false} NumberPrefixOf(text: string, rest: string)
    requires NumberPrefix(text) == |text|
    requires rest == "" || !NumberChar(rest[0])
    ensures NumberPrefix(text + rest) == |text|
  {
    if text == "" {
      assert text + rest == rest;
    } else {
      NumberPrefixOf(text[1..], rest);
      assert (text + rest)[1..] == text[1..] + rest;
    }
  }

  // ---- Decoding a document.

  // Text after a value: it must not continue a number.
  predicate Ends(rest: string) { rest == "" || !NumberChar(rest[0]) }

  // The canonical text of a value is not empty and does not start like a
  // closing bracket.
  lemma FirstChar(v: Value)
    requires Plain(v)
    ensures Canonical(v) != "" && Canonical(v)[0] != ']' && Canonical(v)[0] != '}'
  {
  }

  lemma ParseItemsStep(t: string, v: Value, rest: string)
    requires Parse(t) == Done(v, rest) && rest != ""
    ensures rest[0] == ']' ==> ParseItems(t) == Done([v], rest[1..])
    ensures rest[0] == ',' && ParseItems(rest[1..]).Done? ==>
              ParseItems(t) == Done([v] + ParseItems(rest[1..]).value, ParseItems(rest[1..]).rest)
  {
  }

  lemma ParseFieldStep(key: string, t: string, v: Value, rest: string)
    requires '\"' !in key
    requires Parse(t) == Done(v, rest)
    ensures ParseField(FieldText(key, t)) == Done(Field(key, v), rest)
  {
    var text, colon := FieldText(key, t), ":" + t;
    assert text[1..] == key + "\"" + colon;
    ParseRawKey(key, colon);
    assert colon[1..] == t;
  }

  lemma ParseFieldsStep(t: string, f: Field, rest: string)
    requires ParseField(t) == Done(f, rest) && rest != ""
    ensures rest[0] == '}' ==> ParseFields(t) == Done([f], rest[1..])
    ensures rest[0] == ',' && ParseFields(rest[1..]).Done? ==>
              ParseFields(t) == Done([f] + ParseFields(rest[1..]).value, ParseFields(rest[1..]).rest)
  {
  }

  lemma ParseArrayAt(t: string)
    requires |t| > 1 && t[0] == '[' && t[1] != ']' && ParseItems(t[1..]).Done?
    ensures Parse(t) == Done(Array(ParseItems(t[1..]).value), ParseItems(t[1..]).rest)
  {
  }

  lemma ParseObjectAt(t: string)
    requires |t| > 1 && t[0] == '{' && t[1] != '}' && ParseFields(t[1..]).Done?
    ensures Parse(t) == Done(Object(ParseFields(t[1..]).value), ParseFields(t[1..]).rest)
  {
  }

  lemma ParseArrayStep(body: string, items: seq<Value>, rest: string)
    requires body != "" && body[0] != ']'
    requires ParseItems(body + "]" + rest) == Done(items, rest)
    ensures Parse("[" + body + "]" + rest) == Done(Array(items), rest)
  {
    hide Parse, ParseItems;
    var t := "[" + body + "]" + rest;
    assert t[1..] == body + "]" + rest;
    assert t[1] == body[0];
    ParseArrayAt(t);
  }

  lemma ParseObjectStep(body: string, fields: seq<Field>, rest: string)
    requires body != "" && body[0] != '}'
    requires ParseFields(body + "}" + rest) == Done(fields, rest)
    ensures Parse("{" + body + "}" + rest) == Done(Object(fields), rest)
  {
    hide Parse, ParseFields;
    var t := "{" + body + "}" + rest;
    assert t[1..] == body + "}" + rest;
    assert t[1] == body[0];
    ParseObjectAt(t);
  }

  lemma ParseNumber(text: string, rest: string)
    requires text != "" && NumberPrefix(text) == |text| && Ends(rest)
    ensures Parse(text + rest) == Done(Number(text), rest)
  {
    var t := text + rest;
    NumberPrefixOf(text, rest);
    assert NumberChar(text[0]) && t[0] == text[0];
    assert t[..|text|] == text && t[|text|..] == rest;
  }

  lemma ParseStr(s: string, rest: string)
    ensures Parse(Quoted(s) + rest) == Done(Str(s), rest)
  {
    hide ParseString, Escaped;
    var t := Quoted(s) + rest;
    ParseQuoted(s, rest);
    assert t[1..] == Escaped(s) + "\"" + rest;
    assert t[0] == '\"';
  }

  lemma ParseWord(v: Value, rest: string)
    requires v.Null? || v.Bool?
    ensures Parse(Canonical(v) + rest) == Done(v, rest)
  {
  }

  lemma ParseEmpty(rest: string)
    ensures Parse("[]" + rest) == Done(Array([]), rest)
    ensures Parse("{}" + rest) == Done(Object([]), rest)
  {
  }

  lemma FieldTextAppend(key: string, text: string, after: string)
    ensures FieldText(key, text) + after == FieldText(key, text + after)
  {
  }

  /** The decoder recovers the document, in key order, and the remaining input. */
  lemma {:induction false} RoundTrip(v: Value, rest: string)
    requires Plain(v) && Ends(rest)
    ensures Parse(Canonical(v) + rest) == Done(Normal(v), rest)
    decreases Size(v), 0
  {
    hide Parse;
    match v {
      case Array(items) => RoundTripArray(items, rest);
      case Object(fields) => RoundTripObject(fields, rest);
      case Number(text) => ParseNumber(text, rest);
      case Str(s) => ParseStr(s, rest);
      case _ => ParseWord(v, rest);
    }
  }

  lemma {:induction false} RoundTripArray(items: seq<Value>, rest: string)
    requires PlainItems(items)
    ensures Parse(Canonical(Array(items)) + rest) == Done(Array(NormalItems(items)), rest)
    decreases SizeItems(items), 2
  {
    hide Parse, ParseItems;
    if items == [] {
      ParseEmpty(rest);
      assert Canonical(Array(items)) == "[]";
    } else {
      RoundTripItems(items, rest);
      FirstChar(items[0]);
      ParseArrayStep(CanonicalItems(items), NormalItems(items), rest);
    }
  }

  lemma {:induction false} RoundTripObject(fields: seq<Field>, rest: string)
    requires Plain(Object(fields))
    ensures Parse(Canonical(Object(fields)) + rest) == Done(Normal(Object(fields)), rest)
    decreases SizeFields(fields), 2
  {
    hide Parse, ParseFields, Canonical, CanonicalFields, NormalFields;
    var sorted := SortBy(fields, FieldKey);
    ObjectText(fields);
    if fields == [] {
      ParseEmpty(rest);
    } else {
      SizeOfSort(fields);
      PlainOfSort(fields);
      RoundTripFields(sorted, rest);
      NormalOfSort(fields);
      ParseObjectStep(CanonicalFields(sorted), NormalFields(sorted), rest);
    }
  }

  lemma ObjectText(fields: seq<Field>)
    ensures var body := CanonicalFields(SortBy(fields, FieldKey));
            && Canonical(Object(fields)) == "{" + body + "}"
            && (if fields == [] then body == "" else body != "" && body[0] == '\"')
            && (fields == [] ==> Canonical(Object(fields)) == "{}" && Normal(Object(fields)) == Object([]))
  {
  }

  // The text of a list, cut after its first element.
  function AfterFirst(count: nat, rest: string, close: string, tail: string): string {
    if count == 1 then close + tail else "," + (rest + close + tail)
  }

  lemma Regroup(count: nat, first: string, rest: string, close: string, tail: string)
    ensures (if count == 1 then first else first + "," + rest) + close + tail == first + AfterFirst(count, rest, close, tail)
  {
  }

  lemma ItemsText(items: seq<Value>, tail: string)
    requires items != []
    ensures CanonicalItems(items) + "]" + tail ==
            Canonical(items[0]) + AfterFirst(|items|, CanonicalItems(items[1..]), "]", tail)
    ensures |items| == 1 ==> NormalItems(items) == [Normal(items[0])]
  {
    hide Canonical, Normal, AfterFirst;
    Regroup(|items|, Canonical(items[0]), CanonicalItems(items[1..]), "]", tail);
  }

  lemma FieldsText(fields: seq<Field>, tail: string)
    requires fields != []
    ensures CanonicalFields(fields) + "}" + tail ==
            FieldText(fields[0].key, Canonical(fields[0].value) + AfterFirst(|fields|, CanonicalFields(fields[1..]), "}", tail))
    ensures |fields| == 1 ==> NormalFields(fields) == [Field(fields[0].key, Normal(fields[0].value))]
  {
    hide Canonical, Normal, FieldText, AfterFirst;
    var rest := CanonicalFields(fields[1..]);
    Regroup(|fields|, FieldText(fields[0].key, Canonical(fields[0].value)), rest, "}", tail);
    FieldTextAppend(fields[0].key, Canonical(fields[0].value), AfterFirst(|fields|, rest, "}", tail));
  }

  lemma {:induction false} RoundTripItems(items: seq<Value>, rest: string)
    requires items != [] && PlainItems(items)
    ensures ParseItems(CanonicalItems(items) + "]" + rest) == Done(NormalItems(items), rest)
    decreases SizeItems(items), 1
  {
    hide Parse, ParseItems, CanonicalItems, Canonical, Normal, Plain;
    var after := AfterFirst(|items|, CanonicalItems(items[1..]), "]", rest);
    RoundTrip(items[0], after);
    ParseItemsStep(Canonical(items[0]) + after, Normal(items[0]), after);
    ItemsText(items, rest);
    if |items| == 1 {
      assert after[1..] == rest;
    } else {
      RoundTripItems(items[1..], rest);
      assert after[1..] == CanonicalItems(items[1..]) + "]" + rest;
    }
  }

  lemma {:induction false} RoundTripFields(fields: seq<Field>, rest: string)
    requires fields != [] && PlainFields(fields)
    ensures ParseFields(CanonicalFields(fields) + "}" + rest) == Done(NormalFields(fields), rest)
    decreases SizeFields(fields), 1
  {
    hide Parse, ParseField, ParseFields, CanonicalFields, FieldText, Canonical, Normal, Plain;
    var key, v := fields[0].key, Normal(fields[0].value);
    var after := AfterFirst(|fields|, CanonicalFields(fields[1..]), "}", rest);
    var text := Canonical(fields[0].value) + after;
    RoundTrip(fields[0].value, after);
    ParseFieldStep(key, text, v, after);
    ParseFieldsStep(FieldText(key, text), Field(key, v), after);
    FieldsText(fields, rest);
    if |fields| == 1 {
      assert after[1..] == rest;
    } else {
      RoundTripFields(fields[1..], rest);
      assert after[1..] == CanonicalFields(fields[1..]) + "}" + rest;
    }
  }

  lemma PlainOfSort(fields: seq<Field>)
    requires PlainFields(fields)
    ensures PlainFields(SortBy(fields, FieldKey))
  {
    var sorted := SortBy(fields, FieldKey);
    PlainFieldsElement(fields);
    PlainFieldsElement(sorted);
    forall i | 0 <= i < |sorted| ensures sorted[i] in fields {
      assert sorted[i] in multiset(sorted);
    }
  }

  // Sorting before or after normalising the children makes no difference.
  lemma {:induction false} NormalOfInsert(x: Field, fields: seq<Field>)
    ensures NormalFields(Insert(x, fields, FieldKey)) ==
            Insert(Field(x.key, Normal(x.value)), NormalFields(fields), FieldKey)
  {
    var r := Insert(x, fields, FieldKey);
    if fields != [] && !KeyLeq(FieldKey(x), FieldKey(fields[0])) {
      NormalOfInsert(x, fields[1..]);
      assert r == [fields[0]] + Insert(x, fields[1..], FieldKey);
      assert NormalFields(fields)[1..] == NormalFields(fields[1..]);
    } else {
      assert r == [x] + fields;
      assert r[1..] == fields;
    }
  }

  lemma {:induction false} NormalOfSort(fields: seq<Field>)
    ensures NormalFields(SortBy(fields, FieldKey)) == SortBy(NormalFields(fields), FieldKey)
  {
    if fields != [] {
      NormalOfSort(fields[1..]);
      NormalOfInsert(fields[0], SortBy(fields[1..], FieldKey));
      assert NormalFields(fields)[1..] == NormalFields(fields[1..]);
    }
  }

  // ---- Documents that differ only in the order of their keys.

  ghost function Keys(fields: seq<Field>): set<string> {
    set i | 0 <= i < |fields| :: fields[i].key
  }

  ghost function Get(fields: seq<Field>, key: string): (v: Value)
    requires key in Keys(fields)
    ensures Field(key, v) in fields
    ensures Size(v) < SizeFields(fields)
  {
    var i :| 0 <= i < |fields| && fields[i].key == key;
    SizeOfElement(fields, i);
    fields[i].value
  }

  /** Equality of documents in which the order of an object's keys is no part. */
  ghost predicate SameDocument(v: Value, w: Value)
    decreases Size(v), 0
  {
    match (v, w)
    case (Array(a), Array(b)) => SameItems(a, b)
    case (Object(f), Object(g)) =>
      && Keys(f) == Keys(g)
      && forall key :: key in Keys(f) ==> SameDocument(Get(f, key), Get(g, key))
    case _ => v == w
  }

  ghost predicate SameItems(a: seq<Value>, b: seq<Value>)
    decreases SizeItems(a), 1
  {
    |a| == |b| && (a != [] ==> SameDocument(a[0], b[0]) && SameItems(a[1..], b[1..]))
  }

  lemma GetOfNormal(fields: seq<Field>, key: string, v: Value)
    requires DistinctBy(fields, FieldKey)
    ensures Field(key, v) in NormalFields(fields) <==> key in Keys(fields) && v == Normal(Get(fields, key))
  {
  }

  lemma NormalDistinct(fields: seq<Field>)
    requires DistinctBy(fields, FieldKey)
    ensures DistinctBy(NormalFields(fields), FieldKey)
  {
    forall i, j | 0 <= i < j < |fields|
      ensures FieldKey(NormalFields(fields)[i]) != FieldKey(NormalFields(fields)[j])
    {
      NormalFieldsAt(fields, i);
      NormalFieldsAt(fields, j);
      assert FieldKey(fields[i]) != FieldKey(fields[j]);
    }
  }

  lemma {:induction false} DistinctMultiplicity(s: seq<Field>, x: Field)
    requires DistinctBy(s, FieldKey)
    ensures multiset(s)[x] == if x in s then 1 else 0
  {
    if s != [] {
      assert s == [s[0]] + s[1..];
      DistinctMultiplicity(s[1..], x);
      if x in s[1..] {
        var j :| 0 <= j < |s[1..]| && s[1..][j] == x;
        assert FieldKey(s[0]) != FieldKey(s[j + 1]);
      }
    }
  }

  lemma SortsAgree(a: seq<Field>, b: seq<Field>)
    requires DistinctBy(a, FieldKey) && DistinctBy(b, FieldKey)
    ensures SortBy(a, FieldKey) == SortBy(b, FieldKey) <==> (forall x :: x in a <==> x in b)
  {
    var p, q := SortBy(a, FieldKey), SortBy(b, FieldKey);
    if p == q {
      forall x ensures x in a <==> x in b {
        assert x in a <==> x in multiset(a);
        assert x in b <==> x in multiset(b);
      }
    }
    if forall x :: x in a <==> x in b {
      forall x ensures multiset(a)[x] == multiset(b)[x] {
        DistinctMultiplicity(a, x);
        DistinctMultiplicity(b, x);
      }
      assert multiset(p) == multiset(q);
      SortKeepsDistinct(a, FieldKey);
      SortedUnique(p, q, FieldKey);
    }
  }

  lemma {:induction false} NormalIffSame(v: Value, w: Value)
    requires Plain(v) && Plain(w)
    ensures Normal(v) == Normal(w) <==> SameDocument(v, w)
    decreases Size(v), 0
  {
    match (v, w) {
      case (Array(a), Array(b)) => NormalIffSameItems(a, b);
      case (Object(f), Object(g)) => NormalIffSameFields(f, g);
      case _ =>
    }
  }

  lemma {:induction false} NormalIffSameItems(a: seq<Value>, b: seq<Value>)
    requires PlainItems(a) && PlainItems(b)
    ensures NormalItems(a) == NormalItems(b) <==> SameItems(a, b)
    decreases SizeItems(a), 1
  {
    if a != [] && |a| == |b| {
      NormalIffSame(a[0], b[0]);
      NormalIffSameItems(a[1..], b[1..]);
      assert NormalItems(a)[0] == Normal(a[0]) && NormalItems(a)[1..] == NormalItems(a[1..]);
      assert NormalItems(b)[0] == Normal(b[0]) && NormalItems(b)[1..] == NormalItems(b[1..]);
    }
  }

  lemma {:induction false} NormalIffSameFields(f: seq<Field>, g: seq<Field>)
    requires Plain(Object(f)) && Plain(Object(g))
    ensures Normal(Object(f)) == Normal(Object(g)) <==> SameDocument(Object(f), Object(g))
    decreases SizeFields(f), 1
  {
    var a, b := NormalFields(f), NormalFields(g);
    NormalDistinct(f);
    NormalDistinct(g);
    SortsAgree(a, b);
    forall key | key in Keys(f) && key in Keys(g)
      ensures Normal(Get(f, key)) == Normal(Get(g, key)) <==> SameDocument(Get(f, key), Get(g, key))
    {
      PlainFieldsElement(f);
      PlainFieldsElement(g);
      NormalIffSame(Get(f, key), Get(g, key));
    }
    forall x: Field
      ensures x in a <==> x.key in Keys(f) && x.value == Normal(Get(f, x.key))
      ensures x in b <==> x.key in Keys(g) && x.value == Normal(Get(g, x.key))
    {
      GetOfNormal(f, x.key, x.value);
      GetOfNormal(g, x.key, x.value);
    }
    if SameDocument(Object(f), Object(g)) {
      assert forall x :: x in a <==> x in b;
    }
    if forall x :: x in a <==> x in b {
      SameElementsSameDocument(f, g);
    }
  }

  lemma SameElementsSameDocument(f: seq<Field>, g: seq<Field>)
    requires DistinctBy(f, FieldKey) && DistinctBy(g, FieldKey)
    requires forall x :: x in NormalFields(f) <==> x in NormalFields(g)
    ensures Keys(f) == Keys(g)
    ensures forall key :: key in Keys(f) ==> Normal(Get(f, key)) == Normal(Get(g, key))
  {
    forall key
      ensures key in Keys(f) ==> key in Keys(g) && Normal(Get(f, key)) == Normal(Get(g, key))
      ensures key in Keys(g) ==> key in Keys(f)
    {
      if key in Keys(f) {
        GetOfNormal(f, key, Normal(Get(f, key)));
        GetOfNormal(g, key, Normal(Get(f, key)));
      }
      if key in Keys(g) {
        GetOfNormal(g, key, Normal(Get(g, key)));
        GetOfNormal(f, key, Normal(Get(g, key)));
      }
    }
  }

  /** Canonical text identifies the document up to the order of its keys. */
  lemma CanonicalIffSame(v: Value, w: Value)
    requires Plain(v) && Plain(w)
    ensures Canonical(v) == Canonical(w) <==> SameDocument(v, w)
  {
    RoundTrip(v, "");
    RoundTrip(w, "");
    assert Canonical(v) + "" == Canonical(v) && Canonical(w) + "" == Canonical(w);
    NormalIffSame(v, w);
    if SameDocument(v, w) {
      CanonicalOfNormal(v);
      CanonicalOfNormal(w);
    }
  }

  // The canonical text depends on the normal form only.
  lemma {:induction false} CanonicalOfNormal(v: Value)
    ensures Canonical(Normal(v)) == Canonical(v)
    decreases Size(v), 0
  {
    match v {
      case Array(items) => CanonicalOfNormalItems(items);
      case Object(fields) =>
        SizeOfSort(fields);
        var sorted := SortBy(fields, FieldKey);
        CanonicalOfNormalFields(sorted);
        NormalOfSort(fields);
        SortOfSorted(SortBy(NormalFields(fields), FieldKey), FieldKey);
      case _ =>
    }
  }

  lemma {:induction false} CanonicalOfNormalItems(items: seq<Value>)
    ensures CanonicalItems(NormalItems(items)) == CanonicalItems(items)
    decreases SizeItems(items), 1
  {
    if items != [] {
      CanonicalOfNormal(items[0]);
      CanonicalOfNormalItems(items[1..]);
      assert NormalItems(items)[1..] == NormalItems(items[1..]);
    }
  }

  lemma {:induction false} CanonicalOfNormalFields(fields: seq<Field>)
    ensures CanonicalFields(NormalFields(fields)) == CanonicalFields(fields)
    decreases SizeFields(fields), 1
  {
    if fields != [] {
      CanonicalOfNormal(fields[0].value);
      CanonicalOfNormalFields(fields[1..]);
      assert NormalFields(fields)[1..] == NormalFields(fields[1..]);
    }
  }

  // ---- Exactly which documents are decoded.

  // A document as a map holds it: distinct keys, and number texts.
  ghost predicate Proper(v: Value) {
    match v
    case Number(text) => text != "" && NumberPrefix(text) == |text|
    case Array(items) => forall i :: 0 <= i < |items| ==> Proper(items[i])
    case Object(fields) => DistinctBy(fields, FieldKey) && forall i :: 0 <= i < |fields| ==> Proper(fields[i].value)
    case _ => true
  }

  /** No key at any depth holds a quote. */
  ghost predicate QuoteFree(v: Value) {
    match v
    case Array(items) => forall i :: 0 <= i < |items| ==> QuoteFree(items[i])
    case Object(fields) => forall i :: 0 <= i < |fields| ==> '\"' !in fields[i].key && QuoteFree(fields[i].value)
    case _ => true
  }

  lemma {:induction false} PlainExactly(v: Value)
    ensures Plain(v) <==> Proper(v) && QuoteFree(v)
  {
    match v
    case Array(items) =>
      PlainItemsElement(items);
      forall i | 0 <= i < |items| ensures Plain(items[i]) <==> Proper(items[i]) && QuoteFree(items[i]) { PlainExactly(items[i]); }
    case Object(fields) =>
      PlainFieldsElement(fields);
      forall i | 0 <= i < |fields| ensures Plain(fields[i].value) <==> Proper(fields[i].value) && QuoteFree(fields[i].value) {
        PlainExactly(fields[i].value);
      }
    case _ =>
  }

  lemma {:induction false} PlainItemsElement(items: seq<Value>)
    ensures PlainItems(items) <==> forall i :: 0 <= i < |items| ==> Plain(items[i])
  {
    if items != [] {
      PlainItemsElement(items[1..]);
      assert forall i :: 0 <= i < |items[1..]| ==> items[1..][i] == items[i + 1];
      assert forall i :: 1 <= i < |items| ==> items[i] == items[1..][i - 1];
    }
  }

  lemma {:induction false} KeyHasNoQuote(t: string)
    ensures ParseKey(t).Done? ==> '\"' !in ParseKey(t).value
  {
    if t != "" && t[0] != '\"' { KeyHasNoQuote(t[1..]); }
  }

  /** Whatever the decoder reads has no quote in a key. */
  lemma {:induction false} DecodedQuoteFree(t: string)
    ensures Parse(t).Done? ==> QuoteFree(Parse(t).value)
    decreases |t|, 0
  {
    hide ParseString, Literal, NumberPrefix, ParseItems, ParseFields;
    if t != "" && t[0] == '[' { ItemsQuoteFree(t[1..]); }
    if t != "" && t[0] == '{' { FieldsQuoteFree(t[1..]); }
    LiteralQuoteFree(t);
  }

  lemma LiteralQuoteFree(t: string)
    ensures Literal(t, "null", Null).Done? ==> Literal(t, "null", Null).value == Null
    ensures Literal(t, "true", Bool(true)).Done? ==> Literal(t, "true", Bool(true)).value == Bool(true)
    ensures Literal(t, "false", Bool(false)).Done? ==> Literal(t, "false", Bool(false)).value == Bool(false)
  {
  }

  lemma {:induction false} ItemsQuoteFree(t: string)
    ensures ParseItems(t).Done? ==> forall i :: 0 <= i < |ParseItems(t).value| ==> QuoteFree(ParseItems(t).value[i])
    decreases |t|, 1
  {
    hide Parse, QuoteFree;
    DecodedQuoteFree(t);
    var p := Parse(t);
    if p.Done? && p.rest != "" && p.rest[0] == ',' { ItemsQuoteFree(p.rest[1..]); }
  }

  lemma {:induction false} FieldQuoteFree(t: string)
    ensures ParseField(t).Done? ==> '\"' !in ParseField(t).value.key && QuoteFree(ParseField(t).value.value)
    decreases |t|, 1
  {
    hide Parse, QuoteFree;
    if t != "" && t[0] == '\"' {
      KeyHasNoQuote(t[1..]);
      var k := ParseKey(t[1..]);
      if k.Done? && k.rest != "" { DecodedQuoteFree(k.rest[1..]); }
    }
  }

  lemma {:induction false} FieldsQuoteFree(t: string)
    ensures ParseFields(t).Done? ==> QuoteFree(Object(ParseFields(t).value))
    decreases |t|, 2
  {
    hide ParseField;
    FieldQuoteFree(t);
    var p := ParseField(t);
    if p.Done? && p.rest != "" && p.rest[0] == ',' { FieldsQuoteFree(p.rest[1..]); }
  }

  lemma {:induction false} NormalQuoteFree(v: Value)
    requires QuoteFree(Normal(v))
    ensures QuoteFree(v)
  {
    match v
    case Array(items) =>
      forall i | 0 <= i < |items| ensures QuoteFree(items[i]) {
        NormalItemsAt(items, i);
        NormalQuoteFree(items[i]);
      }
    case Object(fields) =>
      var normal := NormalFields(fields);
      var sorted := SortBy(normal, FieldKey);
      SortKeepsElements(normal, FieldKey);
      forall i | 0 <= i < |fields| ensures '\"' !in fields[i].key && QuoteFree(fields[i].value) {
        NormalFieldsAt(fields, i);
        assert normal[i] in sorted;
        var j :| 0 <= j < |sorted| && sorted[j] == normal[i];
        assert QuoteFree(sorted[j].value);
        NormalQuoteFree(fields[i].value);
      }
    case _ =>
  }

  /** The decoder recovers a document from its canonical text exactly when no key holds a quote. */
  lemma DecodedExactly(v: Value)
    requires Proper(v)
    ensures Parse(Canonical(v)) == Done(Normal(v), "") <==> QuoteFree(v)
  {
    hide Parse, Canonical, Normal, Plain, Proper, QuoteFree;
    PlainExactly(v);
    if QuoteFree(v) {
      assert Canonical(v) + "" == Canonical(v);
      RoundTrip(v, "");
    } else {
      DecodedQuoteFree(Canonical(v));
      if QuoteFree(Normal(v)) { NormalQuoteFree(v); }
    }
  }

  /** Without the condition on keys the printer is not injective: a key with a
      quote in it can spell out a second field. */
  lemma QuotedKeysCollide()
    ensures var one := Object([Field("a\":0,\"b", Number("1"))]);
            var two := Object([Field("a", Number("0")), Field("b", Number("1"))]);
            Canonical(one) == Canonical(two) && !SameDocument(one, two)
  {
    var f, g, h := Field("a\":0,\"b", Number("1")), Field("a", Number("0")), Field("b", Number("1"));
    SortOfSorted([f], FieldKey);
    assert SortedBy([g, h], FieldKey);
    SortOfSorted([g, h], FieldKey);
    CollidingTexts(f, g, h);
    assert "a" in Keys([g, h]) by { assert [g, h][0].key == "a"; }
    assert "a" !in Keys([f]) by { assert |f.key| == 7; }
  }

  lemma CollidingTexts(f: Field, g: Field, h: Field)
    requires f == Field("a\":0,\"b", Number("1"))
    requires g == Field("a", Number("0")) && h == Field("b", Number("1"))
    ensures CanonicalFields([f]) == CanonicalFields([g, h])
  {
  }

  // ---- The idempotency hash.

  const EXCLUDED: set<string> := {"event_id", "timestamp"}

  function Filtered(fields: seq<Field>): seq<Field> {
    if fields == [] then []
    else
      var rest := Filtered(fields[1..]);
      if fields[0].key in EXCLUDED then rest else [fields[0]] + rest
  }

  function HashInput(event: Value): Result<string> {
    if event.Object? then Ok(Canonical(Object(Filtered(event.fields))))
    else Err("event must be a JSON object")
  }

  method StableIdempotencyHash(event: Value, sha256: string -> string) returns (r: Result<string>)
    ensures r.Ok? <==> event.Object?
    ensures r.Ok? ==> r.value == sha256(HashInput(event).value)
  {
    if !event.Object? {
      return Err("event must be a JSON object");
    }
    var filtered: seq<Field> := [];
    var fields := event.fields;
    for i := 0 to |fields|
      invariant filtered + Filtered(fields[i..]) == Filtered(fields)
    {
      assert fields[i..][1..] == fields[i + 1..];
      if fields[i].key !in EXCLUDED {
        filtered := filtered + [fields[i]];
      }
    }
    assert filtered == Filtered(fields);
    r := Ok(sha256(Canonical(Object(filtered))));
  }

  lemma {:induction false} FilteredElements(fields: seq<Field>, x: Field)
    ensures x in Filtered(fields) <==> x in fields && x.key !in EXCLUDED
  {
    if fields != [] {
      FilteredElements(fields[1..], x);
      assert fields == [fields[0]] + fields[1..];
    }
  }

  lemma {:induction false} FilteredPlain(fields: seq<Field>)
    requires PlainFields(fields) && DistinctBy(fields, FieldKey)
    ensures PlainFields(Filtered(fields)) && DistinctBy(Filtered(fields), FieldKey)
  {
    if fields != [] {
      FilteredPlain(fields[1..]);
      var rest := Filtered(fields[1..]);
      forall j | 0 <= j < |rest| ensures FieldKey(rest[j]) != FieldKey(fields[0]) {
        FilteredElements(fields[1..], rest[j]);
        var k :| 0 <= k < |fields[1..]| && fields[1..][k] == rest[j];
        assert fields[k + 1] == rest[j];
      }
    }
  }

  /** Two events agree on every field except the excluded ones. */
  ghost predicate AgreeOutsideExcluded(f: seq<Field>, g: seq<Field>) {
    forall key :: key !in EXCLUDED ==>
      && (key in Keys(f) <==> key in Keys(g))
      && (key in Keys(f) && key in Keys(g) ==> SameDocument(Get(f, key), Get(g, key)))
  }

  lemma GetUnique(fields: seq<Field>, x: Field)
    requires DistinctBy(fields, FieldKey) && x in fields
    ensures x.key in Keys(fields) && Get(fields, x.key) == x.value
  {
  }

  lemma KeysOfFiltered(fields: seq<Field>, key: string)
    requires PlainFields(fields) && DistinctBy(fields, FieldKey)
    ensures key in Keys(Filtered(fields)) <==> key in Keys(fields) && key !in EXCLUDED
    ensures key in Keys(Filtered(fields)) ==> Get(Filtered(fields), key) == Get(fields, key)
  {
    FilteredPlain(fields);
    var kept := Filtered(fields);
    if key in Keys(kept) {
      var x := Field(key, Get(kept, key));
      FilteredElements(fields, x);
      GetUnique(fields, x);
    }
    if key in Keys(fields) && key !in EXCLUDED {
      var x := Field(key, Get(fields, key));
      FilteredElements(fields, x);
      GetUnique(kept, x);
    }
  }

  /** The hash input is equal exactly for events that agree outside the
      excluded fields, whatever the order of the keys at any depth. */
  lemma HashInputIffAgree(f: seq<Field>, g: seq<Field>)
    requires Plain(Object(f)) && Plain(Object(g))
    ensures HashInput(Object(f)) == HashInput(Object(g)) <==> AgreeOutsideExcluded(f, g)
  {
    hide Canonical, Filtered, PlainFields;
    var a, b := Filtered(f), Filtered(g);
    FilteredPlain(f);
    FilteredPlain(g);
    CanonicalIffSame(Object(a), Object(b));
    forall key
      ensures key in Keys(a) <==> key in Keys(f) && key !in EXCLUDED
      ensures key in Keys(a) ==> Get(a, key) == Get(f, key)
      ensures key in Keys(b) <==> key in Keys(g) && key !in EXCLUDED
      ensures key in Keys(b) ==> Get(b, key) == Get(g, key)
    {
      KeysOfFiltered(f, key);
      KeysOfFiltered(g, key);
    }
    if AgreeOutsideExcluded(f, g) {
      assert Keys(a) == Keys(b);
    }
  }
}
