/** The JSONC-to-JSON normaliser of scripts/release_provenance.py: one pass that
    drops comments and one that drops trailing commas.

    The two loops are proved against two recursive functions; what these do is
    then stated on token sequences, which know nothing of either loop. */
module Jsonc {
  import opened Text

  // ---- The two passes as functions of the remaining text and the loop's flags.

  function Prepend(s: string, r: Result<string>): Result<string> {
    if r.Ok? then Ok(s + r.value) else r
  }

  predicate LineBreak(c: char) { c == '\r' || c == '\n' }

  // The number of characters before the next line break.
  function LineLength(t: string): (n: nat)
    ensures n <= |t|
  {
    if t == "" || LineBreak(t[0]) then 0 else 1 + LineLength(t[1..])
  }

  // The number of characters up to and with the first `*/`, or -1.
  function BlockLength(t: string): (n: int)
    ensures -1 <= n <= |t|
  {
    if |t| < 2 then -1
    else if t[0] == '*' && t[1] == '/' then 2
    else
      var n := BlockLength(t[1..]);
      if n < 0 then -1 else n + 1
  }

  function Uncomment(t: string, inString: bool, escaped: bool): Result<string>
    decreases |t|
  {
    if t == "" then if inString then Err("unterminated JSONC string") else Ok("")
    else if inString then
      Prepend([t[0]], Uncomment(t[1..], escaped || t[0] != '\"', !escaped && t[0] == '\\'))
    else if t[0] == '\"' then Prepend([t[0]], Uncomment(t[1..], true, false))
    else if t[0] == '/' && |t| > 1 && t[1] == '/' then Uncomment(t[2..][LineLength(t[2..])..], false, false)
    else if t[0] == '/' && |t| > 1 && t[1] == '*' then
      var n := BlockLength(t[2..]);
      if n < 0 then Err("unterminated JSONC block comment") else Uncomment(t[2..][n..], false, false)
    else Prepend([t[0]], Uncomment(t[1..], false, false))
  }

  // Only white space, and then a closing bracket.
  predicate Closes(t: string) {
    t != "" && if IsSpace(t[0]) then Closes(t[1..]) else t[0] == '}' || t[0] == ']'
  }

  function DropCommas(t: string, inString: bool, escaped: bool): string {
    if t == "" then ""
    else if inString then
      [t[0]] + DropCommas(t[1..], escaped || t[0] != '\"', !escaped && t[0] == '\\')
    else if t[0] == '\"' then [t[0]] + DropCommas(t[1..], true, false)
    else if t[0] == ',' && Closes(t[1..]) then DropCommas(t[1..], false, false)
    else [t[0]] + DropCommas(t[1..], false, false)
  }

  function Normalized(text: string): Result<string> {
    var r := Uncomment(text, false, false);
    if r.Ok? then Ok(DropCommas(r.value, false, false)) else r
  }

  // ---- The loops.

  lemma PrependTwice(a: string, b: string, r: Result<string>)
    ensures Prepend(a, Prepend(b, r)) == Prepend(a + b, r)
  {
    if r.Ok? { assert a + (b + r.value) == a + b + r.value; }
  }

  lemma PrependNothing(r: Result<string>)
    ensures Prepend("", r) == r
  {
    if r.Ok? { assert "" + r.value == r.value; }
  }

  lemma PrependError(s: string, error: string)
    ensures Prepend(s, Err(error)) == Err(error)
  {
  }

  lemma UncommentEnd(s: string, inString: bool, escaped: bool)
    ensures Prepend(s, Uncomment("", inString, escaped)) == if inString then Err("unterminated JSONC string") else Ok(s)
  {
    assert s + "" == s;
  }

  // One step of the first pass at an index.
  lemma UncommentStep(text: string, i: nat, inString: bool, escaped: bool)
    requires i < |text|
    ensures var t, c, next := text[i..], text[i], text[i + 1..];
            && (inString ==>
                  Uncomment(t, true, escaped) == Prepend([c], Uncomment(next, escaped || c != '\"', !escaped && c == '\\')))
            && (c == '\"' ==> Uncomment(t, false, false) == Prepend([c], Uncomment(next, true, false)))
            && (c != '\"' && (c != '/' || i + 1 == |text| || (text[i + 1] != '/' && text[i + 1] != '*')) ==>
                  Uncomment(t, false, false) == Prepend([c], Uncomment(next, false, false)))
  {
    assert text[i..][1..] == text[i + 1..];
  }

  lemma UncommentSkip(text: string, i: nat)
    requires i + 1 < |text| && text[i] == '/'
    ensures text[i + 1] == '/' ==>
              Uncomment(text[i..], false, false) == Uncomment(text[i + 2..][LineLength(text[i + 2..])..], false, false)
    ensures text[i + 1] == '*' ==>
              var n := BlockLength(text[i + 2..]);
              Uncomment(text[i..], false, false) ==
              if n < 0 then Err("unterminated JSONC block comment") else Uncomment(text[i + 2 + n..], false, false)
  {
    assert text[i..][2..] == text[i + 2..];
    var n := BlockLength(text[i + 2..]);
    if n >= 0 { assert text[i + 2..][n..] == text[i + 2 + n..]; }
  }

  method StripComments(text: string) returns (r: Result<string>)
    ensures r == Uncomment(text, false, false)
  {
    hide Uncomment, Prepend, BlockLength, LineLength;
    var output, index, inString, escaped := "", 0, false, false;
    assert text[0..] == text;
    PrependNothing(Uncomment(text, false, false));
    while index < |text|
      invariant index <= |text|
      invariant !inString ==> !escaped
      invariant Prepend(output, Uncomment(text[index..], inString, escaped)) == Uncomment(text, false, false)
    {
      var character := text[index];
      UncommentStep(text, index, inString, escaped);
      PrependTwice(output, [character], Uncomment(text[index + 1..], escaped || character != '\"', !escaped && character == '\\'));
      PrependTwice(output, [character], Uncomment(text[index + 1..], true, false));
      PrependTwice(output, [character], Uncomment(text[index + 1..], false, false));
      if inString {
        output := output + [character];
        if escaped {
          escaped := false;
        } else if character == '\\' {
          escaped := true;
        } else if character == '\"' {
          inString := false;
        }
        index := index + 1;
        continue;
      }
      if character == '\"' {
        inString := true;
        output := output + [character];
        index := index + 1;
        continue;
      }
      if character == '/' && index + 1 < |text| {
        var following := text[index + 1];
        UncommentSkip(text, index);
        if following == '/' {
          index := SkipLine(text, index + 2);
          continue;
        }
        if following == '*' {
          var n := BlockLength(text[index + 2..]);
          if n < 0 {
            PrependError(output, "unterminated JSONC block comment");
            return Err("unterminated JSONC block comment");
          }
          index := index + 2 + n;
          continue;
        }
      }
      output := output + [character];
      index := index + 1;
    }
    assert text[index..] == "";
    UncommentEnd(output, inString, escaped);
    if inString {
      return Err("unterminated JSONC string");
    }
    r := Ok(output);
  }

  method SkipLine(text: string, start: nat) returns (index: nat)
    requires start <= |text|
    ensures start <= index <= |text|
    ensures text[index..] == text[start..][LineLength(text[start..])..]
  {
    index := start;
    while index < |text| && !LineBreak(text[index])
      invariant start <= index <= |text|
      invariant text[index..][LineLength(text[index..])..] == text[start..][LineLength(text[start..])..]
    {
      assert text[index..][1..] == text[index + 1..];
      index := index + 1;
    }
  }

  method NextCloses(text: string, start: nat) returns (closes: bool)
    requires start <= |text|
    ensures closes <==> Closes(text[start..])
  {
    var following := start;
    while following < |text| && IsSpace(text[following])
      invariant start <= following <= |text|
      invariant Closes(text[following..]) <==> Closes(text[start..])
    {
      assert text[following..][1..] == text[following + 1..];
      following := following + 1;
    }
    closes := following < |text| && (text[following] == '}' || text[following] == ']');
  }

  method StripTrailingCommas(text: string) returns (output: string)
    ensures output == DropCommas(text, false, false)
  {
    hide Closes, IsSpace;
    output := "";
    var index, inString, escaped := 0, false, false;
    assert text[0..] == text;
    while index < |text|
      invariant index <= |text|
      invariant !inString ==> !escaped
      invariant output + DropCommas(text[index..], inString, escaped) == DropCommas(text, false, false)
    {
      var character := text[index];
      assert text[index..][1..] == text[index + 1..];
      if inString {
        output := output + [character];
        if escaped {
          escaped := false;
        } else if character == '\\' {
          escaped := true;
        } else if character == '\"' {
          inString := false;
        }
        index := index + 1;
        continue;
      }
      if character == '\"' {
        inString := true;
        output := output + [character];
        index := index + 1;
        continue;
      }
      if character == ',' {
        var closes := NextCloses(text, index + 1);
        if closes {
          index := index + 1;
          continue;
        }
      }
      output := output + [character];
      index := index + 1;
    }
    assert text[index..] == "";
    assert output + "" == output;
  }

  method StripCommentsAndTrailingCommas(text: string) returns (r: Result<string>)
    ensures r == Normalized(text)
  {
    r := StripComments(text);
    if r.Err? { return; }
    var output := StripTrailingCommas(r.value);
    r := Ok(output);
  }

  // ---- Tokens.

  datatype Token = Literal(text: string) | Comment(text: string) | Plain(c: char)

  function TokenText(token: Token): string { if token.Plain? then [token.c] else token.text }

  function Spell(ts: seq<Token>): string {
    if ts == [] then "" else TokenText(ts[0]) + Spell(ts[1..])
  }

  // The number of characters up to and with the quote that ends a string, or -1.
  function StringLength(t: string, escaped: bool): (n: int)
    ensures -1 <= n <= |t|
  {
    if t == "" then -1
    else if !escaped && t[0] == '\"' then 1
    else
      var n := StringLength(t[1..], !escaped && t[0] == '\\');
      if n < 0 then -1 else n + 1
  }

  predicate IsString(s: string) { |s| >= 2 && s[0] == '\"' && StringLength(s[1..], false) == |s| - 1 }

  predicate IsBlockComment(s: string) {
    |s| >= 4 && s[0] == '/' && s[1] == '*' && BlockLength(s[2..]) == |s| - 2
  }

  predicate IsLineComment(s: string) {
    |s| >= 2 && s[0] == '/' && s[1] == '/' && LineLength(s[2..]) == |s| - 2
  }

  // A token that may stand before `rest`.
  predicate Fits(token: Token, rest: string) {
    match token
    case Literal(s) => IsString(s)
    case Comment(s) => IsBlockComment(s) || (IsLineComment(s) && (rest == "" || LineBreak(rest[0])))
    case Plain(c) => c != '\"' && !(c == '/' && rest != "" && (rest[0] == '/' || rest[0] == '*'))
  }

  predicate Lexes(ts: seq<Token>) {
    ts != [] ==> Fits(ts[0], Spell(ts[1..])) && Lexes(ts[1..])
  }

  function Kept(ts: seq<Token>): seq<Token> {
    if ts == [] then [] else (if ts[0].Comment? then [] else [ts[0]]) + Kept(ts[1..])
  }

  // What a comma must not stand before.
  predicate BeforeClose(ts: seq<Token>) {
    ts != [] && ts[0].Plain? &&
    if IsSpace(ts[0].c) then BeforeClose(ts[1..]) else ts[0].c == '}' || ts[0].c == ']'
  }

  predicate TrailingAt(ts: seq<Token>) { ts != [] && ts[0] == Plain(',') && BeforeClose(ts[1..]) }

  function WithoutTrailing(ts: seq<Token>): seq<Token> {
    if ts == [] then [] else (if TrailingAt(ts) then [] else [ts[0]]) + WithoutTrailing(ts[1..])
  }

  function Literals(ts: seq<Token>): seq<string> {
    if ts == [] then [] else (if ts[0].Literal? then [ts[0].text] else []) + Literals(ts[1..])
  }

  // ---- Tokens keep their shape before any text.

  lemma {:induction false} StringPrefix(a: string, rest: string, escaped: bool)
    requires StringLength(a, escaped) == |a|
    ensures StringLength(a + rest, escaped) == |a|
    ensures Uncomment(a + rest, true, escaped) == Prepend(a, Uncomment(rest, false, false))
    ensures DropCommas(a + rest, true, escaped) == a + DropCommas(rest, false, false)
  {
    var t := a + rest;
    assert t[1..] == a[1..] + rest && a == [a[0]] + a[1..];
    if !escaped && a[0] == '\"' {
      assert a == [a[0]] && t[1..] == rest;
    } else {
      StringPrefix(a[1..], rest, !escaped && a[0] == '\\');
      PrependTwice([a[0]], a[1..], Uncomment(rest, false, false));
    }
  }

  lemma {:induction false} BlockPrefix(a: string, rest: string)
    requires BlockLength(a) == |a|
    ensures BlockLength(a + rest) == |a|
  {
    if !(a[0] == '*' && a[1] == '/') {
      BlockPrefix(a[1..], rest);
      assert (a + rest)[1..] == a[1..] + rest;
    }
  }

  lemma {:induction false} LinePrefix(a: string, rest: string)
    requires LineLength(a) == |a| && (rest == "" || LineBreak(rest[0]))
    ensures LineLength(a + rest) == |a|
  {
    if a == "" {
      assert a + rest == rest;
    } else {
      LinePrefix(a[1..], rest);
      assert (a + rest)[1..] == a[1..] + rest;
    }
  }

  lemma UncommentToken(token: Token, rest: string)
    requires Fits(token, rest)
    ensures Uncomment(TokenText(token) + rest, false, false) ==
            if token.Comment? then Uncomment(rest, false, false)
            else Prepend(TokenText(token), Uncomment(rest, false, false))
  {
    var s := TokenText(token);
    var t := s + rest;
    match token {
      case Literal(_) =>
        assert t[1..] == s[1..] + rest && s == [s[0]] + s[1..];
        StringPrefix(s[1..], rest, false);
        PrependTwice([s[0]], s[1..], Uncomment(rest, false, false));
      case Comment(_) =>
        assert t[2..] == s[2..] + rest;
        if IsBlockComment(s) { BlockPrefix(s[2..], rest); } else { LinePrefix(s[2..], rest); }
        assert (s[2..] + rest)[|s| - 2..] == rest;
      case Plain(_) =>
        assert t[1..] == rest;
    }
  }

  /** The first pass deletes exactly the comment tokens. */
  lemma {:induction false} UncommentTokens(ts: seq<Token>)
    requires Lexes(ts)
    ensures Uncomment(Spell(ts), false, false) == Ok(Spell(Kept(ts)))
  {
    if ts != [] {
      UncommentTokens(ts[1..]);
      UncommentToken(ts[0], Spell(ts[1..]));
      if !ts[0].Comment? { assert ([ts[0]] + Kept(ts[1..]))[1..] == Kept(ts[1..]); }
      else { assert [] + Kept(ts[1..]) == Kept(ts[1..]); }
    }
  }

  // ---- Every accepted text has one token sequence.

  lemma {:induction false} StringEnds(t: string, escaped: bool)
    requires Uncomment(t, true, escaped).Ok?
    ensures StringLength(t, escaped) > 0
  {
    if escaped || t[0] != '\"' { StringEnds(t[1..], !escaped && t[0] == '\\'); }
  }

  lemma {:induction false} StringCut(t: string, escaped: bool)
    requires StringLength(t, escaped) > 0
    ensures var n := StringLength(t, escaped); StringLength(t[..n], escaped) == n
  {
    var n := StringLength(t, escaped);
    if escaped || t[0] != '\"' {
      StringCut(t[1..], !escaped && t[0] == '\\');
      assert t[..n][1..] == t[1..][..n - 1];
    }
  }

  lemma {:induction false} BlockCut(t: string)
    requires BlockLength(t) >= 0
    ensures var n := BlockLength(t); n >= 2 && BlockLength(t[..n]) == n
  {
    if !(t[0] == '*' && t[1] == '/') {
      BlockCut(t[1..]);
      assert t[..BlockLength(t)][1..] == t[1..][..BlockLength(t) - 1];
    }
  }

  lemma {:induction false} LineCut(t: string)
    ensures var n := LineLength(t); LineLength(t[..n]) == n && (n == |t| || LineBreak(t[n]))
  {
    if t != "" && !LineBreak(t[0]) {
      LineCut(t[1..]);
      assert t[..LineLength(t)][1..] == t[1..][..LineLength(t) - 1];
    }
  }

  lemma FirstString(t: string)
    requires t != "" && t[0] == '\"' && Uncomment(t, false, false).Ok?
    ensures var n := FirstLength(t); 2 <= n <= |t| && IsString(t[..n])
  {
    StringEnds(t[1..], false);
    StringCut(t[1..], false);
    assert t[..FirstLength(t)][1..] == t[1..][..FirstLength(t) - 1];
  }

  lemma FirstComment(t: string)
    requires |t| > 1 && t[0] == '/' && (t[1] == '/' || t[1] == '*') && Uncomment(t, false, false).Ok?
    ensures var n := FirstLength(t); 2 <= n <= |t| && Fits(Comment(t[..n]), t[n..])
  {
    if t[1] == '/' { LineCut(t[2..]); } else { BlockCut(t[2..]); }
    var n := FirstLength(t);
    assert t[..n][2..] == t[2..][..n - 2];
    assert n < |t| ==> t[n] == t[2..][n - 2];
  }

  lemma FirstToken(t: string) returns (token: Token, rest: string)
    requires t != "" && Uncomment(t, false, false).Ok?
    ensures t == TokenText(token) + rest && |rest| < |t|
    ensures Fits(token, rest) && Uncomment(rest, false, false).Ok?
  {
    hide Uncomment, IsString, IsBlockComment, IsLineComment, StringLength, LineLength, BlockLength;
    var n := FirstLength(t);
    if t[0] == '\"' {
      FirstString(t);
      token := Literal(t[..n]);
    } else if t[0] == '/' && |t| > 1 && (t[1] == '/' || t[1] == '*') {
      FirstComment(t);
      token := Comment(t[..n]);
    } else {
      token := Plain(t[0]);
    }
    rest := t[n..];
    assert t == t[..n] + rest && TokenText(token) == t[..n];
    UncommentToken(token, rest);
    PrependOk(TokenText(token), Uncomment(rest, false, false));
  }

  lemma PrependOk(s: string, r: Result<string>)
    ensures Prepend(s, r).Ok? <==> r.Ok?
  {
  }

  /** A text is accepted exactly when it is spelled by some token sequence. */
  lemma {:induction false} Lexable(t: string) returns (ts: seq<Token>)
    ensures Uncomment(t, false, false).Ok? ==> Lexes(ts) && Spell(ts) == t
    decreases |t|
  {
    ts := [];
    if t != "" && Uncomment(t, false, false).Ok? {
      var token, rest := FirstToken(t);
      var more := Lexable(rest);
      ts := [token] + more;
      assert ts[1..] == more;
    }
  }

  // The length of the first token can be read off the text.
  ghost function FirstLength(t: string): int
    requires t != ""
  {
    if t[0] == '\"' then 1 + StringLength(t[1..], false)
    else if t[0] == '/' && |t| > 1 && t[1] == '/' then 2 + LineLength(t[2..])
    else if t[0] == '/' && |t| > 1 && t[1] == '*' then 2 + BlockLength(t[2..])
    else 1
  }

  lemma TokenLength(token: Token, rest: string)
    requires Fits(token, rest)
    ensures TokenText(token) != "" && FirstLength(TokenText(token) + rest) == |TokenText(token)|
    ensures token == (var s := TokenText(token);
                      if s[0] == '\"' then Literal(s) else if |s| > 1 then Comment(s) else Plain(s[0]))
  {
    hide Uncomment, DropCommas;
    var s := TokenText(token);
    match token {
      case Literal(_) =>
        StringPrefix(s[1..], rest, false);
        assert (s + rest)[1..] == s[1..] + rest;
      case Comment(_) =>
        assert (s + rest)[2..] == s[2..] + rest;
        if IsBlockComment(s) { BlockPrefix(s[2..], rest); } else { LinePrefix(s[2..], rest); }
      case Plain(_) =>
        assert (s + rest)[1..] == rest;
    }
  }

  lemma TokenUnique(a: Token, b: Token, rest: string, rest': string)
    requires Fits(a, rest) && Fits(b, rest') && TokenText(a) + rest == TokenText(b) + rest'
    ensures a == b && rest == rest'
  {
    hide Fits, TokenText, FirstLength;
    TokenLength(a, rest);
    TokenLength(b, rest');
    var s, u, t := TokenText(a), TokenText(b), TokenText(a) + rest;
    assert t[..|s|] == s && t[..|u|] == u && t[|s|..] == rest && t[|u|..] == rest';
  }

  lemma {:induction false} LexesUniquely(ts: seq<Token>, us: seq<Token>)
    requires Lexes(ts) && Lexes(us) && Spell(ts) == Spell(us)
    ensures ts == us
  {
    if ts != [] && us != [] {
      TokenUnique(ts[0], us[0], Spell(ts[1..]), Spell(us[1..]));
      LexesUniquely(ts[1..], us[1..]);
      assert ts == [ts[0]] + ts[1..] && us == [us[0]] + us[1..];
    }
  }

  // ---- The second pass on tokens.

  ghost predicate NoComments(ts: seq<Token>) { forall i :: 0 <= i < |ts| ==> !ts[i].Comment? }

  lemma {:induction false} ClosesTokens(ts: seq<Token>)
    requires Lexes(ts) && NoComments(ts)
    ensures Closes(Spell(ts)) <==> BeforeClose(ts)
  {
    if ts != [] {
      ClosesTokens(ts[1..]);
      if ts[0].Plain? { assert Spell(ts)[1..] == Spell(ts[1..]); }
    }
  }

  lemma DropStep(t: string)
    requires t != ""
    ensures DropCommas(t, false, false) ==
            if t[0] == '\"' then [t[0]] + DropCommas(t[1..], true, false)
            else (if t[0] == ',' && Closes(t[1..]) then "" else [t[0]]) + DropCommas(t[1..], false, false)
  {
  }

  lemma DropToken(token: Token, rest: string)
    requires Fits(token, rest) && !token.Comment?
    ensures DropCommas(TokenText(token) + rest, false, false) ==
            (if token == Plain(',') && Closes(rest) then "" else TokenText(token)) + DropCommas(rest, false, false)
  {
    hide Uncomment, Closes, StringLength, DropCommas;
    var s := TokenText(token);
    var t := s + rest;
    DropStep(t);
    if token.Literal? {
      StringPrefix(s[1..], rest, false);
      assert t[1..] == s[1..] + rest;
      assert [s[0]] + (s[1..] + DropCommas(rest, false, false)) == s + DropCommas(rest, false, false);
    } else {
      assert t[1..] == rest;
    }
  }

  /** The second pass deletes exactly the commas before a closing bracket. */
  lemma {:induction false} DropCommasTokens(ts: seq<Token>)
    requires Lexes(ts) && NoComments(ts)
    ensures DropCommas(Spell(ts), false, false) == Spell(WithoutTrailing(ts))
  {
    if ts != [] {
      DropCommasTokens(ts[1..]);
      ClosesTokens(ts[1..]);
      DropToken(ts[0], Spell(ts[1..]));
      var rest := WithoutTrailing(ts[1..]);
      if TrailingAt(ts) { assert [] + rest == rest; } else { assert ([ts[0]] + rest)[1..] == rest; }
    }
  }

  lemma {:induction false} KeptLexes(ts: seq<Token>)
    requires Lexes(ts)
    ensures Lexes(Kept(ts)) && NoComments(Kept(ts))
  {
    hide IsString, IsBlockComment, IsLineComment;
    if ts != [] {
      KeptLexes(ts[1..]);
      var rest := Kept(ts[1..]);
      if ts[0].Comment? {
        assert [] + rest == rest;
      } else {
        assert ([ts[0]] + rest)[1..] == rest;
        if ts[0] == Plain('/') && ts[1..] != [] { KeptFirst(ts); }
      }
    }
  }

  lemma KeptFirst(ts: seq<Token>)
    requires Lexes(ts) && |ts| > 1 && ts[0] == Plain('/')
    ensures Spell(Kept(ts[1..])) != "" && Spell(ts[1..]) != "" && Spell(Kept(ts[1..]))[0] == Spell(ts[1..])[0]
  {
    TokenLength(ts[1], Spell(ts[2..]));
    assert ts[1..][0] == ts[1] && ts[1..][1..] == ts[2..];
    assert !ts[1].Comment?;
    assert Kept(ts[1..])[0] == ts[1];
  }

  lemma {:induction false} KeptLiterals(ts: seq<Token>)
    ensures Literals(Kept(ts)) == Literals(ts)
  {
    if ts != [] {
      KeptLiterals(ts[1..]);
      var rest := Kept(ts[1..]);
      if ts[0].Comment? { assert [] + rest == rest; } else { assert ([ts[0]] + rest)[1..] == rest; }
    }
  }

  lemma {:induction false} WithoutTrailingLexes(ts: seq<Token>)
    requires Lexes(ts) && NoComments(ts)
    ensures Lexes(WithoutTrailing(ts)) && NoComments(WithoutTrailing(ts))
  {
    hide IsString, IsBlockComment, IsLineComment, BeforeClose;
    if ts != [] {
      WithoutTrailingLexes(ts[1..]);
      var rest := WithoutTrailing(ts[1..]);
      if TrailingAt(ts) {
        assert [] + rest == rest;
      } else {
        assert ([ts[0]] + rest)[1..] == rest;
        if ts[0] == Plain('/') && rest != [] { FirstKept(ts[1..]); }
      }
    }
  }

  lemma {:induction false} WithoutTrailingLiterals(ts: seq<Token>)
    ensures Literals(WithoutTrailing(ts)) == Literals(ts)
  {
    hide BeforeClose;
    if ts != [] {
      WithoutTrailingLiterals(ts[1..]);
      var rest := WithoutTrailing(ts[1..]);
      if TrailingAt(ts) { assert [] + rest == rest; } else { assert ([ts[0]] + rest)[1..] == rest; }
    }
  }

  lemma FirstKept(ts: seq<Token>)
    requires Lexes(ts) && NoComments(ts) && WithoutTrailing(ts) != []
    ensures Spell(ts) != "" && Spell(WithoutTrailing(ts)) != ""
    ensures var c := Spell(WithoutTrailing(ts))[0];
            c == Spell(ts)[0] || IsSpace(c) || c == '}' || c == ']'
  {
    if TrailingAt(ts) {
      var rest := ts[1..];
      assert !TrailingAt(rest);
      assert WithoutTrailing(ts) == WithoutTrailing(rest);
      assert WithoutTrailing(rest)[0] == rest[0];
    } else {
      assert WithoutTrailing(ts)[0] == ts[0];
    }
  }

  // ---- What the normaliser promises.

  /** On the tokens of a text, the normaliser deletes the comments and then the
      trailing commas, and the result lexes to the tokens that are left. */
  lemma NormalizedTokens(ts: seq<Token>)
    requires Lexes(ts)
    ensures Normalized(Spell(ts)) == Ok(Spell(WithoutTrailing(Kept(ts))))
    ensures Lexes(WithoutTrailing(Kept(ts)))
  {
    UncommentTokens(ts);
    KeptLexes(ts);
    DropCommasTokens(Kept(ts));
    WithoutTrailingLexes(Kept(ts));
  }

  /** String literals outside comments survive, in order and byte for byte. */
  lemma LiteralsSurvive(ts: seq<Token>, us: seq<Token>)
    requires Lexes(ts) && Lexes(us) && Normalized(Spell(ts)) == Ok(Spell(us))
    ensures Literals(us) == Literals(ts) && NoComments(us)
  {
    NormalizedTokens(ts);
    LexesUniquely(us, WithoutTrailing(Kept(ts)));
    KeptLexes(ts);
    KeptLiterals(ts);
    WithoutTrailingLexes(Kept(ts));
    WithoutTrailingLiterals(Kept(ts));
  }

  ghost predicate HasTrailing(ts: seq<Token>) { ts != [] && (TrailingAt(ts) || HasTrailing(ts[1..])) }

  lemma {:induction false} KeptShorter(ts: seq<Token>)
    ensures |Kept(ts)| <= |ts| && (|Kept(ts)| == |ts| <==> NoComments(ts)) && (NoComments(ts) ==> Kept(ts) == ts)
  {
    if ts != [] {
      KeptShorter(ts[1..]);
      assert ts == [ts[0]] + ts[1..];
      assert NoComments(ts) <==> !ts[0].Comment? && NoComments(ts[1..]);
    }
  }

  lemma {:induction false} WithoutTrailingShorter(ts: seq<Token>)
    ensures var r := WithoutTrailing(ts);
            |r| <= |ts| && (|r| == |ts| <==> !HasTrailing(ts)) && (!HasTrailing(ts) ==> r == ts)
  {
    if ts != [] {
      WithoutTrailingShorter(ts[1..]);
      assert ts == [ts[0]] + ts[1..];
    }
  }

  /** The normaliser is the identity exactly on the texts with no comment and no
      trailing comma. */
  lemma IdentityExactly(ts: seq<Token>)
    requires Lexes(ts)
    ensures Normalized(Spell(ts)) == Ok(Spell(ts)) <==> NoComments(ts) && !HasTrailing(ts)
  {
    NormalizedTokens(ts);
    KeptShorter(ts);
    WithoutTrailingShorter(Kept(ts));
    if Normalized(Spell(ts)) == Ok(Spell(ts)) { LexesUniquely(ts, WithoutTrailing(Kept(ts))); }
  }

  lemma {:induction false} KeptAppend(a: seq<Token>, b: seq<Token>)
    ensures Kept(a + b) == Kept(a) + Kept(b)
  {
    if a == [] {
      assert a + b == b;
    } else {
      KeptAppend(a[1..], b);
      assert (a + b)[0] == a[0] && (a + b)[1..] == a[1..] + b;
      Associative(if a[0].Comment? then [] else [a[0]], Kept(a[1..]), Kept(b));
    }
  }

  lemma {:induction false} SpellAppend(a: seq<Token>, b: seq<Token>)
    ensures Spell(a + b) == Spell(a) + Spell(b)
  {
    hide TokenText;
    if a == [] {
      assert a + b == b && Spell(a) + Spell(b) == Spell(b);
    } else {
      SpellAppend(a[1..], b);
      assert (a + b)[0] == a[0] && (a + b)[1..] == a[1..] + b;
      Associative(TokenText(a[0]), Spell(a[1..]), Spell(b));
    }
  }

  // A token after which any text may follow.
  predicate Closed(token: Token) { token != Plain('/') && (token.Comment? ==> IsBlockComment(token.text)) }

  lemma {:induction false} InsertLexes(a: seq<Token>, comment: string, b: seq<Token>)
    requires Lexes(a + b) && Fits(Comment(comment), Spell(b))
    requires a != [] ==> Closed(a[|a| - 1])
    ensures Lexes(a + [Comment(comment)] + b)
  {
    var ts := a + [Comment(comment)] + b;
    if a == [] {
      assert a + b == b && ts[1..] == b;
    } else {
      assert (a + b)[1..] == a[1..] + b && ts[1..] == a[1..] + [Comment(comment)] + b;
      InsertLexes(a[1..], comment, b);
      InsertKeepsFit(a, comment, b);
    }
  }

  lemma InsertKeepsFit(a: seq<Token>, comment: string, b: seq<Token>)
    requires a != [] && Closed(a[|a| - 1])
    requires Lexes(a + b)
    ensures Fits(a[0], Spell(a[1..] + [Comment(comment)] + b))
  {
    if |a| > 1 {
      var p, q := a[1..] + b, a[1..] + [Comment(comment)] + b;
      assert p[0] == q[0] == a[1] && (a + b)[1..] == p;
      assert Lexes(p) && TokenText(a[1]) != "";
      assert Spell(p)[0] == Spell(q)[0] == TokenText(a[1])[0];
    } else {
      assert (a + b)[0] == a[0];
    }
  }

  /** A well-formed comment put between two tokens changes nothing, provided the
      token before it is neither a slash, with which it would start another
      comment, nor a line comment. */
  lemma CommentInserted(a: seq<Token>, comment: string, b: seq<Token>)
    requires Lexes(a + b) && Fits(Comment(comment), Spell(b))
    requires a != [] ==> Closed(a[|a| - 1])
    ensures Normalized(Spell(a) + comment + Spell(b)) == Normalized(Spell(a) + Spell(b))
  {
    var c := [Comment(comment)];
    InsertLexes(a, comment, b);
    NormalizedTokens(a + b);
    NormalizedTokens(a + c + b);
    KeptAppend(a, b);
    KeptAppend(a + c, b);
    KeptAppend(a, c);
    SpellAppend(a, b);
    SpellAppend(a + c, b);
    SpellAppend(a, c);
    assert c[1..] == [] && Spell(c) == comment + "" && comment + "" == comment;
    assert Kept(c) == [] && Kept(a) + [] == Kept(a);
  }

  // A comma whose next token other than white space is itself a trailing comma.
  ghost predicate BeforeTrailing(ts: seq<Token>) {
    ts != [] && ts[0].Plain? && if IsSpace(ts[0].c) then BeforeTrailing(ts[1..]) else TrailingAt(ts)
  }

  ghost predicate HasDoubled(ts: seq<Token>) {
    ts != [] && ((ts[0] == Plain(',') && BeforeTrailing(ts[1..])) || HasDoubled(ts[1..]))
  }

  lemma {:induction false} NotBoth(ts: seq<Token>)
    ensures !(BeforeClose(ts) && BeforeTrailing(ts))
  {
    if ts != [] { NotBoth(ts[1..]); }
  }

  lemma {:induction false} CloseAfterDropping(ts: seq<Token>)
    ensures BeforeClose(WithoutTrailing(ts)) <==> BeforeClose(ts) || BeforeTrailing(ts)
  {
    if ts != [] {
      CloseAfterDropping(ts[1..]);
      var rest := WithoutTrailing(ts[1..]);
      if TrailingAt(ts) { assert [] + rest == rest; } else { assert ([ts[0]] + rest)[1..] == rest; }
    }
  }

  /** A trailing comma is left exactly where two commas, with only white space
      between them, both stood before the closing bracket. */
  lemma {:induction false} TrailingLeft(ts: seq<Token>)
    ensures HasTrailing(WithoutTrailing(ts)) <==> HasDoubled(ts)
  {
    if ts != [] {
      TrailingLeft(ts[1..]);
      CloseAfterDropping(ts[1..]);
      NotBoth(ts[1..]);
      var rest := WithoutTrailing(ts[1..]);
      if TrailingAt(ts) { assert [] + rest == rest; } else { assert ([ts[0]] + rest)[1..] == rest; }
    }
  }

  /** The normaliser is idempotent exactly where no such doubled comma stands. */
  lemma IdempotentExactly(ts: seq<Token>)
    requires Lexes(ts)
    ensures Normalized(Spell(ts)).Ok?
    ensures var out := Normalized(Spell(ts)).value;
            Normalized(out) == Ok(out) <==> !HasDoubled(Kept(ts))
  {
    NormalizedTokens(ts);
    KeptLexes(ts);
    WithoutTrailingLexes(Kept(ts));
    IdentityExactly(WithoutTrailing(Kept(ts)));
    TrailingLeft(Kept(ts));
  }

  lemma DropsOne(c: char, t: string)
    ensures c != '\"' ==>
              DropCommas([c] + t, false, false) == (if c == ',' && Closes(t) then "" else [c]) + DropCommas(t, false, false)
    ensures Closes([c] + t) <==> if IsSpace(c) then Closes(t) else c == '}' || c == ']'
  {
    assert ([c] + t)[1..] == t;
  }

  /** Such an input: the first pass over `[1,,]` leaves `[1,]`, the second `[1]`. */
  lemma DoubledCommaLeft()
    ensures Normalized("[1,,]") == Ok("[1,]") && Normalized("[1,]") == Ok("[1]")
  {
    hide Uncomment, DropCommas, Closes;
    PlainUncommented("[1,,]");
    PlainUncommented("[1,]");
    DropsNothing();
    DropsOne(']', "");
    assert [']'] + "" == "]";
    DropsOne(',', "]");
    assert [','] + "]" == ",]" && "" + "]" == "]";
    DropsOne(',', ",]");
    assert [','] + ",]" == ",,]";
    DropsOne('1', ",,]");
    DropsOne('1', ",]");
    assert ['1'] + ",,]" == "1,,]" && ['1'] + ",]" == "1,]" && ['1'] + "]" == "1]";
    DropsOne('[', "1,,]");
    DropsOne('[', "1,]");
    assert ['['] + "1,,]" == "[1,,]" && ['['] + "1,]" == "[1,]" && ['['] + "1]" == "[1]";
  }

  lemma DropsNothing()
    ensures DropCommas("", false, false) == "" && !Closes("")
  {
  }

  lemma {:induction false} PlainUncommented(t: string)
    requires forall i :: 0 <= i < |t| ==> t[i] != '/' && t[i] != '\"'
    ensures Uncomment(t, false, false) == Ok(t)
  {
    if t != "" {
      PlainUncommented(t[1..]);
      assert [t[0]] + t[1..] == t;
    }
  }
}
