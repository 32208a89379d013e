// The filter grammar as relations between texts, tokens and clauses, and the proof
// that the tokenizer and the parser decide exactly them, refusals included.
module FilterGrammar {
  import opened Options
  import opened Filter
  import opened FilterPrinter

  // ---- characters --------------------------------------------------------

  const UPPER: string := "ABCDEFGHIJKLMNOPQRSTUVWXYZ"
  const LOWER: string := "abcdefghijklmnopqrstuvwxyz"
  const DIGITS: string := "0123456789"
  const SPACES: string :=
    "\t\n\U{000B}\U{000C}\r \U{00A0}\U{1680}\U{2028}\U{2029}\U{202F}\U{205F}\U{3000}\U{FEFF}"
    + "\U{2000}\U{2001}\U{2002}\U{2003}\U{2004}\U{2005}\U{2006}\U{2007}\U{2008}\U{2009}\U{200A}"

  // The characters of each class, one by one.
  lemma Spaces(c: char)
    ensures IsSpace(c) <==> c in SPACES
  {
    if IsSpace(c) && c !in SPACES { assert false; }
  }

  lemma LineEnds(c: char)
    ensures IsLineEnd(c) <==> c in "\n\r\U{2028}\U{2029}"
  {
  }

  lemma NameCharacters(c: char)
    ensures IsStart(c) <==> c in UPPER || c in LOWER || c == '_'
    ensures IsPart(c) <==> IsStart(c) || c in DIGITS
  {
  }

  lemma Lowering(c: char)
    ensures forall k :: 0 <= k < 26 ==> LowerChar(UPPER[k]) == LOWER[k]
    ensures c !in UPPER ==> LowerChar(c) == c
  {
  }

  // ---- escaped text ------------------------------------------------------

  // w with a backslash before each character that esc marks.
  function Escaped(w: string, esc: seq<bool>): string
    requires |esc| == |w|
  {
    if w == "" then "" else (if esc[0] then ['\\', w[0]] else [w[0]]) + Escaped(w[1..], esc[1..])
  }

  // Any character but a line end may be marked; a backslash must be, unless nothing or
  // an unmarked line end follows it.
  predicate Marked(w: string, esc: seq<bool>)
    requires |esc| == |w|
  {
    forall k :: 0 <= k < |w| ==> MarkedAt(w, esc, k)
  }

  predicate MarkedAt(w: string, esc: seq<bool>, k: nat)
    requires |esc| == |w| && k < |w|
  {
    && (esc[k] ==> !IsLineEnd(w[k]))
    && (w[k] == '\\' && !esc[k] ==> k + 1 == |w| || (!esc[k + 1] && IsLineEnd(w[k + 1])))
  }

  // Between quotes, quotes and backslashes have to be marked.
  predicate Closed(w: string, esc: seq<bool>)
    requires |esc| == |w|
  {
    forall k :: 0 <= k < |w| ==> (esc[k] ==> !IsLineEnd(w[k])) && (w[k] == '"' || w[k] == '\\' ==> esc[k])
  }

  lemma {:induction false} UnescapeEscaped(w: string, esc: seq<bool>)
    requires |esc| == |w| && Marked(w, esc)
    ensures Unescape(Escaped(w, esc)) == w
  {
    if w != "" {
      var s, rest := Escaped(w, esc), Escaped(w[1..], esc[1..]);
      assert MarkedAt(w, esc, 0);
      forall k | 0 <= k < |w| - 1 ensures MarkedAt(w[1..], esc[1..], k) { assert MarkedAt(w, esc, k + 1); }
      UnescapeEscaped(w[1..], esc[1..]);
      if esc[0] {
        assert s[2..] == rest;
      } else {
        assert s[1..] == rest;
      }
    }
  }

  // And every text is some string so marked.
  lemma {:induction false} EveryTextIsEscaped(s: string) returns (esc: seq<bool>)
    ensures |esc| == |Unescape(s)| && Marked(Unescape(s), esc) && Escaped(Unescape(s), esc) == s
  {
    if s == "" {
      esc := [];
    } else {
      var unit := if s[0] == '\\' && |s| > 1 && !IsLineEnd(s[1]) then 2 else 1;
      var rest := EveryTextIsEscaped(s[unit..]);
      var w := Unescape(s);
      esc := [unit == 2] + rest;
      assert w[1..] == Unescape(s[unit..]) && esc[1..] == rest;
      forall k | 0 <= k < |w| ensures MarkedAt(w, esc, k) {
        if k > 0 { assert MarkedAt(w[1..], rest, k - 1); }
      }
    }
  }

  // ---- values ------------------------------------------------------------

  ghost predicate IsQuoteOf(token: string, text: string) {
    exists esc: seq<bool> :: |esc| == |text| && Marked(text, esc) && token == "\"" + Escaped(text, esc) + "\""
  }

  ghost predicate Denotes(isNum: string -> bool, token: string, v: Value) {
    match v
    case Text(text) => IsQuoteOf(token, text)
    case Truth(b) => token == if b then "true" else "false"
    case Number(t) => token == t && t != "" && t[0] != '"' && t != "true" && t != "false" && isNum(t)
  }

  lemma QuoteDenotes(isNum: string -> bool, token: string, text: string)
    ensures ParseValue(isNum, token) == Ok(Text(text)) <==> IsQuoteOf(token, text)
  {
    if ParseValue(isNum, token) == Ok(Text(text)) {
      var body := token[1..|token| - 1];
      var esc := EveryTextIsEscaped(body);
      assert token == "\"" + Escaped(text, esc) + "\"";
    }
    if IsQuoteOf(token, text) {
      var esc: seq<bool> :| |esc| == |text| && Marked(text, esc) && token == "\"" + Escaped(text, esc) + "\"";
      assert token[1..|token| - 1] == Escaped(text, esc);
      UnescapeEscaped(text, esc);
    }
  }

  // A token parses as a value exactly when it denotes it.
  lemma ValueIffDenoted(isNum: string -> bool, token: string, v: Value)
    ensures ParseValue(isNum, token) == Ok(v) <==> Denotes(isNum, token, v)
  {
    if v.Text? { QuoteDenotes(isNum, token, v.text); }
  }

  // ---- paths -------------------------------------------------------------

  // Identifiers joined by single dots: one starts at the front and after each dot.
  predicate PathText(s: string) { s != "" && IsStart(s[0]) && PathRest(s) }

  // A path from somewhere inside an identifier.
  predicate PathRest(s: string) {
    (s != "" ==> s[|s| - 1] != '.') && forall k :: 0 <= k < |s| ==> Fits(s, k)
  }

  predicate Fits(s: string, k: nat)
    requires k < |s|
  {
    if k > 0 && s[k - 1] == '.' then IsStart(s[k]) else IsPart(s[k]) || s[k] == '.'
  }

  lemma {:induction false} DotsBetween(s: string)
    ensures Dotted(Split(s)) == s
  {
    if s != "" {
      DotsBetween(s[1..]);
      var rest := Split(s[1..]);
      if s[0] == '.' {
        assert ([""] + rest)[1..] == rest;
      } else {
        var first := [s[0]] + rest[0];
        assert ([first] + rest[1..])[1..] == rest[1..];
      }
    }
  }

  predicate SegmentsRest(segments: seq<string>) {
    && segments != [] && (forall k :: 0 <= k < |segments[0]| ==> IsPart(segments[0][k]))
    && forall k :: 1 <= k < |segments| ==> IsIdent(segments[k])
  }

  lemma {:induction false} RestSplits(s: string)
    ensures SegmentsRest(Split(s)) <==> PathRest(s)
    ensures Split(s)[0] != "" <==> s != "" && s[0] != '.'
    ensures Split(s)[0] != "" ==> Split(s)[0][0] == s[0]
  {
    if s != "" {
      var t := s[1..];
      var segments, rest := Split(s), Split(t);
      RestSplits(t);
      assert forall k :: 0 <= k < |t| ==> t[k] == s[k + 1];
      if s[0] == '.' {
        assert segments == [""] + rest && forall k :: 0 <= k < |rest| ==> segments[k + 1] == rest[k];
        assert SegmentsRest(segments) <==> SegmentsRest(rest) && IsIdent(rest[0]);
        DotRest(s);
      } else {
        FirstNamed(s[0], rest, segments);
        NameRest(s);
      }
    }
  }

  lemma FirstNamed(c: char, rest: seq<string>, segments: seq<string>)
    requires rest != [] && segments == [[c] + rest[0]] + rest[1..]
    ensures SegmentsRest(segments) <==> SegmentsRest(rest) && IsPart(c)
  {
    var first := segments[0];
    assert first[0] == c && forall k :: 0 <= k < |rest[0]| ==> first[k + 1] == rest[0][k];
    assert |segments| == |rest| && forall k :: 1 <= k < |rest| ==> segments[k] == rest[k];
    if SegmentsRest(segments) {
      forall k | 0 <= k < |rest[0]| ensures IsPart(rest[0][k]) { assert IsPart(first[k + 1]); }
      forall k | 1 <= k < |rest| ensures IsIdent(rest[k]) { assert IsIdent(segments[k]); }
    }
    if SegmentsRest(rest) && IsPart(c) {
      forall k | 0 <= k < |first| ensures IsPart(first[k]) { if k > 0 { assert IsPart(rest[0][k - 1]); } }
      forall k | 1 <= k < |segments| ensures IsIdent(segments[k]) { assert IsIdent(rest[k]); }
    }
  }

  lemma FitsNext(s: string, k: nat)
    requires 0 < k < |s| && s[0] != '.'
    ensures Fits(s, k) <==> Fits(s[1..], k - 1)
  {
    var t := s[1..];
    assert t[k - 1] == s[k] && (k > 1 ==> t[k - 2] == s[k - 1]);
  }

  lemma DotRest(s: string)
    requires s != "" && s[0] == '.'
    ensures PathRest(s) <==> PathText(s[1..])
  {
    var t := s[1..];
    assert |s| > 1 ==> s[|s| - 1] == t[|t| - 1] && t[0] == s[1];
    if |s| > 1 { assert Fits(s, 1) <==> IsStart(t[0]); }
    if PathRest(s) {
      forall k | 0 <= k < |t| ensures Fits(t, k) {
        assert Fits(s, k + 1) && t[k] == s[k + 1];
        if k > 0 { assert t[k - 1] == s[k]; }
      }
    }
    if PathText(t) {
      forall k | 0 <= k < |s| ensures Fits(s, k) {
        if k > 1 { assert Fits(t, k - 1) && t[k - 1] == s[k] && t[k - 2] == s[k - 1]; }
      }
    }
  }

  lemma NameRest(s: string)
    requires s != "" && s[0] != '.'
    ensures PathRest(s) <==> PathRest(s[1..]) && IsPart(s[0])
  {
    var t := s[1..];
    assert |s| > 1 ==> s[|s| - 1] == t[|t| - 1];
    assert Fits(s, 0) <==> IsPart(s[0]);
    forall k | 1 <= k < |s| ensures Fits(s, k) <==> Fits(t, k - 1) { FitsNext(s, k); }
    if PathRest(s) {
      forall k | 0 <= k < |t| ensures Fits(t, k) { assert Fits(s, k + 1); }
    }
  }

  // The identifiers between the dots are what the pattern for paths asks for.
  lemma PathIffText(s: string)
    ensures IsPath(Split(s)) <==> PathText(s)
  {
    var segments := Split(s);
    RestSplits(s);
    assert IsPath(segments) <==> SegmentsRest(segments) && IsIdent(segments[0]);
  }

  // ---- tokens ------------------------------------------------------------

  // A quoted literal: between its quotes, every quote and backslash is marked.
  ghost predicate IsQuoted(token: string) {
    exists w: string, esc: seq<bool> :: |esc| == |w| && Closed(w, esc) && token == "\"" + Escaped(w, esc) + "\""
  }

  ghost predicate OpensQuoted(s: string) { exists n: nat :: n <= |s| && IsQuoted(s[..n]) }

  // What the scanner takes first from a text that does not begin with a blank: a quoted
  // literal if there is one, and else all up to the next blank.
  ghost predicate IsFirst(token: string, rest: string) {
    IsQuoted(token) || (Solid(token) && BlankAhead(rest) && !OpensQuoted(token + rest))
  }

  ghost predicate FirstAt(input: string, gap: nat, token: string) {
    && gap + |token| <= |input| && Blank(input[..gap]) && input[gap..gap + |token|] == token
    && IsFirst(token, input[gap + |token|..])
  }

  // The tokens lie in the text in order, with nothing but blanks around them.
  ghost predicate Scans(input: string, tokens: seq<string>)
    decreases |tokens|
  {
    if tokens == [] then Blank(input)
    else exists gap: nat :: FirstAt(input, gap, tokens[0]) && Scans(input[gap + |tokens[0]|..], tokens[1..])
  }

  lemma {:induction false} ClosedEnds(w: string, esc: seq<bool>, rest: string)
    requires |esc| == |w| && Closed(w, esc)
    ensures QuotedLen(Escaped(w, esc) + "\"" + rest) == Some(|Escaped(w, esc)| + 1)
  {
    var text := Escaped(w, esc) + "\"" + rest;
    if w == "" {
      assert text[0] == '"';
    } else {
      var unit := if esc[0] then 2 else 1;
      assert text[unit..] == Escaped(w[1..], esc[1..]) + "\"" + rest;
      ClosedEnds(w[1..], esc[1..], rest);
    }
  }

  lemma {:induction false} EndIsClosed(s: string) returns (w: string, esc: seq<bool>)
    requires QuotedLen(s).Some?
    ensures |esc| == |w| && Closed(w, esc) && s[..QuotedLen(s).value] == Escaped(w, esc) + "\""
  {
    if s[0] == '"' {
      w, esc := "", [];
    } else {
      var unit := if s[0] == '\\' then 2 else 1;
      var v, marks := EndIsClosed(s[unit..]);
      w, esc := [s[unit - 1]] + v, [unit == 2] + marks;
      assert w[1..] == v && esc[1..] == marks;
      assert s[..QuotedLen(s).value] == s[..unit] + s[unit..][..QuotedLen(s[unit..]).value];
      assert s[..unit] == if esc[0] then ['\\', w[0]] else [w[0]];
    }
  }

  lemma QuotedFirst(token: string, rest: string)
    requires IsQuoted(token)
    ensures QuotedLen((token + rest)[1..]) == Some(|token| - 1) && (token + rest)[0] == '"'
  {
    var w: string, esc: seq<bool> :| |esc| == |w| && Closed(w, esc) && token == "\"" + Escaped(w, esc) + "\"";
    ClosedEnds(w, esc, rest);
    AfterQuote(Escaped(w, esc), rest);
  }

  lemma AfterQuote(body: string, rest: string)
    ensures ("\"" + body + "\"" + rest)[1..] == body + "\"" + rest
  {
  }

  lemma OpensIff(s: string)
    requires s != ""
    ensures OpensQuoted(s) <==> s[0] == '"' && QuotedLen(s[1..]).Some?
  {
    if OpensQuoted(s) {
      var n: nat :| n <= |s| && IsQuoted(s[..n]);
      assert s == s[..n] + s[n..];
      QuotedFirst(s[..n], s[n..]);
    }
    if s[0] == '"' && QuotedLen(s[1..]).Some? { OpeningIsQuoted(s); }
  }

  lemma OpeningIsQuoted(s: string)
    requires s != "" && s[0] == '"' && QuotedLen(s[1..]).Some?
    ensures IsQuoted(s[..1 + QuotedLen(s[1..]).value])
  {
    var w, esc := EndIsClosed(s[1..]);
    assert s[..1 + QuotedLen(s[1..]).value] == "\"" + Escaped(w, esc) + "\"";
  }

  // The scanner's length is that of the first token.
  lemma FirstIsTaken(token: string, rest: string)
    requires IsFirst(token, rest)
    ensures token != "" && !IsSpace(token[0]) && TokenLen(token + rest) == |token|
  {
    var s := token + rest;
    if IsQuoted(token) {
      QuotedFirst(token, rest);
      assert s[0] == token[0];
    } else {
      OpensIff(s);
      RunOfSolid(token, rest);
    }
  }

  lemma TakenIsFirst(s: string)
    requires s != "" && !IsSpace(s[0])
    ensures IsFirst(s[..TokenLen(s)], s[TokenLen(s)..])
  {
    var n := TokenLen(s);
    assert s == s[..n] + s[n..];
    OpensIff(s);
    if OpensQuoted(s) {
      OpeningIsQuoted(s);
    } else {
      RunIsSolid(s);
      RunStops(s);
    }
  }

  lemma {:induction false} RunStops(s: string)
    ensures BlankAhead(s[RunLen(s)..])
  {
    if s != "" && !IsSpace(s[0]) {
      RunStops(s[1..]);
      assert s[RunLen(s)..] == s[1..][RunLen(s[1..])..];
    }
  }

  lemma {:induction false} TokensAreScanned(input: string)
    ensures Scans(input, Tokens(input))
    decreases |input|
  {
    if input != "" {
      var tokens := Tokens(input);
      if IsSpace(input[0]) {
        TokensAreScanned(input[1..]);
        OneMoreBlank(input, tokens);
      } else {
        var n := TokenLen(input);
        TakenIsFirst(input);
        TokensAreScanned(input[n..]);
        assert input[..0] == "" && |tokens[0]| == n && tokens[1..] == Tokens(input[n..]);
        assert FirstAt(input, 0, tokens[0]);
      }
    }
  }

  lemma OneMoreBlank(input: string, tokens: seq<string>)
    requires input != "" && IsSpace(input[0]) && Scans(input[1..], tokens)
    ensures Scans(input, tokens)
  {
    if tokens == [] {
      BlankBefore(input, |input| - 1);
    } else {
      var gap: nat :| FirstAt(input[1..], gap, tokens[0]) && Scans(input[1..][gap + |tokens[0]|..], tokens[1..]);
      LaterFirst(input, gap, tokens[0]);
    }
  }

  lemma BlankBefore(input: string, n: nat)
    requires n < |input| && IsSpace(input[0]) && Blank(input[1..][..n])
    ensures Blank(input[..n + 1])
  {
    forall k | 0 <= k < n + 1 ensures IsSpace(input[k]) {
      if k > 0 { assert input[1..][..n][k - 1] == input[k]; }
    }
  }

  lemma LaterFirst(input: string, gap: nat, token: string)
    requires input != "" && IsSpace(input[0]) && FirstAt(input[1..], gap, token)
    ensures FirstAt(input, gap + 1, token) && input[gap + 1 + |token|..] == input[1..][gap + |token|..]
  {
    BlankBefore(input, gap);
    assert input[gap + 1..gap + 1 + |token|] == input[1..][gap..gap + |token|];
  }

  lemma FirstOfTokens(input: string, gap: nat, token: string)
    requires FirstAt(input, gap, token)
    ensures Tokens(input) == [token] + Tokens(input[gap + |token|..])
  {
    var rest := input[gap + |token|..];
    FirstIsTaken(token, rest);
    assert input == input[..gap] + (token + rest);
    BlankIsSkipped(input[..gap], token + rest);
    assert (token + rest)[..|token|] == token && (token + rest)[|token|..] == rest;
  }

  lemma BlankHasNone(input: string)
    requires Blank(input)
    ensures Tokens(input) == []
  {
    assert input + "" == input;
    BlankIsSkipped(input, "");
  }

  lemma GapBefore(input: string, tokens: seq<string>) returns (gap: nat)
    requires Scans(input, tokens) && tokens != []
    ensures FirstAt(input, gap, tokens[0]) && Scans(input[gap + |tokens[0]|..], tokens[1..])
  {
    gap :| FirstAt(input, gap, tokens[0]) && Scans(input[gap + |tokens[0]|..], tokens[1..]);
  }

  lemma {:induction false} ScannedAreTokens(input: string, tokens: seq<string>)
    requires Scans(input, tokens)
    ensures Tokens(input) == tokens
    decreases |tokens|
  {
    if tokens == [] {
      BlankHasNone(input);
    } else {
      var gap := GapBefore(input, tokens);
      FirstOfTokens(input, gap, tokens[0]);
      ScannedAreTokens(input[gap + |tokens[0]|..], tokens[1..]);
      assert tokens == [tokens[0]] + tokens[1..];
    }
  }

  // A text has exactly one list of tokens, and the scanner finds it.
  lemma TokensIffScanned(input: string, tokens: seq<string>)
    ensures Tokens(input) == tokens <==> Scans(input, tokens)
  {
    TokensAreScanned(input);
    if Scans(input, tokens) { ScannedAreTokens(input, tokens); }
  }

  // ---- clauses -----------------------------------------------------------

  // The keywords of the grammar, and the two names every plain object inherits.
  predicate IsOperator(op: Operator) {
    op.Inherited? ==> op.name == "constructor" || op.name == "__proto__"
  }

  predicate Names(word: string, op: Operator) { IsOperator(op) && Lower(word) == Keyword(op) }

  lemma OperatorIffNamed(word: string, op: Operator)
    ensures OperatorOf(word) == Some(op) <==> Names(word, op)
  {
  }

  function WordCount(c: Node): nat { if c.Cmp? && c.op == EXISTS then 2 else 3 }

  ghost predicate Spells(isNum: string -> bool, words: seq<string>, c: Node) {
    && c.Cmp? && IsPath(c.path) && |words| == WordCount(c)
    && words[0] == Dotted(c.path) && Names(words[1], c.op)
    && if c.op == EXISTS then c.value.None? else c.value.Some? && Denotes(isNum, words[2], c.value.value)
  }

  lemma ClauseIffSpelt(isNum: string -> bool, tokens: seq<string>, c: Node)
    ensures ParseClause(isNum, tokens) == Ok(Taken(c, WordCount(c)))
      <==> WordCount(c) <= |tokens| && Spells(isNum, tokens[..WordCount(c)], c)
    ensures ParseClause(isNum, tokens).Ok? ==> ParseClause(isNum, tokens).value.words == WordCount(ParseClause(isNum, tokens).value.clause)
  {
    if tokens != [] { DotsBetween(tokens[0]); }
    if c.Cmp? && IsPath(c.path) { PathComesBack(c.path); }
    if |tokens| >= 2 && c.Cmp? { OperatorIffNamed(tokens[1], c.op); }
    if |tokens| >= 3 && c.Cmp? && c.value.Some? { ValueIffDenoted(isNum, tokens[2], c.value.value); }
  }

  // A clause begins at that token.
  ghost predicate Begins(isNum: string -> bool, tokens: seq<string>, at: nat, c: Node) {
    at + WordCount(c) <= |tokens| && Spells(isNum, tokens[at..at + WordCount(c)], c)
  }

  lemma BeginsIff(isNum: string -> bool, tokens: seq<string>, at: nat, c: Node)
    requires at <= |tokens|
    ensures Begins(isNum, tokens, at, c) <==> ParseClause(isNum, tokens[at..]) == Ok(Taken(c, WordCount(c)))
  {
    ClauseIffSpelt(isNum, tokens[at..], c);
    if at + WordCount(c) <= |tokens| { assert tokens[at..][..WordCount(c)] == tokens[at..at + WordCount(c)]; }
  }

  // The clauses that the tokens spell one after the other, an "and" before each but the first.
  ghost predicate Reads(isNum: string -> bool, tokens: seq<string>, clauses: seq<Node>, first: bool)
    decreases |clauses|
  {
    if clauses == [] then tokens == []
    else
      var at, n := if first then 0 else 1, WordCount(clauses[0]);
      && Begins(isNum, tokens, at, clauses[0]) && (!first ==> Lower(tokens[0]) == "and")
      && Reads(isNum, tokens[at + n..], clauses[1..], false)
  }

  lemma {:induction false} ClausesAreRead(isNum: string -> bool, tokens: seq<string>, first: bool)
    requires Clauses(isNum, tokens, first).Ok?
    ensures Reads(isNum, tokens, Clauses(isNum, tokens, first).value, first)
    decreases |tokens|
  {
    if tokens != [] {
      var at := if first then 0 else 1;
      var body := if first then tokens else tokens[1..];
      var c := ParseClause(isNum, body).value;
      var all := Clauses(isNum, tokens, first).value;
      ClauseIffSpelt(isNum, body, c.clause);
      assert body[..c.words] == tokens[at..at + c.words] && body[c.words..] == tokens[at + c.words..];
      ClausesAreRead(isNum, body[c.words..], false);
      assert all[0] == c.clause && all[1..] == Clauses(isNum, body[c.words..], false).value;
    }
  }

  lemma {:induction false} ReadAreClauses(isNum: string -> bool, tokens: seq<string>, clauses: seq<Node>, first: bool)
    requires Reads(isNum, tokens, clauses, first)
    ensures Clauses(isNum, tokens, first) == Ok(clauses)
    decreases |clauses|
  {
    if clauses != [] {
      var at, n := if first then 0 else 1, WordCount(clauses[0]);
      ReadAreClauses(isNum, tokens[at + n..], clauses[1..], false);
      OneMoreClause(isNum, tokens, at, clauses[0], clauses[1..]);
      assert [clauses[0]] + clauses[1..] == clauses;
    }
  }

  lemma OneMoreClause(isNum: string -> bool, tokens: seq<string>, at: nat, c: Node, rest: seq<Node>)
    requires at <= 1 && Begins(isNum, tokens, at, c) && (at == 1 ==> Lower(tokens[0]) == "and")
    requires Clauses(isNum, tokens[at + WordCount(c)..], false) == Ok(rest)
    ensures Clauses(isNum, tokens, at == 0) == Ok([c] + rest)
  {
    BeginsIff(isNum, tokens, at, c);
    assert at == 0 ==> tokens[at..] == tokens;
    assert tokens[at..][WordCount(c)..] == tokens[at + WordCount(c)..];
  }

  // The parser accepts exactly what spells a list of clauses, and returns that list.
  lemma ClausesIffRead(isNum: string -> bool, tokens: seq<string>, clauses: seq<Node>, first: bool)
    ensures Clauses(isNum, tokens, first) == Ok(clauses) <==> Reads(isNum, tokens, clauses, first)
  {
    if Clauses(isNum, tokens, first).Ok? { ClausesAreRead(isNum, tokens, first); }
    if Reads(isNum, tokens, clauses, first) { ReadAreClauses(isNum, tokens, clauses, first); }
  }

  // ---- refusals ----------------------------------------------------------

  // The word names an operator that takes a value.
  ghost predicate TakesValue(word: string) { exists op :: Names(word, op) && op != EXISTS }

  ghost predicate NoOperator(word: string) { forall op :: !Names(word, op) }

  // A path, and an operator that needs a value.
  ghost predicate WantsValue(words: seq<string>) { |words| >= 2 && PathText(words[0]) && TakesValue(words[1]) }

  ghost predicate NoValue(isNum: string -> bool, token: string) { forall v :: !Denotes(isNum, token, v) }

  // What is wrong with the words of a clause, at the first word that is.
  ghost predicate Refuses(isNum: string -> bool, words: seq<string>, e: SyntaxError) {
    match e
    case ExpectedPath => words == []
    case InvalidPath(got) => words != [] && got == words[0] && !PathText(got)
    case ExpectedOperator(path) => |words| == 1 && path == words[0] && PathText(path)
    case UnknownOperator(got) => |words| >= 2 && PathText(words[0]) && got == words[1] && NoOperator(got)
    case ExpectedValue(op) => |words| == 2 && op == words[1] && WantsValue(words)
    case UnterminatedString(got) =>
      |words| >= 3 && WantsValue(words) && got == words[2] && got != "" && got[0] == '"' && NoValue(isNum, got)
    case BadLiteral(got) =>
      |words| >= 3 && WantsValue(words) && got == words[2] && (got == "" || got[0] != '"') && NoValue(isNum, got)
    case _ => false
  }

  lemma OperatorMissing(word: string)
    ensures OperatorOf(word).None? <==> NoOperator(word)
    ensures OperatorOf(word).Some? && OperatorOf(word) != Some(EXISTS) <==> TakesValue(word)
  {
    if OperatorOf(word).Some? { OperatorIffNamed(word, OperatorOf(word).value); }
    forall op ensures OperatorOf(word) == Some(op) <==> Names(word, op) { OperatorIffNamed(word, op); }
  }

  lemma ValueMissing(isNum: string -> bool, token: string)
    ensures ParseValue(isNum, token).Err? <==> NoValue(isNum, token)
  {
    if ParseValue(isNum, token).Ok? { ValueIffDenoted(isNum, token, ParseValue(isNum, token).value); }
    forall v ensures ParseValue(isNum, token) == Ok(v) <==> Denotes(isNum, token, v) { ValueIffDenoted(isNum, token, v); }
  }

  lemma ClauseIffRefused(isNum: string -> bool, words: seq<string>, e: SyntaxError)
    ensures ParseClause(isNum, words) == Err(e) <==> Refuses(isNum, words, e)
  {
    if words != [] { PathIffText(words[0]); }
    if |words| >= 2 { OperatorMissing(words[1]); }
    if |words| >= 3 { ValueMissing(isNum, words[2]); }
  }

  // Some clauses read well, and then an "and" is missing or a clause is wrong.
  ghost predicate Fails(isNum: string -> bool, tokens: seq<string>, first: bool, e: SyntaxError)
    decreases |tokens|
  {
    && tokens != []
    && if !first && Lower(tokens[0]) != "and" then e == ExpectedAnd(tokens[0])
       else
         var at := if first then 0 else 1;
         || Refuses(isNum, tokens[at..], e)
         || exists c :: Begins(isNum, tokens, at, c) && Fails(isNum, tokens[at + WordCount(c)..], false, e)
  }

  // After a clause that reads well, what is wrong is wrong later on.
  lemma FailsIff(isNum: string -> bool, tokens: seq<string>, at: nat, e: SyntaxError)
    requires tokens != [] && at <= 1 && (at == 1 ==> Lower(tokens[0]) == "and")
    ensures Fails(isNum, tokens, at == 0, e) <==>
      match ParseClause(isNum, tokens[at..])
      case Ok(taken) => Fails(isNum, tokens[at + taken.words..], false, e)
      case Err(error) => error == e
  {
    var p := ParseClause(isNum, tokens[at..]);
    ClauseIffRefused(isNum, tokens[at..], e);
    forall c ensures Begins(isNum, tokens, at, c) <==> p == Ok(Taken(c, WordCount(c))) { BeginsIff(isNum, tokens, at, c); }
    if p.Ok? {
      ClauseIffSpelt(isNum, tokens[at..], p.value.clause);
      assert Begins(isNum, tokens, at, p.value.clause);
    }
  }

  lemma ClausesIff(isNum: string -> bool, tokens: seq<string>, at: nat, e: SyntaxError)
    requires tokens != [] && at <= 1 && (at == 1 ==> Lower(tokens[0]) == "and")
    ensures Clauses(isNum, tokens, at == 0) == Err(e) <==>
      match ParseClause(isNum, tokens[at..])
      case Ok(taken) => Clauses(isNum, tokens[at + taken.words..], false) == Err(e)
      case Err(error) => error == e
  {
    assert at == 0 ==> tokens[at..] == tokens;
    var p := ParseClause(isNum, tokens[at..]);
    if p.Ok? { assert tokens[at..][p.value.words..] == tokens[at + p.value.words..]; }
  }

  lemma {:induction false} ClausesIffFail(isNum: string -> bool, tokens: seq<string>, first: bool, e: SyntaxError)
    ensures Clauses(isNum, tokens, first) == Err(e) <==> Fails(isNum, tokens, first, e)
    decreases |tokens|
  {
    if tokens != [] && (first || Lower(tokens[0]) == "and") {
      var at := if first then 0 else 1;
      var p := ParseClause(isNum, tokens[at..]);
      if p.Ok? { ClausesIffFail(isNum, tokens[at + p.value.words..], false, e); }
      FirstClauseIff(isNum, tokens, at, e);
    }
  }

  lemma FirstClauseIff(isNum: string -> bool, tokens: seq<string>, at: nat, e: SyntaxError)
    requires tokens != [] && at <= 1 && (at == 1 ==> Lower(tokens[0]) == "and")
    requires var p := ParseClause(isNum, tokens[at..]);
      p.Ok? ==> (Clauses(isNum, tokens[at + p.value.words..], false) == Err(e) <==> Fails(isNum, tokens[at + p.value.words..], false, e))
    ensures Clauses(isNum, tokens, at == 0) == Err(e) <==> Fails(isNum, tokens, at == 0, e)
  {
    FailsIff(isNum, tokens, at, e);
    ClausesIff(isNum, tokens, at, e);
  }

  // ---- whole filters -----------------------------------------------------

  // The text without the blanks around it.
  ghost predicate Trims(input: string, text: string) {
    if text == "" then Blank(input)
    else !IsSpace(text[0]) && !IsSpace(text[|text| - 1]) && exists g: nat :: LiesAt(input, g, text)
  }

  ghost predicate LiesAt(input: string, g: nat, text: string) {
    g + |text| <= |input| && input[g..g + |text|] == text && Blank(input[..g]) && Blank(input[g + |text|..])
  }

  lemma {:induction false} LeftTrimmed(s: string) returns (g: nat)
    ensures g <= |s| && Blank(s[..g]) && TrimLeft(s) == s[g..] && (g < |s| ==> !IsSpace(s[g]))
  {
    g := 0;
    if s != "" && IsSpace(s[0]) {
      g := LeftTrimmed(s[1..]);
      BlankBefore(s, g);
      g := g + 1;
    }
  }

  lemma {:induction false} RightTrimmed(s: string) returns (n: nat)
    ensures n <= |s| && Blank(s[n..]) && TrimRight(s) == s[..n] && (n > 0 ==> !IsSpace(s[n - 1]))
    decreases |s|
  {
    n := |s|;
    if s != "" && IsSpace(s[|s| - 1]) {
      n := RightTrimmed(s[..|s| - 1]);
      assert s[n..] == s[..|s| - 1][n..] + [s[|s| - 1]];
      assert s[..|s| - 1][..n] == s[..n];
    }
  }

  function Trimmed(input: string): string { TrimRight(TrimLeft(input)) }

  lemma TrimmedTrims(input: string)
    ensures Trims(input, Trimmed(input))
  {
    var g := LeftTrimmed(input);
    var n := RightTrimmed(input[g..]);
    var text := input[g..][..n];
    assert input[g..][n..] == input[g + n..] && text == input[g..g + n];
    if n == 0 {
      assert input == input[..g] + input[g..];
    } else {
      assert LiesAt(input, g, text);
    }
  }

  lemma TrimsIsTrimmed(input: string, text: string)
    requires Trims(input, text)
    ensures Trimmed(input) == text
  {
    if text == "" {
      var g := LeftTrimmed(input);
    } else {
      var g: nat :| LiesAt(input, g, text);
      assert input == input[..g] + (text + input[g + |text|..]);
      TrimsLeft(input[..g], text + input[g + |text|..]);
      TrimsRight(text, input[g + |text|..]);
    }
  }

  // The text between the blanks falls into these tokens.
  ghost predicate Falls(input: string, text: string, tokens: seq<string>) {
    Trims(input, text) && text != "" && Scans(text, tokens)
  }

  lemma FallsIff(input: string, text: string, tokens: seq<string>)
    ensures Falls(input, text, tokens) <==> text == Trimmed(input) != "" && tokens == Tokens(text)
  {
    TrimmedTrims(input);
    if Trims(input, text) { TrimsIsTrimmed(input, text); }
    TokensIffScanned(text, tokens);
  }

  // Some text between blanks falls into tokens that spell these clauses.
  ghost predicate Means(isNum: string -> bool, input: string, clauses: seq<Node>) {
    clauses != [] && exists text, tokens :: Falls(input, text, tokens) && Reads(isNum, tokens, clauses, true)
  }

  ghost predicate IsWrong(isNum: string -> bool, input: string, e: SyntaxError) {
    if e == EmptyFilter then Blank(input)
    else exists text, tokens :: Falls(input, text, tokens) && Fails(isNum, tokens, true, e)
  }

  lemma TextHasTokens(s: string)
    requires s != "" && !IsSpace(s[0])
    ensures Tokens(s) != []
  {
  }

  lemma MeansIff(isNum: string -> bool, input: string, clauses: seq<Node>)
    ensures Means(isNum, input, clauses) <==>
      clauses != [] && Trimmed(input) != "" && Clauses(isNum, Tokens(Trimmed(input)), true) == Ok(clauses)
  {
    var text := Trimmed(input);
    FallsIff(input, text, Tokens(text));
    ClausesIffRead(isNum, Tokens(text), clauses, true);
    forall t, ts | Falls(input, t, ts) ensures t == text && ts == Tokens(text) { FallsIff(input, t, ts); }
  }

  // A filter is accepted exactly when it means some clauses, and is their node.
  lemma ParseIffMeans(isNum: string -> bool, input: string, node: Node)
    ensures Parse(isNum, input) == Ok(node) <==>
      exists clauses :: Means(isNum, input, clauses) && node == if |clauses| == 1 then clauses[0] else And(clauses)
  {
    forall clauses
      ensures Means(isNum, input, clauses) <==>
        clauses != [] && Trimmed(input) != "" && Clauses(isNum, Tokens(Trimmed(input)), true) == Ok(clauses)
    {
      MeansIff(isNum, input, clauses);
    }
    if Parse(isNum, input) == Ok(node) {
      assert Means(isNum, input, Clauses(isNum, Tokens(Trimmed(input)), true).value);
    }
  }

  // And it is refused exactly for what is wrong with it first.
  lemma ParseIffWrong(isNum: string -> bool, input: string, e: SyntaxError)
    ensures Parse(isNum, input) == Err(e) <==> IsWrong(isNum, input, e)
  {
    var text := Trimmed(input);
    TrimmedTrims(input);
    if Blank(input) { TrimsIsTrimmed(input, ""); }
    if text != "" { TextHasTokens(text); }
    FallsIff(input, text, Tokens(text));
    ClausesIffFail(isNum, Tokens(text), true, e);
    forall t, ts | Falls(input, t, ts) ensures t == text && ts == Tokens(text) { FallsIff(input, t, ts); }
    NeverThat(isNum, Tokens(text), true);
    if Clauses(isNum, Tokens(text), true) == Ok([]) { SomeClause(isNum, Tokens(text)); }
  }

  // The parser of clauses never answers for the whole filter.
  lemma {:induction false} NeverThat(isNum: string -> bool, tokens: seq<string>, first: bool)
    ensures Clauses(isNum, tokens, first) != Err(EmptyFilter) && Clauses(isNum, tokens, first) != Err(NoClauses)
    decreases |tokens|
  {
    if tokens != [] && (first || Lower(tokens[0]) == "and") {
      var body := if first then tokens else tokens[1..];
      var p := ParseClause(isNum, body);
      if p.Ok? { NeverThat(isNum, body[p.value.words..], false); }
    }
  }

  lemma SomeClause(isNum: string -> bool, tokens: seq<string>)
    requires Clauses(isNum, tokens, true) == Ok([])
    ensures tokens == []
  {
  }
}
