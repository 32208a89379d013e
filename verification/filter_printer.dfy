// A printer for filters, and the proof that parsing undoes it.
module FilterPrinter {
  import opened Options
  import opened Filter

  // ---- printing ----------------------------------------------------------

  function Escape(s: string): string {
    if s == "" then ""
    else (if s[0] == '"' || s[0] == '\\' then ['\\', s[0]] else [s[0]]) + Escape(s[1..])
  }

  function Quote(s: string): string { "\"" + Escape(s) + "\"" }

  function ValueText(v: Value): string {
    match v
    case Text(s) => Quote(s)
    case Number(t) => t
    case Truth(b) => if b then "true" else "false"
  }

  function Dotted(path: seq<string>): string
    requires path != []
  {
    if |path| == 1 then path[0] else path[0] + "." + Dotted(path[1..])
  }

  function Keyword(op: Operator): string {
    match op
    case EQ => "eq"
    case CONTAINS => "co"
    case STARTS_WITH => "sw"
    case ENDS_WITH => "ew"
    case GT => "gt"
    case GTE => "ge"
    case LT => "lt"
    case LTE => "le"
    case EXISTS => "pr"
    case Inherited(name) => name
  }

  predicate Blank(g: string) { forall k :: 0 <= k < |g| ==> IsSpace(g[k]) }

  predicate Solid(w: string) { w != "" && forall k :: 0 <= k < |w| ==> !IsSpace(w[k]) }

  // A number token: what Number() accepts, with nothing that makes it another word.
  predicate IsNumber(isNum: string -> bool, t: string) {
    Solid(t) && t[0] != '"' && t != "true" && t != "false" && isNum(t)
  }

  predicate WellFormed(isNum: string -> bool, c: Node) {
    && c.Cmp? && IsPath(c.path) && !c.op.Inherited?
    && (c.op == EXISTS <==> c.value == None)
    && (c.value.Some? && c.value.value.Number? ==> IsNumber(isNum, c.value.value.token))
  }

  // A clause with the spelling chosen for its keywords: they may be in any case.
  datatype Spelt = Spelt(clause: Node, joiner: string, op: string)

  predicate WellSpelt(isNum: string -> bool, s: Spelt) {
    WellFormed(isNum, s.clause) && Lower(s.joiner) == "and" && Lower(s.op) == Keyword(s.clause.op)
  }

  predicate AllSpelt(isNum: string -> bool, cs: seq<Spelt>) { forall k :: 0 <= k < |cs| ==> WellSpelt(isNum, cs[k]) }

  function ClauseWords(s: Spelt): seq<string>
    requires s.clause.Cmp? && s.clause.path != []
  {
    [Dotted(s.clause.path), s.op] + if s.clause.value.Some? then [ValueText(s.clause.value.value)] else []
  }

  function Words(isNum: string -> bool, cs: seq<Spelt>, first: bool): seq<string>
    requires AllSpelt(isNum, cs)
  {
    if cs == [] then []
    else
      var body := ClauseWords(cs[0]) + Words(isNum, cs[1..], false);
      if first then body else [cs[0].joiner] + body
  }

  function ClausesOf(cs: seq<Spelt>): seq<Node> { if cs == [] then [] else [cs[0].clause] + ClausesOf(cs[1..]) }

  // Words laid out with blanks before each and at the end.
  function Lay(words: seq<string>, gaps: seq<string>, trail: string): string
    requires |words| == |gaps|
  {
    if words == [] then trail else gaps[0] + words[0] + Lay(words[1..], gaps[1..], trail)
  }

  // Any blanks, but at least one character between two words.
  predicate GapsFit(gaps: seq<string>, trail: string) {
    Blank(trail) && forall k :: 0 <= k < |gaps| ==> Blank(gaps[k]) && (k > 0 ==> gaps[k] != "")
  }

  // ---- words come back as tokens -----------------------------------------

  ghost predicate IsWord(w: string) { (Solid(w) && w[0] != '"') || exists s :: w == Quote(s) }

  predicate BlankAhead(rest: string) { rest == "" || IsSpace(rest[0]) }

  lemma {:induction false} RunOfSolid(w: string, rest: string)
    requires (w == "" || Solid(w)) && BlankAhead(rest)
    ensures RunLen(w + rest) == |w|
  {
    if w == "" {
      assert w + rest == rest;
    } else {
      assert (w + rest)[1..] == w[1..] + rest;
      RunOfSolid(w[1..], rest);
    }
  }

  lemma {:induction false} QuoteEnds(s: string, rest: string)
    ensures QuotedLen(Escape(s) + "\"" + rest) == Some(|Escape(s)| + 1)
  {
    var text := Escape(s) + "\"" + rest;
    if s == "" {
      assert text[0] == '"';
    } else {
      var unit := if s[0] == '"' || s[0] == '\\' then 2 else 1;
      assert text[unit..] == Escape(s[1..]) + "\"" + rest;
      QuoteEnds(s[1..], rest);
    }
  }

  lemma WordIsToken(w: string, rest: string)
    requires IsWord(w) && BlankAhead(rest)
    ensures Tokens(w + rest) == [w] + Tokens(rest)
  {
    var text := w + rest;
    if Solid(w) && w[0] != '"' {
      RunOfSolid(w, rest);
    } else {
      var s :| w == Quote(s);
      assert text[1..] == Escape(s) + "\"" + rest;
      QuoteEnds(s, rest);
    }
    assert TokenLen(text) == |w|;
    assert text[..|w|] == w && text[|w|..] == rest;
  }

  lemma {:induction false} BlankIsSkipped(g: string, rest: string)
    requires Blank(g)
    ensures Tokens(g + rest) == Tokens(rest)
  {
    if g == "" {
      assert g + rest == rest;
    } else {
      assert (g + rest)[1..] == g[1..] + rest;
      BlankIsSkipped(g[1..], rest);
    }
  }

  lemma {:induction false} WordsAreTokens(words: seq<string>, gaps: seq<string>, trail: string)
    requires |words| == |gaps| && GapsFit(gaps, trail) && forall k :: 0 <= k < |words| ==> IsWord(words[k])
    ensures Tokens(Lay(words, gaps, trail)) == words
  {
    if words == [] {
      BlankIsSkipped(trail, "");
      assert trail + "" == trail;
    } else {
      var rest := Lay(words[1..], gaps[1..], trail);
      assert gaps[0] + words[0] + rest == gaps[0] + (words[0] + rest);
      BlankIsSkipped(gaps[0], words[0] + rest);
      WordIsToken(words[0], rest);
      WordsAreTokens(words[1..], gaps[1..], trail);
    }
  }

  // ---- tokens come back as clauses ---------------------------------------

  lemma {:induction false} UnescapeEscape(s: string)
    ensures Unescape(Escape(s)) == s
  {
    if s != "" {
      var unit := if s[0] == '"' || s[0] == '\\' then 2 else 1;
      assert Escape(s)[unit..] == Escape(s[1..]);
      UnescapeEscape(s[1..]);
    }
  }

  lemma ValueComesBack(isNum: string -> bool, v: Value)
    requires v.Number? ==> IsNumber(isNum, v.token)
    ensures ParseValue(isNum, ValueText(v)) == Ok(v)
  {
    if v.Text? {
      var t := Quote(v.text);
      assert t[1..|t| - 1] == Escape(v.text);
      UnescapeEscape(v.text);
    }
  }

  lemma {:induction false} SplitStops(segment: string)
    requires '.' !in segment
    ensures Split(segment) == [segment]
  {
    if segment != "" {
      SplitStops(segment[1..]);
      assert [segment[0]] + segment[1..] == segment;
    }
  }

  lemma {:induction false} SplitAtDot(segment: string, rest: string)
    requires '.' !in segment
    ensures Split(segment + "." + rest) == [segment] + Split(rest)
  {
    var s := segment + "." + rest;
    if segment == "" {
      assert s[1..] == rest;
    } else {
      assert s[1..] == segment[1..] + "." + rest;
      SplitAtDot(segment[1..], rest);
      assert s[0] == segment[0] && [segment[0]] + segment[1..] == segment;
      assert ([segment[1..]] + Split(rest))[1..] == Split(rest);
    }
  }

  lemma {:induction false} PathComesBack(path: seq<string>)
    requires IsPath(path)
    ensures Split(Dotted(path)) == path
  {
    assert IsIdent(path[0]);
    if |path| == 1 {
      SplitStops(path[0]);
    } else {
      SplitAtDot(path[0], Dotted(path[1..]));
      PathComesBack(path[1..]);
    }
  }

  lemma OperatorComesBack(word: string, op: Operator)
    requires !op.Inherited? && Lower(word) == Keyword(op)
    ensures OperatorOf(word) == Some(op)
  {}

  lemma ClauseComesBack(isNum: string -> bool, s: Spelt, rest: seq<string>)
    requires WellSpelt(isNum, s)
    ensures ParseClause(isNum, ClauseWords(s) + rest) == Ok(Taken(s.clause, |ClauseWords(s)|))
  {
    var tokens := ClauseWords(s) + rest;
    assert tokens[0] == Dotted(s.clause.path) && tokens[1] == s.op;
    PathComesBack(s.clause.path);
    OperatorComesBack(s.op, s.clause.op);
    if s.clause.value.Some? {
      assert tokens[2] == ValueText(s.clause.value.value);
      ValueComesBack(isNum, s.clause.value.value);
    }
  }

  // A leading "and" only says that the clause is not the first.
  lemma AndIsSkipped(isNum: string -> bool, joiner: string, body: seq<string>)
    requires Lower(joiner) == "and" && body != []
    ensures Clauses(isNum, [joiner] + body, false) == Clauses(isNum, body, true)
  {
    assert ([joiner] + body)[1..] == body;
  }

  lemma FirstClause(isNum: string -> bool, s: Spelt, rest: seq<string>)
    requires WellSpelt(isNum, s)
    ensures Clauses(isNum, ClauseWords(s) + rest, true) == Prepend([s.clause], Clauses(isNum, rest, false))
  {
    ClauseComesBack(isNum, s, rest);
    assert (ClauseWords(s) + rest)[|ClauseWords(s)|..] == rest;
  }

  lemma WordsOpen(isNum: string -> bool, cs: seq<Spelt>)
    requires AllSpelt(isNum, cs) && cs != []
    ensures Words(isNum, cs, true) == ClauseWords(cs[0]) + Words(isNum, cs[1..], false)
    ensures Words(isNum, cs, true) != [] && Words(isNum, cs, false) == [cs[0].joiner] + Words(isNum, cs, true)
  {}

  lemma {:induction false} ClausesComeBack(isNum: string -> bool, cs: seq<Spelt>, first: bool)
    requires AllSpelt(isNum, cs)
    ensures Clauses(isNum, Words(isNum, cs, first), first) == Ok(ClausesOf(cs))
    decreases |cs|, if first then 0 else 1
  {
    if cs != [] {
      WordsOpen(isNum, cs);
      if first {
        FirstClause(isNum, cs[0], Words(isNum, cs[1..], false));
        ClausesComeBack(isNum, cs[1..], false);
      } else {
        AndIsSkipped(isNum, cs[0].joiner, Words(isNum, cs, true));
        ClausesComeBack(isNum, cs, true);
      }
    }
  }

  // ---- every printed word is one token -----------------------------------

  lemma LetterWord(word: string, letters: string)
    requires Lower(word) == letters && letters != "" && forall k :: 0 <= k < |letters| ==> 'a' <= letters[k] <= 'z'
    ensures Solid(word) && word[0] != '"'
  {
    forall k | 0 <= k < |word| ensures IsStart(word[k]) {
      assert LowerChar(word[k]) == letters[k];
    }
  }

  lemma {:induction false} DottedIsWord(path: seq<string>)
    requires IsPath(path)
    ensures Solid(Dotted(path)) && Dotted(path)[0] != '"'
  {
    assert IsIdent(path[0]);
    assert Solid(path[0]);
    if |path| > 1 { DottedIsWord(path[1..]); }
  }

  lemma ValueIsWord(isNum: string -> bool, v: Value)
    requires v.Number? ==> IsNumber(isNum, v.token)
    ensures IsWord(ValueText(v))
  {}

  lemma ClauseIsWords(isNum: string -> bool, s: Spelt)
    requires WellSpelt(isNum, s)
    ensures IsWord(s.joiner) && forall k :: 0 <= k < |ClauseWords(s)| ==> IsWord(ClauseWords(s)[k])
  {
    LetterWord(s.joiner, "and");
    LetterWord(s.op, Keyword(s.clause.op));
    DottedIsWord(s.clause.path);
    if s.clause.value.Some? { ValueIsWord(isNum, s.clause.value.value); }
  }

  lemma {:induction false} WordsAreWords(isNum: string -> bool, cs: seq<Spelt>, first: bool)
    requires AllSpelt(isNum, cs)
    ensures forall k :: 0 <= k < |Words(isNum, cs, first)| ==> IsWord(Words(isNum, cs, first)[k])
  {
    if cs != [] {
      ClauseIsWords(isNum, cs[0]);
      WordsAreWords(isNum, cs[1..], false);
    }
  }

  // ---- trimming ----------------------------------------------------------

  lemma WordIsSolidAtItsEnds(w: string)
    requires IsWord(w)
    ensures w != "" && !IsSpace(w[0]) && !IsSpace(w[|w| - 1])
  {}

  lemma {:induction false} LayEndsSolid(words: seq<string>, gaps: seq<string>)
    requires |words| == |gaps| > 0 && forall k :: 0 <= k < |words| ==> IsWord(words[k])
    ensures var text := Lay(words, gaps, ""); text != "" && !IsSpace(text[|text| - 1])
  {
    WordIsSolidAtItsEnds(words[0]);
    if |words| > 1 { LayEndsSolid(words[1..], gaps[1..]); }
  }

  lemma {:induction false} LayTrail(words: seq<string>, gaps: seq<string>, trail: string)
    requires |words| == |gaps|
    ensures Lay(words, gaps, trail) == Lay(words, gaps, "") + trail
  {
    if words != [] { LayTrail(words[1..], gaps[1..], trail); }
  }

  lemma {:induction false} TrimsLeft(g: string, text: string)
    requires Blank(g) && text != "" && !IsSpace(text[0])
    ensures TrimLeft(g + text) == text
  {
    if g == "" {
      assert g + text == text;
    } else {
      assert (g + text)[1..] == g[1..] + text;
      TrimsLeft(g[1..], text);
    }
  }

  lemma {:induction false} TrimsRight(text: string, g: string)
    requires Blank(g) && text != "" && !IsSpace(text[|text| - 1])
    ensures TrimRight(text + g) == text
    decreases |g|
  {
    if g == "" {
      assert text + g == text;
    } else {
      var last := |g| - 1;
      assert (text + g)[..|text + g| - 1] == text + g[..last];
      assert IsSpace(g[last]);
      TrimsRight(text, g[..last]);
    }
  }

  lemma TrimmedLay(words: seq<string>, gaps: seq<string>, trail: string)
    requires |words| == |gaps| > 0 && GapsFit(gaps, trail) && forall k :: 0 <= k < |words| ==> IsWord(words[k])
    ensures TrimRight(TrimLeft(Lay(words, gaps, trail))) == Lay(words, [""] + gaps[1..], "")
  {
    var tight := [""] + gaps[1..];
    var text := Lay(words, tight, "");
    LayTrail(words, gaps, trail);
    LayTrail(words[1..], gaps[1..], trail);
    WordIsSolidAtItsEnds(words[0]);
    LayEndsSolid(words, tight);
    assert tight[1..] == gaps[1..];
    assert text == words[0] + Lay(words[1..], gaps[1..], "");
    assert Lay(words, gaps, trail) == gaps[0] + (text + trail);
    TrimsLeft(gaps[0], text + trail);
    TrimsRight(text, trail);
  }

  // ---- the round trip ----------------------------------------------------

  lemma ClausesAreThere(cs: seq<Spelt>)
    ensures |ClausesOf(cs)| == |cs|
  {}

  // Any non-empty clause list, written with any blanks and any letter case in its
  // keywords, parses to the single comparison or the AND node of those clauses.
  lemma RoundTrip(isNum: string -> bool, cs: seq<Spelt>, gaps: seq<string>, trail: string)
    requires cs != [] && AllSpelt(isNum, cs)
    requires |gaps| == |Words(isNum, cs, true)| && GapsFit(gaps, trail)
    ensures ClausesOf(cs) != []
    ensures Parse(isNum, Lay(Words(isNum, cs, true), gaps, trail)) == Ok(NodeOf(ClausesOf(cs)))
  {
    var words := Words(isNum, cs, true);
    WordsAreWords(isNum, cs, true);
    TrimmedLay(words, gaps, trail);
    var tight := [""] + gaps[1..];
    LayEndsSolid(words, tight);
    WordsAreTokens(words, tight, "");
    ClausesComeBack(isNum, cs, true);
    ClausesAreThere(cs);
  }

  // ---- and back: whatever parses can be printed --------------------------

  function ClauseList(n: Node): seq<Node> { if n.And? then n.nodes else [n] }

  function Plainly(clauses: seq<Node>): seq<Spelt> {
    if clauses == [] then []
    else [Spelt(clauses[0], "and", if clauses[0].Cmp? then Keyword(clauses[0].op) else "")] + Plainly(clauses[1..])
  }

  predicate AllWellFormed(isNum: string -> bool, clauses: seq<Node>) {
    forall k :: 0 <= k < |clauses| ==> WellFormed(isNum, clauses[k])
  }

  lemma KeywordsAreLower(op: Operator)
    requires !op.Inherited?
    ensures Lower(Keyword(op)) == Keyword(op) && Lower("and") == "and"
  {}

  lemma {:induction false} PlainlySpelt(isNum: string -> bool, clauses: seq<Node>)
    requires AllWellFormed(isNum, clauses)
    ensures AllSpelt(isNum, Plainly(clauses)) && ClausesOf(Plainly(clauses)) == clauses
  {
    if clauses != [] {
      assert WellFormed(isNum, clauses[0]);
      KeywordsAreLower(clauses[0].op);
      PlainlySpelt(isNum, clauses[1..]);
    }
  }

  function Print(isNum: string -> bool, clauses: seq<Node>): string
    requires AllWellFormed(isNum, clauses)
  {
    PlainlySpelt(isNum, clauses);
    var words := Words(isNum, Plainly(clauses), true);
    Lay(words, seq(|words|, k => " "), "")
  }

  // A token is a quoted literal or has no blank in it.
  predicate IsToken(t: string) { t != "" && (t[0] == '"' || Solid(t)) }

  lemma {:induction false} RunIsSolid(s: string)
    ensures forall k :: 0 <= k < RunLen(s) ==> !IsSpace(s[k])
  {
    if s != "" && !IsSpace(s[0]) { RunIsSolid(s[1..]); }
  }

  lemma {:induction false} TokensAreTokens(s: string)
    ensures forall k :: 0 <= k < |Tokens(s)| ==> IsToken(Tokens(s)[k])
    decreases |s|
  {
    if s != "" {
      if IsSpace(s[0]) {
        TokensAreTokens(s[1..]);
      } else {
        RunIsSolid(s);
        TokensAreTokens(s[TokenLen(s)..]);
      }
    }
  }

  // Nothing but the two inherited names spoils a parsed clause.
  predicate Standard(clauses: seq<Node>) { forall k :: 0 <= k < |clauses| ==> clauses[k].Cmp? && !clauses[k].op.Inherited? }

  lemma ParsedClause(isNum: string -> bool, tokens: seq<string>)
    requires forall k :: 0 <= k < |tokens| ==> IsToken(tokens[k])
    requires var c := ParseClause(isNum, tokens); c.Ok? && c.value.clause.Cmp? && !c.value.clause.op.Inherited?
    ensures WellFormed(isNum, ParseClause(isNum, tokens).value.clause)
  {
    if |tokens| > 2 { assert IsToken(tokens[2]); }
  }

  lemma {:induction false} ParsedClauses(isNum: string -> bool, tokens: seq<string>, first: bool)
    requires forall k :: 0 <= k < |tokens| ==> IsToken(tokens[k])
    requires var r := Clauses(isNum, tokens, first); r.Ok? && Standard(r.value)
    ensures AllWellFormed(isNum, Clauses(isNum, tokens, first).value)
    decreases |tokens|
  {
    if tokens != [] {
      var body := if first then tokens else tokens[1..];
      var c := ParseClause(isNum, body).value;
      var all := Clauses(isNum, tokens, first).value;
      var rest := Clauses(isNum, body[c.words..], false).value;
      assert all == [c.clause] + rest;
      assert all[0] == c.clause;
      assert forall k :: 0 <= k < |rest| ==> rest[k] == all[k + 1];
      ParsedClause(isNum, body);
      ParsedClauses(isNum, body[c.words..], false);
    }
  }

  // Printing what was parsed, and parsing it again, gives the same node.
  lemma Reparse(isNum: string -> bool, input: string)
    requires var r := Parse(isNum, input); r.Ok? && Standard(ClauseList(r.value))
    ensures
      var node := Parse(isNum, input).value;
      AllWellFormed(isNum, ClauseList(node)) && Parse(isNum, Print(isNum, ClauseList(node))) == Ok(node)
  {
    var node := Parse(isNum, input).value;
    var tokens := Tokens(TrimRight(TrimLeft(input)));
    var clauses := Clauses(isNum, tokens, true).value;
    TokensAreTokens(TrimRight(TrimLeft(input)));
    assert |clauses| == 1 ==> clauses == [clauses[0]];
    ParsedClauses(isNum, tokens, true);
    PlainlySpelt(isNum, clauses);
    var words := Words(isNum, Plainly(clauses), true);
    RoundTrip(isNum, Plainly(clauses), seq(|words|, k => " "), "");
  }
}
