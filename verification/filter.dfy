// The search filter's string grammar: tokenizer, literals and clause loop.
module Filter {
  import opened Options

  datatype Value = Text(text: string) | Number(token: string) | Truth(truth: bool)

  // The table of operators is a plain object, so two inherited property names are
  // found in it as well.
  datatype Operator =
    | EQ | CONTAINS | STARTS_WITH | ENDS_WITH | GT | GTE | LT | LTE | EXISTS
    | Inherited(name: string)

  datatype Node = Cmp(op: Operator, path: seq<string>, value: Option<Value>) | And(nodes: seq<Node>)

  datatype SyntaxError =
    | EmptyFilter | ExpectedAnd(got: string) | ExpectedPath | InvalidPath(got: string)
    | ExpectedOperator(path: string) | UnknownOperator(got: string)
    | ExpectedValue(op: string) | UnterminatedString(got: string) | BadLiteral(got: string) | NoClauses

  datatype Parsed<+T> = Ok(value: T) | Err(error: SyntaxError)

  // ---- characters --------------------------------------------------------

  // What \s matches and trim removes.
  predicate IsSpace(c: char) {
    || '\t' <= c <= '\r' || c == ' ' || c == '\U{00A0}' || c == '\U{1680}'
    || '\U{2000}' <= c <= '\U{200A}' || c == '\U{2028}' || c == '\U{2029}'
    || c == '\U{202F}' || c == '\U{205F}' || c == '\U{3000}' || c == '\U{FEFF}'
  }

  // What `.` does not match.
  predicate IsLineEnd(c: char) { c == '\n' || c == '\r' || c == '\U{2028}' || c == '\U{2029}' }

  predicate IsStart(c: char) { 'A' <= c <= 'Z' || 'a' <= c <= 'z' || c == '_' }

  predicate IsPart(c: char) { IsStart(c) || '0' <= c <= '9' }

  function LowerChar(c: char): char { if 'A' <= c <= 'Z' then c - 'A' + 'a' else c }

  function Lower(s: string): (r: string)
    ensures |r| == |s| && forall k :: 0 <= k < |s| ==> r[k] == LowerChar(s[k])
  {
    if s == "" then "" else [LowerChar(s[0])] + Lower(s[1..])
  }

  function TrimLeft(s: string): string {
    if s != "" && IsSpace(s[0]) then TrimLeft(s[1..]) else s
  }

  function TrimRight(s: string): string {
    if s != "" && IsSpace(s[|s| - 1]) then TrimRight(s[..|s| - 1]) else s
  }

  // ---- tokens ------------------------------------------------------------

  // How far a quoted string reaches whose opening quote has just been read: past
  // the first unescaped quote, if every backslash on the way escapes something.
  function QuotedLen(s: string): (n: Option<nat>)
    ensures n.Some? ==> 0 < n.value <= |s|
  {
    if s == "" then None
    else if s[0] == '"' then Some(1)
    else
      var unit := if s[0] == '\\' then 2 else 1;
      if |s| < unit || (unit == 2 && IsLineEnd(s[1])) then None
      else
        var rest := QuotedLen(s[unit..]);
        if rest.Some? then Some(unit + rest.value) else None
  }

  function RunLen(s: string): (n: nat)
    ensures n <= |s| && (s != "" && !IsSpace(s[0]) ==> n > 0)
  {
    if s == "" || IsSpace(s[0]) then 0 else 1 + RunLen(s[1..])
  }

  function TokenLen(s: string): (n: nat)
    requires s != "" && !IsSpace(s[0])
    ensures 0 < n <= |s|
  {
    var quoted := if s[0] == '"' then QuotedLen(s[1..]) else None;
    if quoted.Some? then 1 + quoted.value else RunLen(s)
  }

  function Tokens(s: string): seq<string>
    decreases |s|
  {
    if s == "" then []
    else if IsSpace(s[0]) then Tokens(s[1..])
    else [s[..TokenLen(s)]] + Tokens(s[TokenLen(s)..])
  }

  lemma Slices(input: string, at: nat, n: nat)
    requires at + n <= |input|
    ensures input[at..][n..] == input[at + n..] && input[at..][..n] == input[at..at + n]
  {
  }

  lemma Scan(input: string, at: nat)
    requires at < |input|
    ensures IsSpace(input[at]) ==> Tokens(input[at..]) == Tokens(input[at + 1..])
    ensures !IsSpace(input[at]) ==>
      var n := TokenLen(input[at..]);
      at + n <= |input| && Tokens(input[at..]) == [input[at..at + n]] + Tokens(input[at + n..])
  {
    Slices(input, at, if IsSpace(input[at]) then 1 else TokenLen(input[at..]));
  }

  lemma OneMoreToken(before: seq<string>, token: string, after: seq<string>)
    ensures before + ([token] + after) == before + [token] + after
  {
  }

  method Tokenize(input: string) returns (tokens: seq<string>)
    ensures tokens == Tokens(input)
  {
    tokens := [];
    var at := 0;
    ghost var all := Tokens(input);
    assert input[0..] == input;
    while at < |input|
      invariant 0 <= at <= |input|
      invariant all == tokens + Tokens(input[at..])
    {
      Scan(input, at);
      if IsSpace(input[at]) {
        at := at + 1;
      } else {
        var n := TokenLen(input[at..]);
        var token := input[at..at + n];
        OneMoreToken(tokens, token, Tokens(input[at + n..]));
        tokens := tokens + [token];
        at := at + n;
      }
    }
  }

  // ---- literals ----------------------------------------------------------

  function Unescape(s: string): string {
    if s == "" then ""
    else if s[0] == '\\' && |s| > 1 && !IsLineEnd(s[1]) then [s[1]] + Unescape(s[2..])
    else [s[0]] + Unescape(s[1..])
  }

  // `isNum` stands for "Number(token) is not NaN".
  function ParseValue(isNum: string -> bool, token: string): Parsed<Value> {
    if token != "" && token[0] == '"' then
      if token[|token| - 1] != '"' || |token| < 2 then Err(UnterminatedString(token))
      else Ok(Text(Unescape(token[1..|token| - 1])))
    else if token == "true" then Ok(Truth(true))
    else if token == "false" then Ok(Truth(false))
    else if !isNum(token) || token == "" then Err(BadLiteral(token))
    else Ok(Number(token))
  }

  // ---- paths and operators -----------------------------------------------

  function Split(s: string): (segments: seq<string>)
    ensures |segments| > 0
  {
    if s == "" then [""]
    else
      var rest := Split(s[1..]);
      if s[0] == '.' then [""] + rest else [[s[0]] + rest[0]] + rest[1..]
  }

  predicate IsIdent(s: string) {
    s != "" && IsStart(s[0]) && forall k :: 0 <= k < |s| ==> IsPart(s[k])
  }

  predicate IsPath(path: seq<string>) {
    path != [] && forall k :: 0 <= k < |path| ==> IsIdent(path[k])
  }

  function OperatorOf(word: string): Option<Operator> {
    match Lower(word)
    case "eq" => Some(EQ)
    case "co" => Some(CONTAINS)
    case "sw" => Some(STARTS_WITH)
    case "ew" => Some(ENDS_WITH)
    case "gt" => Some(GT)
    case "ge" => Some(GTE)
    case "lt" => Some(LT)
    case "le" => Some(LTE)
    case "pr" => Some(EXISTS)
    case "constructor" => Some(Inherited("constructor"))
    case "__proto__" => Some(Inherited("__proto__"))
    case _ => None
  }

  // ---- clauses -----------------------------------------------------------

  datatype Taken = Taken(clause: Node, words: nat)

  function ParseClause(isNum: string -> bool, tokens: seq<string>): (r: Parsed<Taken>)
    ensures r.Ok? ==> 2 <= r.value.words <= |tokens|
  {
    if tokens == [] then Err(ExpectedPath)
    else if !IsPath(Split(tokens[0])) then Err(InvalidPath(tokens[0]))
    else if |tokens| == 1 then Err(ExpectedOperator(tokens[0]))
    else
      var op := OperatorOf(tokens[1]);
      if op.None? then Err(UnknownOperator(tokens[1]))
      else if op.value == EXISTS then Ok(Taken(Cmp(EXISTS, Split(tokens[0]), None), 2))
      else if |tokens| == 2 then Err(ExpectedValue(tokens[1]))
      else
        var v := ParseValue(isNum, tokens[2]);
        if v.Err? then Err(v.error) else Ok(Taken(Cmp(op.value, Split(tokens[0]), Some(v.value)), 3))
  }

  // The clauses that a token list spells; all but the first follow an "and".
  function Clauses(isNum: string -> bool, tokens: seq<string>, first: bool): Parsed<seq<Node>>
    decreases |tokens|
  {
    if tokens == [] then Ok([])
    else if !first && Lower(tokens[0]) != "and" then Err(ExpectedAnd(tokens[0]))
    else
      var body := if first then tokens else tokens[1..];
      var c := ParseClause(isNum, body);
      if c.Err? then Err(c.error) else Prepend([c.value.clause], Clauses(isNum, body[c.value.words..], false))
  }

  function Prepend(cs: seq<Node>, rest: Parsed<seq<Node>>): Parsed<seq<Node>> {
    if rest.Ok? then Ok(cs + rest.value) else rest
  }

  function NodeOf(clauses: seq<Node>): Node
    requires clauses != []
  {
    if |clauses| == 1 then clauses[0] else And(clauses)
  }

  function Parse(isNum: string -> bool, input: string): Parsed<Node> {
    var trimmed := TrimRight(TrimLeft(input));
    if trimmed == "" then Err(EmptyFilter)
    else
      var clauses := Clauses(isNum, Tokens(trimmed), true);
      if clauses.Err? then Err(clauses.error)
      else if clauses.value == [] then Err(NoClauses)
      else Ok(NodeOf(clauses.value))
  }

  // What is left to parse from the i-th token on.
  ghost function Left(isNum: string -> bool, tokens: seq<string>, i: nat): Parsed<seq<Node>>
    requires i <= |tokens|
  {
    Clauses(isNum, tokens[i..], i == 0)
  }

  ghost predicate Joined(tokens: seq<string>, i: nat)
    requires i < |tokens|
  {
    i == 0 || Lower(tokens[i]) == "and"
  }

  // Where the clause at the i-th token begins, after its "and".
  ghost function Body(i: nat): nat { if i == 0 then 0 else i + 1 }

  lemma NotJoined(isNum: string -> bool, tokens: seq<string>, i: nat)
    requires i < |tokens| && !Joined(tokens, i)
    ensures Left(isNum, tokens, i) == Err(ExpectedAnd(tokens[i]))
  {}

  lemma ClauseFails(isNum: string -> bool, tokens: seq<string>, i: nat, e: SyntaxError)
    requires i < |tokens| && Joined(tokens, i) && ParseClause(isNum, tokens[Body(i)..]) == Err(e)
    ensures Left(isNum, tokens, i) == Err(e)
  {
    assert i == 0 ==> tokens[i..] == tokens[Body(i)..];
    assert i > 0 ==> tokens[i..][1..] == tokens[Body(i)..];
  }

  lemma ClauseTaken(isNum: string -> bool, tokens: seq<string>, clauses: seq<Node>, i: nat, t: Taken)
    requires i < |tokens| && Joined(tokens, i) && ParseClause(isNum, tokens[Body(i)..]) == Ok(t)
    ensures Body(i) + t.words <= |tokens|
    ensures Prepend(clauses, Left(isNum, tokens, i)) == Prepend(clauses + [t.clause], Left(isNum, tokens, Body(i) + t.words))
  {
    var body := tokens[Body(i)..];
    assert i == 0 ==> tokens[i..] == body;
    assert i > 0 ==> tokens[i..][1..] == body;
    assert body[t.words..] == tokens[Body(i) + t.words..];
    var rest := Left(isNum, tokens, Body(i) + t.words);
    assert Left(isNum, tokens, i) == Prepend([t.clause], rest);
    if rest.Ok? { assert clauses + ([t.clause] + rest.value) == clauses + [t.clause] + rest.value; }
  }

  lemma NothingBefore(r: Parsed<seq<Node>>)
    ensures Prepend([], r) == r
  {
    if r.Ok? { assert [] + r.value == r.value; }
  }

  method ParseClauses(isNum: string -> bool, tokens: seq<string>) returns (r: Parsed<seq<Node>>)
    ensures r == Clauses(isNum, tokens, true)
  {
    var clauses: seq<Node> := [];
    var i := 0;
    assert tokens[0..] == tokens;
    ghost var all := Left(isNum, tokens, 0);
    NothingBefore(all);
    while i < |tokens|
      invariant 0 <= i <= |tokens|
      invariant all == Prepend(clauses, Left(isNum, tokens, i))
    {
      ghost var from := i;
      if i > 0 {
        if Lower(tokens[i]) != "and" {
          NotJoined(isNum, tokens, i);
          return Err(ExpectedAnd(tokens[i]));
        }
        i := i + 1;
      }
      var clause := ParseClause(isNum, tokens[i..]);
      if clause.Err? {
        ClauseFails(isNum, tokens, from, clause.error);
        return Err(clause.error);
      }
      ClauseTaken(isNum, tokens, clauses, from, clause.value);
      clauses := clauses + [clause.value.clause];
      i := i + clause.value.words;
    }
    assert clauses + [] == clauses;
    return Ok(clauses);
  }

  method ParseFilterString(isNum: string -> bool, input: string) returns (r: Parsed<Node>)
    ensures r == Parse(isNum, input)
  {
    var trimmed := TrimRight(TrimLeft(input));
    if trimmed == "" { return Err(EmptyFilter); }
    var tokens := Tokenize(trimmed);
    var clauses := ParseClauses(isNum, tokens);
    if clauses.Err? { return Err(clauses.error); }
    if |clauses.value| == 0 { return Err(NoClauses); }
    return Ok(NodeOf(clauses.value));
  }
}
