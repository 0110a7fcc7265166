/** The lexer of main.py:7-24. At every position the token patterns are tried
    in order (TRIPLE_STRING, STRING, NUMBER, ID, NEWLINE, SKIP, SYMBOL,
    UNKNOWN) and the first one that matches wins; NEWLINE and SKIP tokens are
    dropped. Each pattern is written out as a character scanner. */
module Lexer {
  import opened Wrappers
  import opened Decimal
  import opened SeqUtil

  datatype Kind = TripleString | StringLit | Number | Id | Newline | Skip | Symbol | Unknown

  datatype Token = Token(kind: Kind, lexeme: string)

  /** The pattern that matched at a position and the length of its match. */
  datatype Match = Match(kind: Kind, len: nat)

  predicate IsLetter(c: char) {
    ('a' <= c <= 'z') || ('A' <= c <= 'Z')
  }

  /** `[A-Za-z_]` */
  predicate IsIdStart(c: char) {
    IsLetter(c) || c == '_'
  }

  /** `[A-Za-z0-9_]` */
  predicate IsIdChar(c: char) {
    IsIdStart(c) || IsDigit(c)
  }

  predicate IsBlank(c: char) {
    c == ' ' || c == '\t'
  }

  // The SYMBOL class: one of the sixteen characters below.
  predicate IsSymbolChar(c: char) {
    c in "{}();=,+-*/<>[]."
  }

  /** A string that the ID pattern matches in full. */
  predicate IsIdent(s: string) {
    |s| > 0 && IsIdStart(s[0]) && forall i :: 0 <= i < |s| ==> IsIdChar(s[i])
  }

  /** Length of the longest prefix of `s[i..]` whose characters satisfy the
      class: the greedy `+` of NUMBER, ID (after its first character) and SKIP. */
  function RunEnd(s: string, i: nat, digits: bool, ident: bool): (j: nat)
    requires i <= |s|
    ensures i <= j <= |s|
    ensures forall k :: i <= k < j ==> if digits then IsDigit(s[k]) else if ident then IsIdChar(s[k]) else IsBlank(s[k])
    ensures j < |s| ==> !(if digits then IsDigit(s[j]) else if ident then IsIdChar(s[j]) else IsBlank(s[j]))
    decreases |s| - i
  {
    if i < |s| && (if digits then IsDigit(s[i]) else if ident then IsIdChar(s[i]) else IsBlank(s[i]))
    then RunEnd(s, i + 1, digits, ident)
    else i
  }

  predicate TripleQuoteAt(s: string, i: nat) {
    i + 3 <= |s| && s[i] == '"' && s[i + 1] == '"' && s[i + 2] == '"'
  }

  /** The body `(?:[^"\\]|\\.|"(?!"")|""(?!""))*"""` of TRIPLE_STRING,
      matched from `i` with the backtracking order of a greedy star: another
      iteration (its alternatives in order) is tried before the closing `"""`.
      The result is the end of the whole match. */
  function TripleBody(s: string, i: nat): (r: Option<nat>)
    requires i <= |s|
    ensures r.Some? ==> i + 3 <= r.value <= |s| && TripleQuoteAt(s, r.value - 3)
    decreases |s| - i
  {
    if i == |s| then None
    else if s[i] != '"' && s[i] != '\\' then TripleBody(s, i + 1)
    else if s[i] == '\\' then
      (if i + 1 < |s| && s[i + 1] != '\n' then TripleBody(s, i + 2) else None)
    else
      // s[i] is a quote: `"(?!"")`, then `""(?!"")`, then the closing `"""`
      var one := if !TripleQuoteAt(s, i) then TripleBody(s, i + 1) else None;
      if one.Some? then one
      else
        var two := if i + 1 < |s| && s[i + 1] == '"' && !(i + 4 <= |s| && s[i + 2] == '"' && s[i + 3] == '"')
                   then TripleBody(s, i + 2) else None;
        if two.Some? then two
        else if TripleQuoteAt(s, i) then Some(i + 3)
        else None
  }

  /** The body `([^"\\]|\\.)*"` of STRING from `i`. Its alternatives never
      start with a quote, so the first quote reached ends the match and
      backtracking can find no other. */
  function StringBody(s: string, i: nat): (r: Option<nat>)
    requires i <= |s|
    ensures r.Some? ==> i < r.value <= |s| && s[r.value - 1] == '"'
    decreases |s| - i
  {
    if i == |s| then None
    else if s[i] == '"' then Some(i + 1)
    else if s[i] != '\\' then StringBody(s, i + 1)
    else if i + 1 < |s| && s[i + 1] != '\n' then StringBody(s, i + 2)
    else None
  }

  /** The kind and length of the token at the start of `s`: the first pattern
      of main.py:8-17 that matches. */
  function MatchToken(s: string): (m: Match)
    requires |s| > 0
    ensures 0 < m.len <= |s|
    ensures m.kind == TripleString ==> m.len >= 6 && TripleQuoteAt(s, 0) && TripleQuoteAt(s, m.len - 3)
    ensures m.kind == StringLit ==> m.len >= 2 && s[0] == '"' && s[m.len - 1] == '"'
    ensures m.kind == Number ==> AllDigits(s[..m.len]) && (m.len < |s| ==> !IsDigit(s[m.len]))
    ensures m.kind == Id ==> IsIdent(s[..m.len]) && (m.len < |s| ==> !IsIdChar(s[m.len]))
    ensures m.kind == Newline ==> s[..m.len] == "\n"
    ensures m.kind == Skip ==> (forall k :: 0 <= k < m.len ==> IsBlank(s[k])) && (m.len < |s| ==> !IsBlank(s[m.len]))
    ensures m.kind == Symbol ==> m.len == 1 && IsSymbolChar(s[0])
    ensures m.kind == Unknown ==> m.len == 1 && s[0] != '\n'
  {
    var triple := if TripleQuoteAt(s, 0) then TripleBody(s, 3) else None;
    var str := if s[0] == '"' then StringBody(s, 1) else None;
    if triple.Some? then Match(TripleString, triple.value)
    else if str.Some? then Match(StringLit, str.value)
    else if IsDigit(s[0]) then Match(Number, RunEnd(s, 0, true, false))
    else if IsIdStart(s[0]) then Match(Id, RunEnd(s, 1, false, true))
    else if s[0] == '\n' then Match(Newline, 1)
    else if IsBlank(s[0]) then Match(Skip, RunEnd(s, 0, false, false))
    else if IsSymbolChar(s[0]) then Match(Symbol, 1)
    else Match(Unknown, 1)
  }

  /** Every match of the combined pattern, in order, including the NEWLINE
      and SKIP matches that `tokenize` drops. */
  function Scan(s: string): seq<Token>
    decreases |s|
  {
    if s == [] then []
    else
      var m := MatchToken(s);
      [Token(m.kind, s[..m.len])] + Scan(s[m.len..])
  }

  predicate Hidden(t: Token) {
    t.kind == Newline || t.kind == Skip
  }

  /** The tokens `tokenize` yields from a list of matches. */
  function Visible(ts: seq<Token>): seq<Token> {
    if ts == [] then []
    else (if Hidden(ts[0]) then [] else [ts[0]]) + Visible(ts[1..])
  }

  /** The token sequence `tokenize(code)` yields (main.py:19-24). */
  function Tokens(code: string): seq<Token> {
    Visible(Scan(code))
  }

  function Lexemes(ts: seq<Token>): string {
    if ts == [] then [] else ts[0].lexeme + Lexemes(ts[1..])
  }

  /** `tokenize` (main.py:7-24): one left-to-right pass that keeps every
      match except NEWLINE and SKIP. */
  method Tokenize(code: string) returns (toks: seq<Token>)
    ensures toks == Tokens(code)
  {
    toks := [];
    var rest := code;
    while rest != []
      invariant toks + Visible(Scan(rest)) == Tokens(code)
      decreases |rest|
    {
      var m := MatchToken(rest);
      var t := Token(m.kind, rest[..m.len]);
      var shown := if Hidden(t) then [] else [t];
      ScanStep(rest, t, shown, toks);
      toks := toks + shown;
      rest := rest[m.len..];
    }
  }

  /** One step of the scan: the first match of `rest` is `t`. */
  lemma ScanStep(rest: string, t: Token, shown: seq<Token>, toks: seq<Token>)
    requires rest != [] && t == Token(MatchToken(rest).kind, rest[..MatchToken(rest).len])
    requires shown == if Hidden(t) then [] else [t]
    ensures toks + Visible(Scan(rest)) == (toks + shown) + Visible(Scan(rest[MatchToken(rest).len..]))
  {
    var ts := Scan(rest);
    assert ts[0] == t && ts[1..] == Scan(rest[MatchToken(rest).len..]);
    AppendAssoc(toks, shown, Visible(ts[1..]));
  }

  /** Lexer totality: the matches cover the input exactly, so no character
      is ever skipped or read twice. */
  lemma {:induction false} ScanCovers(s: string)
    ensures Lexemes(Scan(s)) == s
    decreases |s|
  {
    if s != [] {
      var m := MatchToken(s);
      ScanCovers(s[m.len..]);
      assert s == s[..m.len] + s[m.len..];
    }
  }

  /** Every match has a non-empty lexeme, so the scan makes progress. */
  lemma {:induction false} ScanLexemesNonEmpty(s: string)
    ensures forall t :: t in Scan(s) ==> |t.lexeme| > 0
    decreases |s|
  {
    if s != [] {
      ScanLexemesNonEmpty(s[MatchToken(s).len..]);
    }
  }

  lemma {:induction false} VisibleKinds(ts: seq<Token>)
    ensures forall t :: t in Visible(ts) ==> t in ts && !Hidden(t)
  {
    if ts != [] {
      VisibleKinds(ts[1..]);
    }
  }

  /** No yielded token is NEWLINE or SKIP; every yielded kind is one of the
      six kinds that `tokenize` passes on, with a non-empty lexeme. */
  lemma TokensKinds(code: string)
    ensures forall t :: t in Tokens(code) ==>
      t.kind in {TripleString, StringLit, Number, Id, Symbol, Unknown} && |t.lexeme| > 0
  {
    VisibleKinds(Scan(code));
    ScanLexemesNonEmpty(code);
  }

  lemma {:induction false} VisibleAppend(a: seq<Token>, b: seq<Token>)
    ensures Visible(a + b) == Visible(a) + Visible(b)
  {
    if a != [] {
      TailAppend(a, b);
      VisibleAppend(a[1..], b);
      var h := if Hidden(a[0]) then [] else [a[0]];
      calc {
        Visible(a + b);
        h + Visible(a[1..] + b);
        h + (Visible(a[1..]) + Visible(b));
        (h + Visible(a[1..])) + Visible(b);
      }
    } else {
      assert a + b == b;
    }
  }
}
