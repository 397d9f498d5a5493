/** SQL text made of code and quoted values, as scripts/affiliate_local_lifecycle_revalidation.py writes it,
    and the lexer that finds the values again. */
module SqlText {
  import opened Text

  /** A quote inside a value is doubled. */
  function Doubled(s: string): string {
    if s == "" then "" else (if s[0] == '\'' then "''" else [s[0]]) + Doubled(s[1..])
  }

  /** `_quote`. */
  function Quote(s: string): string { "'" + Doubled(s) + "'" }

  datatype Token = Code(c: char) | Literal(value: string) | Unterminated

  /** The body of a string literal after its opening quote: its value and what follows the closing quote. */
  function LiteralBody(s: string): Option<(string, string)>
    decreases |s|
  {
    if s == "" then None
    else if s[0] != '\'' then
      var rest := LiteralBody(s[1..]);
      if rest.None? then None else Some(([s[0]] + rest.value.0, rest.value.1))
    else if |s| > 1 && s[1] == '\'' then
      var rest := LiteralBody(s[2..]);
      if rest.None? then None else Some(("'" + rest.value.0, rest.value.1))
    else Some(("", s[1..]))
  }

  lemma {:induction false} BodyShrinks(s: string)
    ensures LiteralBody(s).Some? ==> |LiteralBody(s).value.1| < |s|
    decreases |s|
  {
    if s != "" {
      BodyShrinks(s[1..]);
      if |s| > 1 { BodyShrinks(s[2..]); }
    }
  }

  /** String literals and single characters of code. */
  function Lex(s: string): seq<Token>
    decreases |s|
  {
    if s == "" then []
    else if s[0] != '\'' then [Code(s[0])] + Lex(s[1..])
    else
      BodyShrinks(s[1..]);
      var body := LiteralBody(s[1..]);
      if body.None? then [Unterminated] else [Literal(body.value.0)] + Lex(body.value.1)
  }

  predicate Unquoted(s: string) { forall i :: 0 <= i < |s| ==> s[i] != '\'' }

  /** What may follow a literal: anything but another quote. */
  predicate Follows(rest: string) { rest == "" || rest[0] != '\'' }

  /** Unquoting undoes quoting, for every value. */
  lemma {:induction false} QuoteReadsBack(value: string, rest: string)
    requires Follows(rest)
    ensures LiteralBody(Doubled(value) + "'" + rest) == Some((value, rest))
    decreases |value|
  {
    var s := Doubled(value) + "'" + rest;
    if value == "" {
      assert s == "'" + rest && s[1..] == rest;
    } else {
      QuoteReadsBack(value[1..], rest);
      var tail := Doubled(value[1..]) + "'" + rest;
      if value[0] == '\'' {
        assert s == "''" + tail && s[2..] == tail && s[0] == '\'' && s[1] == '\'';
      } else {
        assert s == [value[0]] + tail && s[1..] == tail && s[0] == value[0];
      }
      assert [value[0]] + value[1..] == value;
    }
  }

  lemma {:induction false} LexQuote(value: string, rest: string)
    requires Follows(rest)
    ensures Lex(Quote(value) + rest) == [Literal(value)] + Lex(rest)
  {
    var s := Quote(value) + rest;
    assert s[0] == '\'' && s[1..] == Doubled(value) + "'" + rest;
    QuoteReadsBack(value, rest);
  }

  function Codes(s: string): (r: seq<Token>)
    ensures |r| == |s| && forall i :: 0 <= i < |r| ==> r[i] == Code(s[i])
  {
    seq(|s|, i requires 0 <= i < |s| => Code(s[i]))
  }

  lemma {:induction false} LexCode(code: string, rest: string)
    requires Unquoted(code)
    ensures Lex(code + rest) == Codes(code) + Lex(rest)
    decreases |code|
  {
    if code == "" {
      assert code + rest == rest && Codes(code) + Lex(rest) == Lex(rest);
    } else {
      assert forall i :: 0 <= i < |code[1..]| ==> code[1..][i] == code[i + 1];
      LexCode(code[1..], rest);
      assert (code + rest)[1..] == code[1..] + rest && (code + rest)[0] == code[0];
      assert Codes(code) == [Code(code[0])] + Codes(code[1..]);
    }
  }

  // ---------- Text from pieces ----------

  /** Code of a statement: no quote and no semicolon. */
  predicate Plain(s: string) { s != "" && forall i :: 0 <= i < |s| ==> s[i] != '\'' && s[i] != ';' }

  type SqlCode = s: string | Plain(s) witness " "

  datatype Piece = Fixed(code: SqlCode) | Value(value: string)

  function RenderPiece(p: Piece): string { if p.Fixed? then p.code else Quote(p.value) }

  function Render(ps: seq<Piece>): string { if ps == [] then "" else RenderPiece(ps[0]) + Render(ps[1..]) }

  function Tokens(ps: seq<Piece>): seq<Token> {
    if ps == [] then [] else (if ps[0].Fixed? then Codes(ps[0].code) else [Literal(ps[0].value)]) + Tokens(ps[1..])
  }

  /** No two values stand side by side. */
  predicate Spaced(ps: seq<Piece>) { forall i :: 0 < i < |ps| && ps[i].Value? ==> ps[i - 1].Fixed? }

  /** The text after a value starts with something other than a quote. */
  lemma {:induction false} RenderFollows(ps: seq<Piece>, rest: string)
    requires Follows(rest) && (ps != [] ==> ps[0].Fixed?)
    ensures Follows(Render(ps) + rest)
  {
    if ps == [] {
      assert Render(ps) + rest == rest;
    } else {
      assert Plain(ps[0].code);
      assert (Render(ps) + rest)[0] == ps[0].code[0];
    }
  }

  /** Lexing the text gives exactly the code and the values it was made of. */
  lemma {:induction false} LexRender(ps: seq<Piece>, rest: string)
    requires Spaced(ps) && Follows(rest)
    ensures Lex(Render(ps) + rest) == Tokens(ps) + Lex(rest)
    decreases |ps|
  {
    hide Lex, Quote, Plain;
    if ps == [] {
      assert Render(ps) + rest == rest && Tokens(ps) + Lex(rest) == Lex(rest);
    } else {
      assert forall i :: 0 <= i < |ps[1..]| ==> ps[1..][i] == ps[i + 1];
      LexRender(ps[1..], rest);
      assert Render(ps) + rest == RenderPiece(ps[0]) + (Render(ps[1..]) + rest);
      if ps[0].Fixed? {
        assert Unquoted(ps[0].code) by { PlainIsUnquoted(ps[0].code); }
        LexCode(ps[0].code, Render(ps[1..]) + rest);
      } else {
        if |ps| > 1 { assert ps[1..][0] == ps[1]; }
        RenderFollows(ps[1..], rest);
        LexQuote(ps[0].value, Render(ps[1..]) + rest);
      }
    }
  }

  lemma {:induction false} PlainIsUnquoted(s: SqlCode)
    ensures Unquoted(s)
  {
    assert Plain(s);
  }

  // ---------- Statements ----------

  /** The tokens up to the first semicolon of code, and those after it. */
  function FirstStatement(ts: seq<Token>): Option<(seq<Token>, seq<Token>)> {
    if ts == [] then None
    else if ts[0] == Code(';') then Some(([], ts[1..]))
    else
      var rest := FirstStatement(ts[1..]);
      if rest.None? then None else Some(([ts[0]] + rest.value.0, rest.value.1))
  }

  lemma {:induction false} StatementShrinks(ts: seq<Token>)
    ensures FirstStatement(ts).Some? ==> |FirstStatement(ts).value.1| < |ts|
    decreases |ts|
  {
    if ts != [] { StatementShrinks(ts[1..]); }
  }

  /** The statements of a token stream: a semicolon inside a literal does not end one. */
  function Split(ts: seq<Token>): seq<seq<Token>>
    decreases |ts|
  {
    StatementShrinks(ts);
    var first := FirstStatement(ts);
    if first.None? then [] else [first.value.0] + Split(first.value.1)
  }

  predicate NoSemicolon(ts: seq<Token>) { forall i :: 0 <= i < |ts| ==> ts[i] != Code(';') }

  lemma {:induction false} FirstStatementIs(body: seq<Token>, rest: seq<Token>)
    requires NoSemicolon(body)
    ensures FirstStatement(body + [Code(';')] + rest) == Some((body, rest))
    decreases |body|
  {
    var ts := body + [Code(';')] + rest;
    if body == [] {
      assert ts[0] == Code(';') && ts[1..] == rest;
    } else {
      assert forall i :: 0 <= i < |body[1..]| ==> body[1..][i] == body[i + 1];
      FirstStatementIs(body[1..], rest);
      assert ts[0] == body[0] && ts[1..] == body[1..] + [Code(';')] + rest;
      assert [body[0]] + body[1..] == body;
    }
  }

  lemma {:induction false} TokensHoldNoSemicolon(ps: seq<Piece>)
    ensures NoSemicolon(Tokens(ps))
    decreases |ps|
  {
    if ps != [] {
      TokensHoldNoSemicolon(ps[1..]);
      if ps[0].Fixed? { assert Plain(ps[0].code); }
    }
  }

  /** A file: every statement ends with a semicolon and a new line. */
  function FileText(bodies: seq<seq<Piece>>): string {
    if bodies == [] then "" else Render(bodies[0]) + ";\n" + FileText(bodies[1..])
  }

  /** The statements that a reader of the file must find; all but the first start with the line break. */
  function Intended(bodies: seq<seq<Piece>>, lead: seq<Token>): seq<seq<Token>> {
    if bodies == [] then [] else [lead + Tokens(bodies[0])] + Intended(bodies[1..], [Code('\n')])
  }

  lemma {:induction false} LexEnd(rest: string)
    ensures Lex(";\n" + rest) == [Code(';'), Code('\n')] + Lex(rest)
  {
    assert (";\n" + rest)[1..] == "\n" + rest && ("\n" + rest)[1..] == rest;
    assert Lex(";\n" + rest) == [Code(';')] + Lex("\n" + rest);
    assert Lex("\n" + rest) == [Code('\n')] + Lex(rest);
  }

  lemma {:induction false} LexFile(bodies: seq<seq<Piece>>)
    requires bodies != [] && Spaced(bodies[0])
    ensures Lex(FileText(bodies)) == Tokens(bodies[0]) + ([Code(';'), Code('\n')] + Lex(FileText(bodies[1..])))
  {
    hide Lex, Render, Tokens, Spaced;
    var rest := FileText(bodies[1..]);
    assert FileText(bodies) == Render(bodies[0]) + (";\n" + rest);
    LexRender(bodies[0], ";\n" + rest);
    LexEnd(rest);
  }

  /** The file, lexed and split at its semicolons, is exactly the statements it was made of: no value can end
      its literal or its statement early. */
  lemma {:induction false} FileReadsBack(bodies: seq<seq<Piece>>, lead: seq<Token>)
    requires forall i :: 0 <= i < |bodies| ==> Spaced(bodies[i])
    requires lead == [] || lead == [Code('\n')]
    ensures Split(lead + Lex(FileText(bodies))) == Intended(bodies, lead)
    decreases |bodies|
  {
    hide Lex, Render, Tokens, Spaced, FirstStatement;
    if bodies == [] {
      assert Lex("") == [] by { LexNothing(); }
      assert lead + [] == lead;
      assert FirstStatement(lead).None? by { NoStatement(lead); }
    } else {
      LexFile(bodies);
      var body, rest := lead + Tokens(bodies[0]), [Code('\n')] + Lex(FileText(bodies[1..]));
      TokensHoldNoSemicolon(bodies[0]);
      assert NoSemicolon(body);
      assert lead + Lex(FileText(bodies)) == body + [Code(';')] + rest;
      FirstStatementIs(body, rest);
      FileReadsBack(bodies[1..], [Code('\n')]);
    }
  }

  lemma {:induction false} LexNothing()
    ensures Lex("") == []
  {
  }

  lemma {:induction false} NoStatement(ts: seq<Token>)
    requires ts == [] || ts == [Code('\n')]
    ensures FirstStatement(ts).None?
  {
  }
}
