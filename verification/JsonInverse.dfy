/** Completeness of the parser of JsonGrammar: reading back a printed tree returns that tree, so
    no text has two derivations and every sentence of the grammar is accepted. */
module JsonInverse {
  import opened JsonGrammar

  lemma {:induction false} Split(text: string, a: nat, c: nat, s: string, t: string) returns (b: nat)
    requires Spans(text, a, c, s + t)
    ensures b == a + |s| && Spans(text, a, b, s) && Spans(text, b, c, t)
  {
    b := a + |s|;
    assert text[a..c] == s + t;
    assert text[a..b] == text[a..c][..|s|] == s;
    assert text[b..c] == text[a..c][|s|..] == t;
  }

  lemma {:induction false} SplitChar(text: string, a: nat, e: nat, c: char, s: string)
    requires Spans(text, a, e, [c] + s)
    ensures CharAt(text, a, c) && Spans(text, a + 1, e, s)
  {
    var b := Split(text, a, e, [c], s);
    assert text[a] == text[a..b][0];
  }

  /** Undo `Prefixed`. */
  lemma {:induction false} SplitPrefixed(text: string, a: nat, e: nat, c: char, w: string, s: string) returns (b: nat)
    requires Spans(text, a, e, [c] + (w + s))
    ensures CharAt(text, a, c) && a + 1 <= b && Spans(text, a + 1, b, w) && Spans(text, b, e, s)
  {
    SplitChar(text, a, e, c, w + s);
    b := Split(text, a + 1, e, w, s);
  }

  /** Undo `Spaced`. */
  lemma {:induction false} SplitSpaced(text: string, a: nat, e: nat, s: string, w: string, t: string)
    returns (b: nat, c: nat)
    requires Spans(text, a, e, s + (w + t))
    ensures Spans(text, a, b, s) && Spans(text, b, c, w) && Spans(text, c, e, t)
  {
    b := Split(text, a, e, s, w + t);
    c := Split(text, b, e, w, t);
  }

  lemma {:induction false} SkipSpaceExact(text: string, a: nat, b: nat, w: string)
    requires Spans(text, a, b, w) && AllSpace(w) && (b < |text| ==> !IsSpace(text[b]))
    ensures SkipSpace(text, a) == b
    decreases b - a
  {
    if a < b {
      assert text[a] == w[0];
      assert text[a + 1..b] == w[1..];
      SkipSpaceExact(text, a + 1, b, w[1..]);
    }
  }

  lemma {:induction false} SkipDigitsExact(text: string, a: nat, b: nat, d: string)
    requires Spans(text, a, b, d) && (forall i :: 0 <= i < |d| ==> IsDigit(d[i])) && (b < |text| ==> !IsDigit(text[b]))
    ensures SkipDigits(text, a) == b
    decreases b - a
  {
    if a < b {
      assert text[a] == d[0];
      assert text[a + 1..b] == d[1..];
      SkipDigitsExact(text, a + 1, b, d[1..]);
    }
  }

  lemma {:induction false} DigitsExact(text: string, a: nat, b: nat, d: string)
    requires Spans(text, a, b, d) && Digits(d) && (b < |text| ==> !IsDigit(text[b]))
    ensures ParseDigits(text, a) == Ok(d, b)
  {
    SkipDigitsExact(text, a, b, d);
  }

  // ---------- Numbers ----------

  /** The character after a number token does not continue the token. */
  predicate NumberEnds(text: string, e: nat) {
    e < |text| ==> !IsDigit(text[e]) && text[e] != '.' && text[e] != 'e' && text[e] != 'E'
  }

  lemma {:induction false} ExpExact(text: string, a: nat, e: nat, x: Exponent)
    requires Spans(text, a, e, PrintExp(x)) && ExponentOk(x) && NumberEnds(text, e)
    ensures ParseExp(text, a) == Ok(x, e)
    ensures a < |text| ==> !IsDigit(text[a]) && text[a] != '.'
  {
    if x.Exp? {
      SplitChar(text, a, e, x.marker, x.sign + x.digits);
      var b := Split(text, a + 1, e, x.sign, x.digits);
      assert text[b] == x.digits[0];
      if x.sign != "" { assert text[a + 1] == text[a + 1..b][0] == x.sign[0]; }
      DigitsExact(text, b, e, x.digits);
      assert x.sign == (if SignAt(text, a + 1) then [text[a + 1]] else "");
    }
  }

  lemma {:induction false} FracExact(text: string, a: nat, b: nat, f: string)
    requires Spans(text, a, b, PrintFrac(f)) && (f != "" ==> Digits(f))
    requires b < |text| ==> !IsDigit(text[b]) && text[b] != '.'
    ensures ParseFrac(text, a) == Ok(f, b)
    ensures a < |text| ==> !IsDigit(text[a])
  {
    if f != "" {
      SplitChar(text, a, b, '.', f);
      DigitsExact(text, a + 1, b, f);
    }
  }

  lemma {:induction false} WholeExact(text: string, a: nat, b: nat, w: string)
    requires Spans(text, a, b, w) && Digits(w) && (w[0] == '0' ==> w == "0") && (b < |text| ==> !IsDigit(text[b]))
    ensures ParseWhole(text, a) == Ok(w, b)
    ensures a < |text| && text[a] == w[0]
  {
    assert text[a] == w[0];
    if w[0] != '0' { DigitsExact(text, a, b, w); }
  }

  lemma {:induction false} NumberExact(text: string, pos: nat, e: nat, n: Number)
    requires Spans(text, pos, e, PrintNumber(n)) && NumberOk(n) && NumberEnds(text, e)
    ensures ParseNumber(text, pos) == Ok(n, e)
    ensures pos < |text| && (text[pos] == '-' || IsDigit(text[pos]))
  {
    hide ParseExp, ParseFrac, ParseWhole, PrintExp, PrintFrac;
    var p := Split(text, pos, e, PrintSign(n.neg), n.whole + (PrintFrac(n.frac) + PrintExp(n.exp)));
    var a := Split(text, p, e, n.whole, PrintFrac(n.frac) + PrintExp(n.exp));
    var b := Split(text, a, e, PrintFrac(n.frac), PrintExp(n.exp));
    ExpExact(text, b, e, n.exp);
    FracExact(text, a, b, n.frac);
    WholeExact(text, p, a, n.whole);
    if n.neg { assert text[pos] == text[pos..p][0] == '-'; }
  }

  // ---------- Strings ----------

  lemma {:induction false} UnitExact(text: string, a: nat, b: nat, u: Unit)
    requires Spans(text, a, b, PrintUnit(u)) && UnitOk(u)
    ensures a < |text| && text[a] != '\"' && ParseUnit(text, a) == Ok(u, b)
  {
    if u.Hex? {
      var m := Split(text, a, b, "\\u", u.digits);
      assert text[a] == text[a..m][0] && text[a + 1] == text[a..m][1];
      forall i | m <= i < m + 4 ensures IsHexDigit(text[i]) { assert text[i] == text[m..b][i - m]; }
    } else {
      assert text[a] == text[a..b][0];
      if u.Escape? { assert text[a + 1] == text[a..b][1]; }
    }
  }

  lemma {:induction false} TailExact(text: string, a: nat, b: nat, us: seq<Unit>)
    requires Spans(text, a, b, PrintTail(us)) && UnitsOk(us)
    ensures ParseTail(text, a) == Ok(us, b)
    decreases us
  {
    hide PrintUnit, ParseUnit, UnitOk;
    if us == [] {
      assert text[a] == text[a..b][0];
    } else {
      var m := Split(text, a, b, PrintUnit(us[0]), PrintTail(us[1..]));
      UnitExact(text, a, m, us[0]);
      TailExact(text, m, b, us[1..]);
      assert [us[0]] + us[1..] == us;
    }
  }

  lemma {:induction false} StringExact(text: string, a: nat, b: nat, us: seq<Unit>)
    requires Spans(text, a, b, PrintString(us)) && UnitsOk(us)
    ensures CharAt(text, a, '\"') && ParseString(text, a) == Ok(us, b)
  {
    SplitChar(text, a, b, '\"', PrintTail(us));
    TailExact(text, a + 1, b, us);
  }

  // ---------- Values ----------

  /** Where a value may stop: only a number needs a look at the next character. */
  predicate ValueEnds(text: string, e: nat, v: Value) { v.Num? ==> NumberEnds(text, e) }

  predicate ValueHead(c: char) {
    c == '{' || c == '[' || c == '\"' || c == '-' || c == 't' || c == 'f' || c == 'n' || IsDigit(c)
  }

  predicate Delimiter(c: char) { c == ']' || c == '}' || c == ',' || c == ':' }

  /** White space and then a delimiter: the position after a value inside a container. */
  lemma {:induction false} Delimited(text: string, b: nat, c: nat, e: nat, w: string, t: string)
    requires Spans(text, b, c, w) && AllSpace(w) && Spans(text, c, e, t)
    requires t != "" && Delimiter(t[0])
    ensures CharAt(text, c, t[0]) && SkipSpace(text, b) == c && NumberEnds(text, b)
  {
    assert text[c] == text[c..e][0];
    SkipSpaceExact(text, b, c, w);
    if b < c { assert text[b] == w[0]; }
  }

  /** White space and then a value or a key. */
  lemma {:induction false} Headed(text: string, b: nat, c: nat, w: string)
    requires Spans(text, b, c, w) && AllSpace(w) && c < |text| && ValueHead(text[c])
    ensures SkipSpace(text, b) == c && !CharAt(text, c, ']') && !CharAt(text, c, '}')
  {
    SkipSpaceExact(text, b, c, w);
  }

  /** Completeness: a printed tree is read back as itself. */
  lemma {:induction false} ValueExact(text: string, pos: nat, e: nat, v: Value)
    requires Spans(text, pos, e, Print(v)) && ValueOk(v) && ValueEnds(text, e, v)
    ensures pos < |text| && ValueHead(text[pos]) && ParseValue(text, pos) == Ok(v, e)
    decreases v, 0
  {
    hide Spans, ParseMembers, ParseElems, ParseNumber, ParseString, PrintElems, PrintMembers, PrintNumber, PrintString,
      SkipSpace, MembersOk, ElemsOk, UnitsOk, NumberOk;
    match v
    case Lit(w) => WordExact(text, pos, e, w);
    case Num(n) => NumberExact(text, pos, e, n);
    case Str(us) => StringExact(text, pos, e, us);
    case EmptyArr(ws) =>
      var b := SplitPrefixed(text, pos, e, '[', ws, "]");
      OneChar(text, b, e, ']');
      Delimited(text, pos + 1, b, e, ws, "]");
      Slice(text, pos + 1, b, ws);
    case EmptyObj(ws) =>
      var b := SplitPrefixed(text, pos, e, '{', ws, "}");
      OneChar(text, b, e, '}');
      Delimited(text, pos + 1, b, e, ws, "}");
      Slice(text, pos + 1, b, ws);
    case Arr(ws, es) =>
      var b := SplitPrefixed(text, pos, e, '[', ws, PrintElems(es));
      ElemsExact(text, b, e, es);
      Headed(text, pos + 1, b, ws); Slice(text, pos + 1, b, ws);
    case Obj(ws, ms) =>
      var b := SplitPrefixed(text, pos, e, '{', ws, PrintMembers(ms));
      MembersExact(text, b, e, ms);
      Headed(text, pos + 1, b, ws); Slice(text, pos + 1, b, ws);
  }

  lemma {:induction false} Slice(text: string, a: nat, b: nat, s: string)
    requires Spans(text, a, b, s)
    ensures a <= b <= |text| && text[a..b] == s
  {
  }

  lemma {:induction false} OneChar(text: string, a: nat, b: nat, c: char)
    requires Spans(text, a, b, [c])
    ensures CharAt(text, a, c) && b == a + 1
  {
    assert text[a] == text[a..b][0];
  }

  lemma {:induction false} WordHead(text: string, pos: nat, w: string)
    requires w != ""
    ensures WordAt(text, pos, w) ==> CharAt(text, pos, w[0])
  {
    if WordAt(text, pos, w) { assert text[pos] == text[pos..pos + |w|][0]; }
  }

  lemma {:induction false} WordExact(text: string, pos: nat, e: nat, w: string)
    requires Spans(text, pos, e, w) && WordOk(w)
    ensures pos < |text| && (text[pos] == 't' || text[pos] == 'f' || text[pos] == 'n')
            && ParseWord(text, pos) == Ok(w, e)
  {
    assert WordAt(text, pos, w);
    WordHead(text, pos, w);
    WordHead(text, pos, "true");
    WordHead(text, pos, "false");
  }

  // One unfolding of each list parser, so that the inductions below need not look inside.

  lemma {:induction false} ElemsLast(text: string, pos: nat, b: nat, c: nat, v: Value)
    requires pos <= |text| && ParseValue(text, pos) == Ok(v, b) && b <= c && SkipSpace(text, b) == c
             && CharAt(text, c, ']')
    ensures ParseElems(text, pos) == Ok(LastElem(v, text[b..c]), c + 1)
  {
    hide ParseValue, SkipSpace;
  }

  lemma {:induction false} ElemsMore(text: string, pos: nat, b: nat, c: nat, d: nat, e: nat, v: Value, rest: Elems)
    requires pos <= |text| && ParseValue(text, pos) == Ok(v, b) && b <= c && SkipSpace(text, b) == c
             && CharAt(text, c, ',')
    requires c + 1 <= d <= |text| && SkipSpace(text, c + 1) == d && ParseElems(text, d) == Ok(rest, e)
    ensures ParseElems(text, pos) == Ok(MoreElems(v, text[b..c], text[c + 1..d], rest), e)
  {
    hide ParseValue, SkipSpace;
  }

  lemma {:induction false} MembersLast(text: string, pos: nat, b: nat, c: nat, m: Member)
    requires pos <= |text| && ParseMember(text, pos) == Ok(m, b) && b <= c && SkipSpace(text, b) == c
             && CharAt(text, c, '}')
    ensures ParseMembers(text, pos) == Ok(LastMember(m, text[b..c]), c + 1)
  {
    hide ParseMember, SkipSpace;
  }

  lemma {:induction false} MembersMore(text: string, pos: nat, b: nat, c: nat, d: nat, e: nat, m: Member, rest: Members)
    requires pos <= |text| && ParseMember(text, pos) == Ok(m, b) && b <= c && SkipSpace(text, b) == c
             && CharAt(text, c, ',')
    requires c + 1 <= d <= |text| && SkipSpace(text, c + 1) == d && ParseMembers(text, d) == Ok(rest, e)
    ensures ParseMembers(text, pos) == Ok(MoreMembers(m, text[b..c], text[c + 1..d], rest), e)
  {
    hide ParseMember, SkipSpace;
  }

  lemma {:induction false} ElemsExact(text: string, pos: nat, e: nat, es: Elems)
    requires Spans(text, pos, e, PrintElems(es)) && ElemsOk(es)
    ensures pos < |text| && ValueHead(text[pos]) && ParseElems(text, pos) == Ok(es, e)
    decreases es, 1
  {
    hide Spans, ParseElems, ParseValue, Print, SkipSpace, ValueOk, ValueHead, NumberEnds, IsSpace, AllSpace;
    var t := if es.LastElem? then "]" else "," + (es.wsComma + PrintElems(es.rest));
    var b, c := SplitSpaced(text, pos, e, Print(es.value), es.ws, t);
    Delimited(text, b, c, e, es.ws, t);
    ValueExact(text, pos, b, es.value);
    Slice(text, b, c, es.ws);
    if es.LastElem? {
      OneChar(text, c, e, ']');
      ElemsLast(text, pos, b, c, es.value);
    } else {
      var d := SplitPrefixed(text, c, e, ',', es.wsComma, PrintElems(es.rest));
      ElemsExact(text, d, e, es.rest);
      Headed(text, c + 1, d, es.wsComma);
      Slice(text, c + 1, d, es.wsComma);
      ElemsMore(text, pos, b, c, d, e, es.value, es.rest);
    }
  }

  lemma {:induction false} MembersExact(text: string, pos: nat, e: nat, ms: Members)
    requires Spans(text, pos, e, PrintMembers(ms)) && MembersOk(ms)
    ensures pos < |text| && ValueHead(text[pos]) && ParseMembers(text, pos) == Ok(ms, e)
    decreases ms, 1
  {
    hide Spans, ParseMembers, ParseMember, PrintMember, SkipSpace, MemberOk, ValueHead, NumberEnds, IsSpace, AllSpace;
    var t := if ms.LastMember? then "}" else "," + (ms.wsComma + PrintMembers(ms.rest));
    var b, c := SplitSpaced(text, pos, e, PrintMember(ms.member), ms.ws, t);
    Delimited(text, b, c, e, ms.ws, t);
    MemberExact(text, pos, b, ms.member);
    Slice(text, b, c, ms.ws);
    if ms.LastMember? {
      OneChar(text, c, e, '}');
      MembersLast(text, pos, b, c, ms.member);
    } else {
      var d := SplitPrefixed(text, c, e, ',', ms.wsComma, PrintMembers(ms.rest));
      MembersExact(text, d, e, ms.rest);
      Headed(text, c + 1, d, ms.wsComma);
      Slice(text, c + 1, d, ms.wsComma);
      MembersMore(text, pos, b, c, d, e, ms.member, ms.rest);
    }
  }

  lemma {:induction false} MemberExact(text: string, pos: nat, e: nat, m: Member)
    requires Spans(text, pos, e, PrintMember(m)) && MemberOk(m) && NumberEnds(text, e)
    ensures pos < |text| && ValueHead(text[pos]) && ParseMember(text, pos) == Ok(m, e)
    decreases m, 1
  {
    hide Spans, ParseValue, Print, ParseString, PrintString, SkipSpace, ValueOk, UnitsOk;
    var t := ":" + (m.wsColon + Print(m.value));
    var b, c := SplitSpaced(text, pos, e, PrintString(m.key), m.wsKey, t);
    StringExact(text, pos, b, m.key);
    Delimited(text, b, c, e, m.wsKey, t);
    var d := SplitPrefixed(text, c, e, ':', m.wsColon, Print(m.value));
    ValueExact(text, d, e, m.value);
    Headed(text, c + 1, d, m.wsColon);
    Slice(text, b, c, m.wsKey); Slice(text, c + 1, d, m.wsColon);
  }

  // ---------- Documents ----------

  /** A whole text: one value with white space around it, section 2 of RFC 8259. */
  function ParseDocument(text: string): (r: Parsed<Value>) {
    var a := SkipSpace(text, 0);
    var (v, b) :- ParseValue(text, a);
    if SkipSpace(text, b) == |text| then Ok(v, b) else Fail
  }

  predicate Derives(text: string, before: string, v: Value, after: string) {
    AllSpace(before) && ValueOk(v) && AllSpace(after) && text == before + (Print(v) + after)
  }

  lemma {:induction false} DocumentSound(text: string)
    requires ParseDocument(text).Ok?
    ensures exists before, after :: Derives(text, before, ParseDocument(text).tree, after)
  {
    hide Print, ValueOk, ParseValue, SkipSpace;
    var a := SkipSpace(text, 0);
    var Ok(v, b) := ParseValue(text, a);
    ValueSound(text, a);
    assert text == text[0..a] + (text[a..b] + text[b..]);
    assert text[b..SkipSpace(text, b)] == text[b..];
    assert Derives(text, text[0..a], v, text[b..]);
  }

  lemma {:induction false} DocumentExact(text: string, before: string, v: Value, after: string)
    requires Derives(text, before, v, after)
    ensures ParseDocument(text).Ok? && ParseDocument(text).tree == v
    ensures |before| == SkipSpace(text, 0)
  {
    hide Print, ValueOk, ParseValue;
    assert Spans(text, 0, |text|, text);
    var a, b := SplitSpaced(text, 0, |text|, before, Print(v), after);
    assert NumberEnds(text, b) by { if b < |text| { assert text[b] == after[0]; } }
    ValueExact(text, a, b, v);
    SkipSpaceExact(text, 0, a, before);
    SkipSpaceExact(text, b, |text|, after);
  }

  /** The grammar is unambiguous: a text has at most one derivation, white space included. */
  lemma {:induction false} Unambiguous(text: string, b1: string, v1: Value, a1: string, b2: string, v2: Value,
                                       a2: string)
    requires Derives(text, b1, v1, a1) && Derives(text, b2, v2, a2)
    ensures v1 == v2 && b1 == b2 && a1 == a2
  {
    hide Print, ValueOk, AllSpace, ParseDocument, SkipSpace;
    DocumentExact(text, b1, v1, a1);
    DocumentExact(text, b2, v2, a2);
    assert b1 == text[..|b1|] && b2 == text[..|b2|];
    assert a1 == text[|text| - |a1|..] && a2 == text[|text| - |a2|..];
  }
}
