/** The JSON grammar of RFC 8259, sections 2 to 7, as concrete syntax trees, with a
    recursive-descent parser that is proved to be the exact inverse of printing.

    A tree keeps every character of the text it stands for, white space included, so
    "the text is in the grammar" means "some well-formed tree prints to it". */
module JsonGrammar {

  /** One unit of a string token, section 7. */
  datatype Unit = Plain(c: char) | Escape(e: char) | Hex(digits: string)

  datatype Exponent = NoExp | Exp(marker: char, sign: string, digits: string)

  /** A number token, section 6. An empty `frac` stands for no fraction part. */
  datatype Number = Number(neg: bool, whole: string, frac: string, exp: Exponent)

  datatype Value =
    | Lit(word: string)
    | Num(num: Number)
    | Str(units: seq<Unit>)
    | EmptyArr(ws: string)
    | Arr(ws: string, elems: Elems)
    | EmptyObj(ws: string)
    | Obj(ws: string, members: Members)

  /** A non-empty element list. White space is kept after each value and each comma. */
  datatype Elems =
    | LastElem(value: Value, ws: string)
    | MoreElems(value: Value, ws: string, wsComma: string, rest: Elems)

  datatype Member = Member(key: seq<Unit>, wsKey: string, wsColon: string, value: Value)

  datatype Members =
    | LastMember(member: Member, ws: string)
    | MoreMembers(member: Member, ws: string, wsComma: string, rest: Members)

  // ---------- Characters and tokens ----------

  predicate IsSpace(c: char) { c == ' ' || c == '\t' || c == '\r' || c == '\n' }

  predicate IsDigit(c: char) { '0' <= c <= '9' }

  predicate IsHexDigit(c: char) { IsDigit(c) || 'a' <= c <= 'f' || 'A' <= c <= 'F' }

  predicate IsEscape(c: char) { c in "\"\\/bfnrt" }

  predicate AllSpace(s: string) { forall i :: 0 <= i < |s| ==> IsSpace(s[i]) }

  predicate Digits(s: string) { s != "" && forall i :: 0 <= i < |s| ==> IsDigit(s[i]) }

  predicate UnitOk(u: Unit) {
    match u
    case Plain(c) => c >= ' ' && c != '\"' && c != '\\'
    case Escape(e) => IsEscape(e)
    case Hex(d) => |d| == 4 && forall i :: 0 <= i < 4 ==> IsHexDigit(d[i])
  }

  predicate UnitsOk(us: seq<Unit>) { forall u :: u in us ==> UnitOk(u) }

  predicate ExponentOk(x: Exponent) {
    x.Exp? ==> (x.marker == 'e' || x.marker == 'E') && x.sign in {"", "+", "-"} && Digits(x.digits)
  }

  predicate NumberOk(n: Number) {
    && Digits(n.whole) && (n.whole[0] == '0' ==> n.whole == "0")
    && (n.frac != "" ==> Digits(n.frac))
    && ExponentOk(n.exp)
  }

  predicate WordOk(w: string) { w == "true" || w == "false" || w == "null" }

  predicate ValueOk(v: Value) {
    match v
    case Lit(w) => WordOk(w)
    case Num(n) => NumberOk(n)
    case Str(us) => UnitsOk(us)
    case EmptyArr(ws) => AllSpace(ws)
    case Arr(ws, es) => AllSpace(ws) && ElemsOk(es)
    case EmptyObj(ws) => AllSpace(ws)
    case Obj(ws, ms) => AllSpace(ws) && MembersOk(ms)
  }

  predicate ElemsOk(es: Elems) {
    && ValueOk(es.value) && AllSpace(es.ws)
    && (es.MoreElems? ==> AllSpace(es.wsComma) && ElemsOk(es.rest))
  }

  predicate MemberOk(m: Member) {
    UnitsOk(m.key) && AllSpace(m.wsKey) && AllSpace(m.wsColon) && ValueOk(m.value)
  }

  predicate MembersOk(ms: Members) {
    && MemberOk(ms.member) && AllSpace(ms.ws)
    && (ms.MoreMembers? ==> AllSpace(ms.wsComma) && MembersOk(ms.rest))
  }

  // ---------- Printing ----------

  function PrintUnit(u: Unit): string {
    match u
    case Plain(c) => [c]
    case Escape(e) => ['\\', e]
    case Hex(d) => "\\u" + d
  }

  /** The units and the closing quotation mark. */
  function PrintTail(us: seq<Unit>): string {
    if us == [] then "\"" else PrintUnit(us[0]) + PrintTail(us[1..])
  }

  function PrintString(us: seq<Unit>): string { "\"" + PrintTail(us) }

  function PrintFrac(f: string): string { if f == "" then "" else "." + f }

  function PrintExp(x: Exponent): string {
    if x.NoExp? then "" else [x.marker] + (x.sign + x.digits)
  }

  function PrintSign(neg: bool): string { if neg then "-" else "" }

  function PrintNumber(n: Number): string {
    PrintSign(n.neg) + (n.whole + (PrintFrac(n.frac) + PrintExp(n.exp)))
  }

  function Print(v: Value): string {
    match v
    case Lit(w) => w
    case Num(n) => PrintNumber(n)
    case Str(us) => PrintString(us)
    case EmptyArr(ws) => "[" + (ws + "]")
    case Arr(ws, es) => "[" + (ws + PrintElems(es))
    case EmptyObj(ws) => "{" + (ws + "}")
    case Obj(ws, ms) => "{" + (ws + PrintMembers(ms))
  }

  /** The elements and the closing bracket. */
  function PrintElems(es: Elems): string {
    match es
    case LastElem(v, ws) => Print(v) + (ws + "]")
    case MoreElems(v, ws, wsComma, rest) => Print(v) + (ws + ("," + (wsComma + PrintElems(rest))))
  }

  function PrintMember(m: Member): string {
    PrintString(m.key) + (m.wsKey + (":" + (m.wsColon + Print(m.value))))
  }

  /** The members and the closing brace. */
  function PrintMembers(ms: Members): string {
    match ms
    case LastMember(m, ws) => PrintMember(m) + (ws + "}")
    case MoreMembers(m, ws, wsComma, rest) => PrintMember(m) + (ws + ("," + (wsComma + PrintMembers(rest))))
  }

  // ---------- Parsing ----------

  datatype Parsed<+T> = Fail | Ok(tree: T, end: nat) {
    predicate IsFailure() { Fail? }
    function PropagateFailure<U>(): Parsed<U> requires Fail? { Fail }
    function Extract(): (T, nat) requires Ok? { (tree, end) }
  }

  predicate CharAt(text: string, pos: nat, c: char) { pos < |text| && text[pos] == c }

  /** The position after the white space that starts at `pos`. */
  function SkipSpace(text: string, pos: nat): (end: nat)
    requires pos <= |text|
    ensures pos <= end <= |text|
    ensures AllSpace(text[pos..end])
    ensures end < |text| ==> !IsSpace(text[end])
    decreases |text| - pos
  {
    if pos < |text| && IsSpace(text[pos]) then
      var end := SkipSpace(text, pos + 1);
      assert text[pos..end] == [text[pos]] + text[pos + 1..end];
      end
    else pos
  }

  /** The position after the digits that start at `pos`. */
  function SkipDigits(text: string, pos: nat): (end: nat)
    requires pos <= |text|
    ensures pos <= end <= |text|
    ensures forall i :: pos <= i < end ==> IsDigit(text[i])
    ensures end < |text| ==> !IsDigit(text[end])
    decreases |text| - pos
  {
    if pos < |text| && IsDigit(text[pos]) then SkipDigits(text, pos + 1) else pos
  }

  /** One or more digits. */
  function ParseDigits(text: string, pos: nat): (r: Parsed<string>)
    requires pos <= |text|
    ensures r.Ok? ==> pos < r.end <= |text|
  {
    var end := SkipDigits(text, pos);
    if pos < end then Ok(text[pos..end], end) else Fail
  }

  function ParseWhole(text: string, pos: nat): (r: Parsed<string>)
    requires pos <= |text|
    ensures r.Ok? ==> pos < r.end <= |text|
  {
    if CharAt(text, pos, '0') then Ok("0", pos + 1) else ParseDigits(text, pos)
  }

  function ParseFrac(text: string, pos: nat): (r: Parsed<string>)
    requires pos <= |text|
    ensures r.Ok? ==> pos <= r.end <= |text|
  {
    if CharAt(text, pos, '.') then ParseDigits(text, pos + 1) else Ok("", pos)
  }

  predicate ExpAt(text: string, pos: nat) { CharAt(text, pos, 'e') || CharAt(text, pos, 'E') }

  predicate SignAt(text: string, pos: nat) { CharAt(text, pos, '+') || CharAt(text, pos, '-') }

  function ParseExp(text: string, pos: nat): (r: Parsed<Exponent>)
    requires pos <= |text|
    ensures r.Ok? ==> pos <= r.end <= |text|
  {
    if ExpAt(text, pos) then
      var sign := if SignAt(text, pos + 1) then [text[pos + 1]] else "";
      var (digits, end) :- ParseDigits(text, pos + 1 + |sign|);
      Ok(Exp(text[pos], sign, digits), end)
    else Ok(NoExp, pos)
  }

  function ParseNumber(text: string, pos: nat): (r: Parsed<Number>)
    requires pos <= |text|
    ensures r.Ok? ==> pos < r.end <= |text|
  {
    var neg := CharAt(text, pos, '-');
    var (whole, a) :- ParseWhole(text, if neg then pos + 1 else pos);
    var (frac, b) :- ParseFrac(text, a);
    var (exp, c) :- ParseExp(text, b);
    Ok(Number(neg, whole, frac, exp), c)
  }

  predicate HexAt(text: string, pos: nat) {
    pos + 4 <= |text| && forall i :: pos <= i < pos + 4 ==> IsHexDigit(text[i])
  }

  /** One string unit, which is neither the closing quotation mark nor a control character. */
  function ParseUnit(text: string, pos: nat): (r: Parsed<Unit>)
    requires pos < |text|
    ensures r.Ok? ==> pos < r.end <= |text|
  {
    if text[pos] == '\\' then
      if CharAt(text, pos + 1, 'u') then
        if HexAt(text, pos + 2) then Ok(Hex(text[pos + 2..pos + 6]), pos + 6) else Fail
      else if pos + 1 < |text| && IsEscape(text[pos + 1]) then Ok(Escape(text[pos + 1]), pos + 2)
      else Fail
    else if text[pos] < ' ' || text[pos] == '\"' then Fail
    else Ok(Plain(text[pos]), pos + 1)
  }

  /** The units up to and including the closing quotation mark. */
  function ParseTail(text: string, pos: nat): (r: Parsed<seq<Unit>>)
    requires pos <= |text|
    ensures r.Ok? ==> pos < r.end <= |text|
    decreases |text| - pos
  {
    if pos == |text| then Fail
    else if text[pos] == '\"' then Ok([], pos + 1)
    else
      var (u, a) :- ParseUnit(text, pos);
      var (us, b) :- ParseTail(text, a);
      Ok([u] + us, b)
  }

  function ParseString(text: string, pos: nat): (r: Parsed<seq<Unit>>)
    requires pos <= |text|
    ensures r.Ok? ==> pos < r.end <= |text|
  {
    if CharAt(text, pos, '\"') then ParseTail(text, pos + 1) else Fail
  }

  predicate WordAt(text: string, pos: nat, w: string) { pos + |w| <= |text| && text[pos..pos + |w|] == w }

  function ParseWord(text: string, pos: nat): (r: Parsed<string>)
    requires pos <= |text|
    ensures r.Ok? ==> pos < r.end <= |text|
  {
    if WordAt(text, pos, "true") then Ok("true", pos + 4)
    else if WordAt(text, pos, "false") then Ok("false", pos + 5)
    else if WordAt(text, pos, "null") then Ok("null", pos + 4)
    else Fail
  }

  function ParseValue(text: string, pos: nat): (r: Parsed<Value>)
    requires pos <= |text|
    ensures r.Ok? ==> pos < r.end <= |text|
    decreases |text| - pos, 0
  {
    if pos == |text| then Fail
    else if text[pos] == '{' then
      var a := SkipSpace(text, pos + 1);
      if CharAt(text, a, '}') then Ok(EmptyObj(text[pos + 1..a]), a + 1)
      else
        var (ms, b) :- ParseMembers(text, a);
        Ok(Obj(text[pos + 1..a], ms), b)
    else if text[pos] == '[' then
      var a := SkipSpace(text, pos + 1);
      if CharAt(text, a, ']') then Ok(EmptyArr(text[pos + 1..a]), a + 1)
      else
        var (es, b) :- ParseElems(text, a);
        Ok(Arr(text[pos + 1..a], es), b)
    else if text[pos] == '\"' then
      var (us, a) :- ParseString(text, pos);
      Ok(Str(us), a)
    else if text[pos] == '-' || IsDigit(text[pos]) then
      var (n, a) :- ParseNumber(text, pos);
      Ok(Num(n), a)
    else
      var (w, a) :- ParseWord(text, pos);
      Ok(Lit(w), a)
  }

  /** The elements up to and including the closing bracket. */
  function ParseElems(text: string, pos: nat): (r: Parsed<Elems>)
    requires pos <= |text|
    ensures r.Ok? ==> pos < r.end <= |text|
    decreases |text| - pos, 1
  {
    var (v, a) :- ParseValue(text, pos);
    var b := SkipSpace(text, a);
    if CharAt(text, b, ']') then Ok(LastElem(v, text[a..b]), b + 1)
    else if CharAt(text, b, ',') then
      var c := SkipSpace(text, b + 1);
      var (rest, d) :- ParseElems(text, c);
      Ok(MoreElems(v, text[a..b], text[b + 1..c], rest), d)
    else Fail
  }

  function ParseMember(text: string, pos: nat): (r: Parsed<Member>)
    requires pos <= |text|
    ensures r.Ok? ==> pos < r.end <= |text|
    decreases |text| - pos, 1
  {
    var (key, a) :- ParseString(text, pos);
    var b := SkipSpace(text, a);
    if !CharAt(text, b, ':') then Fail
    else
      var c := SkipSpace(text, b + 1);
      var (v, d) :- ParseValue(text, c);
      Ok(Member(key, text[a..b], text[b + 1..c], v), d)
  }

  /** The members up to and including the closing brace. */
  function ParseMembers(text: string, pos: nat): (r: Parsed<Members>)
    requires pos <= |text|
    ensures r.Ok? ==> pos < r.end <= |text|
    decreases |text| - pos, 2
  {
    var (m, a) :- ParseMember(text, pos);
    var b := SkipSpace(text, a);
    if CharAt(text, b, '}') then Ok(LastMember(m, text[a..b]), b + 1)
    else if CharAt(text, b, ',') then
      var c := SkipSpace(text, b + 1);
      var (rest, d) :- ParseMembers(text, c);
      Ok(MoreMembers(m, text[a..b], text[b + 1..c], rest), d)
    else Fail
  }

  // ---------- A string fills a stretch of the text ----------

  predicate Spans(text: string, a: nat, b: nat, s: string) { a <= b <= |text| && text[a..b] == s }

  lemma {:induction false} Join(text: string, a: nat, b: nat, c: nat, s: string, t: string)
    requires Spans(text, a, b, s) && Spans(text, b, c, t)
    ensures Spans(text, a, c, s + t)
  {
    assert text[a..c] == text[a..b] + text[b..c];
  }

  lemma {:induction false} Single(text: string, a: nat, c: char)
    requires CharAt(text, a, c)
    ensures Spans(text, a, a + 1, [c])
  {
    assert text[a..a + 1] == [text[a]];
  }

  /** `c` followed by white space followed by `s`. */
  lemma {:induction false} Prefixed(text: string, a: nat, b: nat, e: nat, c: char, s: string)
    requires CharAt(text, a, c) && a + 1 <= b && Spans(text, b, e, s)
    ensures Spans(text, a, e, [c] + (text[a + 1..b] + s))
  {
    Single(text, a, c);
    Join(text, a + 1, b, e, text[a + 1..b], s);
    Join(text, a, a + 1, e, [c], text[a + 1..b] + s);
  }

  /** `s` followed by white space followed by `t`. */
  lemma {:induction false} Spaced(text: string, a: nat, b: nat, c: nat, e: nat, s: string, t: string)
    requires Spans(text, a, b, s) && b <= c && Spans(text, c, e, t)
    ensures Spans(text, a, e, s + (text[b..c] + t))
  {
    Join(text, b, c, e, text[b..c], t);
    Join(text, a, b, e, s, text[b..c] + t);
  }

  // ---------- Every parsed tree is well formed and prints to the text it was read from ----------

  lemma {:induction false} ExpSound(text: string, pos: nat)
    requires pos <= |text| && ParseExp(text, pos).Ok?
    ensures var r := ParseExp(text, pos); ExponentOk(r.tree) && Spans(text, pos, r.end, PrintExp(r.tree))
  {
    if ExpAt(text, pos) {
      var x := ParseExp(text, pos).tree;
      Single(text, pos, x.marker);
      var p := pos + 1 + |x.sign|;
      assert Spans(text, pos + 1, p, x.sign);
      Join(text, pos + 1, p, ParseExp(text, pos).end, x.sign, x.digits);
      Join(text, pos, pos + 1, ParseExp(text, pos).end, [x.marker], x.sign + x.digits);
    }
  }

  lemma {:induction false} FracSound(text: string, pos: nat)
    requires pos <= |text| && ParseFrac(text, pos).Ok?
    ensures var r := ParseFrac(text, pos);
            (r.tree != "" ==> Digits(r.tree)) && Spans(text, pos, r.end, PrintFrac(r.tree))
  {
    if CharAt(text, pos, '.') {
      Single(text, pos, '.');
      Join(text, pos, pos + 1, ParseFrac(text, pos).end, ".", ParseFrac(text, pos).tree);
    }
  }

  lemma {:induction false} WholeSound(text: string, pos: nat)
    requires pos <= |text| && ParseWhole(text, pos).Ok?
    ensures var r := ParseWhole(text, pos);
            Digits(r.tree) && (r.tree[0] == '0' ==> r.tree == "0") && Spans(text, pos, r.end, r.tree)
  {
    if CharAt(text, pos, '0') { Single(text, pos, '0'); }
  }

  lemma {:induction false} NumberSound(text: string, pos: nat)
    requires pos <= |text| && ParseNumber(text, pos).Ok?
    ensures var r := ParseNumber(text, pos); NumberOk(r.tree) && Spans(text, pos, r.end, PrintNumber(r.tree))
  {
    hide Spans, Digits, ParseWhole, ParseFrac, ParseExp, PrintFrac, PrintExp;
    var neg := CharAt(text, pos, '-');
    var p := if neg then pos + 1 else pos;
    assert Spans(text, pos, p, PrintSign(neg)) by { SignSound(text, pos); }
    var whole := ParseWhole(text, p);
    var frac := ParseFrac(text, whole.end);
    var exp := ParseExp(text, frac.end);
    WholeSound(text, p);
    FracSound(text, whole.end);
    ExpSound(text, frac.end);
    Join(text, whole.end, frac.end, exp.end, PrintFrac(frac.tree), PrintExp(exp.tree));
    Join(text, p, whole.end, exp.end, whole.tree, PrintFrac(frac.tree) + PrintExp(exp.tree));
    Join(text, pos, p, exp.end, PrintSign(neg), whole.tree + (PrintFrac(frac.tree) + PrintExp(exp.tree)));
  }

  lemma {:induction false} SignSound(text: string, pos: nat)
    requires pos <= |text|
    ensures var neg := CharAt(text, pos, '-'); Spans(text, pos, if neg then pos + 1 else pos, PrintSign(neg))
  {
    if CharAt(text, pos, '-') { Single(text, pos, '-'); }
  }

  lemma {:induction false} UnitSound(text: string, pos: nat)
    requires pos < |text| && ParseUnit(text, pos).Ok?
    ensures var r := ParseUnit(text, pos); UnitOk(r.tree) && Spans(text, pos, r.end, PrintUnit(r.tree))
  {
    var u := ParseUnit(text, pos).tree;
    if u.Hex? {
      assert text[pos..pos + 2] == "\\u";
      Join(text, pos, pos + 2, pos + 6, "\\u", u.digits);
    }
  }

  lemma {:induction false} TailSound(text: string, pos: nat)
    requires pos <= |text| && ParseTail(text, pos).Ok?
    ensures var r := ParseTail(text, pos); UnitsOk(r.tree) && Spans(text, pos, r.end, PrintTail(r.tree))
    decreases |text| - pos
  {
    hide Spans;
    var us := ParseTail(text, pos).tree;
    if text[pos] == '\"' {
      Single(text, pos, '\"');
    } else {
      var a := ParseUnit(text, pos).end;
      UnitSound(text, pos);
      TailSound(text, a);
      assert us[1..] == ParseTail(text, a).tree;
      Join(text, pos, a, ParseTail(text, pos).end, PrintUnit(us[0]), PrintTail(us[1..]));
    }
  }

  lemma {:induction false} StringSound(text: string, pos: nat)
    requires pos <= |text| && ParseString(text, pos).Ok?
    ensures var r := ParseString(text, pos); UnitsOk(r.tree) && Spans(text, pos, r.end, PrintString(r.tree))
  {
    Single(text, pos, '\"');
    TailSound(text, pos + 1);
    Join(text, pos, pos + 1, ParseString(text, pos).end, "\"", PrintTail(ParseString(text, pos).tree));
  }

  lemma {:induction false} WordSound(text: string, pos: nat)
    requires pos <= |text| && ParseWord(text, pos).Ok?
    ensures var r := ParseWord(text, pos); WordOk(r.tree) && Spans(text, pos, r.end, r.tree)
  {
  }

  /** Soundness of the parser: what it accepts is a sentence of the grammar, and its tree prints
      to exactly the characters consumed. */
  lemma {:induction false} ValueSound(text: string, pos: nat)
    requires pos <= |text| && ParseValue(text, pos).Ok?
    ensures var r := ParseValue(text, pos); ValueOk(r.tree) && Spans(text, pos, r.end, Print(r.tree))
    decreases |text| - pos, 0
  {
    hide Spans, ParseElems, ParseMembers, ParseNumber, ParseString, ParseWord, PrintElems, PrintMembers, PrintNumber,
      PrintString, ElemsOk, MembersOk, NumberOk, UnitsOk, WordOk;
    var Ok(v, end) := ParseValue(text, pos);
    match v
    case Lit(_) => WordSound(text, pos);
    case Num(_) => NumberSound(text, pos);
    case Str(_) => StringSound(text, pos);
    case EmptyArr(ws) => Single(text, end - 1, ']'); Prefixed(text, pos, end - 1, end, '[', "]");
    case EmptyObj(ws) => Single(text, end - 1, '}'); Prefixed(text, pos, end - 1, end, '{', "}");
    case Arr(ws, es) =>
      var a := SkipSpace(text, pos + 1);
      ElemsSound(text, a); Prefixed(text, pos, a, end, '[', PrintElems(es));
    case Obj(ws, ms) =>
      var a := SkipSpace(text, pos + 1);
      MembersSound(text, a); Prefixed(text, pos, a, end, '{', PrintMembers(ms));
  }

  lemma {:induction false} ElemsSound(text: string, pos: nat)
    requires pos <= |text| && ParseElems(text, pos).Ok?
    ensures var r := ParseElems(text, pos); ElemsOk(r.tree) && Spans(text, pos, r.end, PrintElems(r.tree))
    decreases |text| - pos, 1
  {
    hide Spans, Print, ValueOk, ParseValue, SkipSpace;
    ValueSound(text, pos);
    var Ok(es, end) := ParseElems(text, pos);
    var a := ParseValue(text, pos).end;
    var b := SkipSpace(text, a);
    if es.LastElem? {
      Single(text, b, ']');
      Spaced(text, pos, a, b, end, Print(es.value), "]");
    } else {
      var c := SkipSpace(text, b + 1);
      ElemsSound(text, c);
      Prefixed(text, b, c, end, ',', PrintElems(es.rest));
      Spaced(text, pos, a, b, end, Print(es.value), "," + (es.wsComma + PrintElems(es.rest)));
    }
  }

  lemma {:induction false} MembersSound(text: string, pos: nat)
    requires pos <= |text| && ParseMembers(text, pos).Ok?
    ensures var r := ParseMembers(text, pos); MembersOk(r.tree) && Spans(text, pos, r.end, PrintMembers(r.tree))
    decreases |text| - pos, 2
  {
    hide Spans, PrintMember, MemberOk, ParseMember;
    MemberSound(text, pos);
    var Ok(ms, end) := ParseMembers(text, pos);
    var a := ParseMember(text, pos).end;
    var b := SkipSpace(text, a);
    if ms.LastMember? {
      Single(text, b, '}');
      Spaced(text, pos, a, b, end, PrintMember(ms.member), "}");
    } else {
      var c := SkipSpace(text, b + 1);
      MembersSound(text, c);
      Prefixed(text, b, c, end, ',', PrintMembers(ms.rest));
      Spaced(text, pos, a, b, end, PrintMember(ms.member), "," + (ms.wsComma + PrintMembers(ms.rest)));
    }
  }

  lemma {:induction false} MemberSound(text: string, pos: nat)
    requires pos <= |text| && ParseMember(text, pos).Ok?
    ensures var r := ParseMember(text, pos); MemberOk(r.tree) && Spans(text, pos, r.end, PrintMember(r.tree))
    decreases |text| - pos, 1
  {
    hide Spans, Print, PrintString, ValueOk, UnitsOk, ParseValue;
    var Ok(m, d) := ParseMember(text, pos);
    StringSound(text, pos);
    var a := ParseString(text, pos).end;
    var b := SkipSpace(text, a);
    var c := SkipSpace(text, b + 1);
    ValueSound(text, c);
    Prefixed(text, b, c, d, ':', Print(m.value));
    Spaced(text, pos, a, b, d, PrintString(m.key), ":" + (m.wsColon + Print(m.value)));
  }
}
