/** The bounded JSON scanner of scripts/affiliate_cta_preconnection_synthetic_envelope.py.
    `ScanJsonBounds` is the scanner itself, with its position and node counter as mutable state;
    it is proved to accept exactly the RFC 8259 texts that stay within the limits. A Python
    exception inside the scanner is the result `ok == false`. */
module JsonScanner {
  import opened JsonGrammar
  import opened JsonInverse

  const MAX_URL_UTF8_BYTES := 8_192
  const MAX_JSON_DEPTH := 32
  const MAX_JSON_NODES := 4_096
  const MAX_STRING_TOKEN_BYTES := 65_536
  const MAX_NUMBER_TOKEN_CHARS := 64

  // ---------- Bytes and decoded strings ----------

  /** UTF-8 length of one code point, section 3 of RFC 3629. */
  function Utf8Length(code: nat): nat {
    if code < 0x80 then 1 else if code < 0x800 then 2 else if code < 0x1_0000 then 3 else 4
  }

  function Utf8Bytes(codes: seq<nat>): nat {
    if codes == [] then 0 else Utf8Length(codes[0]) + Utf8Bytes(codes[1..])
  }

  function UnitBytes(u: Unit): nat {
    match u
    case Plain(c) => Utf8Length(c as int)
    case Escape(_) => 2
    case Hex(_) => 6
  }

  function RawBytes(us: seq<Unit>): nat {
    if us == [] then 0 else UnitBytes(us[0]) + RawBytes(us[1..])
  }

  function EscapeCode(e: char): nat {
    if e == 'b' then 8 else if e == 'f' then 12 else if e == 'n' then 10 else if e == 'r' then 13
    else if e == 't' then 9 else e as int
  }

  function HexDigit(c: char): nat
    requires IsHexDigit(c)
  {
    if IsDigit(c) then (c - '0') as int
    else if c <= 'F' then (c - 'A') as int + 10 else (c - 'a') as int + 10
  }

  function UnitCode(u: Unit): nat
    requires UnitOk(u)
  {
    match u
    case Plain(c) => c as int
    case Escape(e) => EscapeCode(e)
    case Hex(d) => ((HexDigit(d[0]) * 16 + HexDigit(d[1])) * 16 + HexDigit(d[2])) * 16 + HexDigit(d[3])
  }

  predicate HighSurrogate(u: Unit) requires UnitOk(u) { u.Hex? && 0xD800 <= UnitCode(u) < 0xDC00 }

  predicate LowSurrogate(u: Unit) requires UnitOk(u) { u.Hex? && 0xDC00 <= UnitCode(u) < 0xE000 }

  /** The code points a string token stands for. Two escapes that form a surrogate pair become one
      code point; a surrogate escape that has no partner stays as it is. */
  function Decode(us: seq<Unit>): seq<nat>
    requires UnitsOk(us)
  {
    if us == [] then []
    else if |us| > 1 && HighSurrogate(us[0]) && LowSurrogate(us[1]) then
      [0x1_0000 + (UnitCode(us[0]) - 0xD800) * 0x400 + (UnitCode(us[1]) - 0xDC00)] + Decode(us[2..])
    else [UnitCode(us[0])] + Decode(us[1..])
  }

  predicate Encodable(codes: seq<nat>) {
    forall i :: 0 <= i < |codes| ==> !(0xD800 <= codes[i] < 0xE000)
  }

  function Codes(s: string): seq<nat> { seq(|s|, i requires 0 <= i < |s| => s[i] as int) }

  predicate IsUrlKey(key: seq<Unit>) requires UnitsOk(key) { Decode(key) == Codes("affiliateURL") }

  // ---------- The limits, as properties of a tree ----------

  function Max(a: nat, b: nat): nat { if a < b then b else a }

  function Depth(v: Value): (d: nat)
    ensures d > 0
  {
    match v
    case Arr(_, es) => 1 + ElemsDepth(es)
    case Obj(_, ms) => 1 + MembersDepth(ms)
    case _ => 1
  }

  function ElemsDepth(es: Elems): nat {
    if es.LastElem? then Depth(es.value) else Max(Depth(es.value), ElemsDepth(es.rest))
  }

  function MembersDepth(ms: Members): nat {
    if ms.LastMember? then Depth(ms.member.value) else Max(Depth(ms.member.value), MembersDepth(ms.rest))
  }

  /** The number of values in a tree; keys are not values. */
  function Nodes(v: Value): (n: nat)
    ensures n > 0
  {
    match v
    case Arr(_, es) => 1 + ElemsNodes(es)
    case Obj(_, ms) => 1 + MembersNodes(ms)
    case _ => 1
  }

  function ElemsNodes(es: Elems): nat {
    Nodes(es.value) + if es.LastElem? then 0 else ElemsNodes(es.rest)
  }

  function MembersNodes(ms: Members): nat {
    Nodes(ms.member.value) + if ms.LastMember? then 0 else MembersNodes(ms.rest)
  }

  predicate StringFits(us: seq<Unit>) { 2 + RawBytes(us) <= MAX_STRING_TOKEN_BYTES }

  predicate UrlFits(us: seq<Unit>)
    requires UnitsOk(us)
  {
    Encodable(Decode(us)) && Utf8Bytes(Decode(us)) <= MAX_URL_UTF8_BYTES
  }

  /** Every token is short enough; `url` says that the value stands directly under an affiliateURL key. */
  predicate TokensFit(v: Value, url: bool)
    requires ValueOk(v)
  {
    match v
    case Num(n) => |PrintNumber(n)| <= MAX_NUMBER_TOKEN_CHARS
    case Str(us) => StringFits(us) && (url ==> UrlFits(us))
    case Arr(_, es) => ElemsFit(es)
    case Obj(_, ms) => MembersFit(ms)
    case _ => true
  }

  predicate ElemsFit(es: Elems)
    requires ElemsOk(es)
  {
    TokensFit(es.value, false) && (es.MoreElems? ==> ElemsFit(es.rest))
  }

  predicate MemberFits(m: Member)
    requires MemberOk(m)
  {
    StringFits(m.key) && TokensFit(m.value, IsUrlKey(m.key))
  }

  predicate MembersFit(ms: Members)
    requires MembersOk(ms)
  {
    MemberFits(ms.member) && (ms.MoreMembers? ==> MembersFit(ms.rest))
  }

  predicate WithinLimits(v: Value)
    requires ValueOk(v)
  {
    Depth(v) <= MAX_JSON_DEPTH && Nodes(v) <= MAX_JSON_NODES && TokensFit(v, false)
  }

  // ---------- What one scanner procedure should do from a state ----------

  datatype Outcome = Reject | Accept(position: nat, nodes: nat)

  /** Reading one value at nesting `depth` when `nodes` values have been counted before it. */
  ghost function ValueOutcome(text: string, pos: nat, depth: nat, url: bool, nodes: nat): Outcome
    requires pos <= |text|
  {
    match ParseValue(text, pos)
    case Fail => Reject
    case Ok(v, e) =>
      ValueSound(text, pos);
      if depth + Depth(v) <= MAX_JSON_DEPTH + 1 && nodes + Nodes(v) <= MAX_JSON_NODES && TokensFit(v, url)
      then Accept(e, nodes + Nodes(v)) else Reject
  }

  ghost function ElemsOutcome(text: string, pos: nat, depth: nat, nodes: nat): Outcome
    requires pos <= |text|
  {
    match ParseElems(text, pos)
    case Fail => Reject
    case Ok(es, e) =>
      ElemsSound(text, pos);
      if depth + ElemsDepth(es) <= MAX_JSON_DEPTH + 1 && nodes + ElemsNodes(es) <= MAX_JSON_NODES && ElemsFit(es)
      then Accept(e, nodes + ElemsNodes(es)) else Reject
  }

  ghost function MembersOutcome(text: string, pos: nat, depth: nat, nodes: nat): Outcome
    requires pos <= |text|
  {
    match ParseMembers(text, pos)
    case Fail => Reject
    case Ok(ms, e) =>
      MembersSound(text, pos);
      if depth + MembersDepth(ms) <= MAX_JSON_DEPTH + 1 && nodes + MembersNodes(ms) <= MAX_JSON_NODES && MembersFit(ms)
      then Accept(e, nodes + MembersNodes(ms)) else Reject
  }

  class Scanner {
    const text: string
    var position: nat
    var nodes: nat

    constructor (text: string)
      ensures this.text == text && position == 0 && nodes == 0
    {
      this.text := text;
      position, nodes := 0, 0;
    }

    ghost predicate Valid() reads this { position <= |text| && nodes <= MAX_JSON_NODES }

    /** The state after a procedure that returned `ok`, seen as an outcome. */
    ghost function Result(ok: bool): Outcome reads this { if ok then Accept(position, nodes) else Reject }

    method Whitespace()
      requires Valid()
      modifies this`position
      ensures old(position) <= position <= |text|
      ensures Valid() && position == SkipSpace(text, old(position))
    {
      while position < |text| && IsSpace(text[position])
        invariant old(position) <= position
        invariant Valid() && SkipSpace(text, position) == SkipSpace(text, old(position))
        decreases |text| - position
      {
        position := position + 1;
      }
    }

    method SkipDigitRun()
      requires Valid()
      modifies this`position
      ensures old(position) <= position <= |text|
      ensures Valid() && position == SkipDigits(text, old(position))
    {
      while position < |text| && IsDigit(text[position])
        invariant old(position) <= position
        invariant Valid() && SkipDigits(text, position) == SkipDigits(text, old(position))
        decreases |text| - position
      {
        position := position + 1;
      }
    }

    /** One unit of a string token: the body of the loop of `String`. */
    method Unit(rawBytes: nat) returns (ok: bool, total: nat)
      requires Valid() && position < |text| && text[position] != '\"'
      modifies this`position
      ensures old(position) <= position <= |text|
      ensures ok <==> ParseUnit(text, old(position)).Ok?
      ensures ok ==>
                position == ParseUnit(text, old(position)).end
                && total == rawBytes + UnitBytes(ParseUnit(text, old(position)).tree)
    {
      ok, total := false, rawBytes;
      var c := text[position];
      if c == '\\' {
        total := total + 1;
        position := position + 1;
        if position >= |text| { return; }
        var escape := text[position];
        if escape == 'u' {
          if !HexAt(text, position + 1) { return; }
          position := position + 4;
          total := total + 5;
        } else if !IsEscape(escape) {
          return;
        } else {
          total := total + 1;
        }
      } else if c < ' ' {
        return;
      } else {
        total := total + Utf8Length(c as int);
      }
      position := position + 1;
      ok := true;
    }

    /** One string token; `decoded` is the string that json.loads makes of the token. */
    method String(url: bool) returns (ok: bool, decoded: seq<nat>)
      requires Valid()
      modifies this`position
      ensures old(position) <= position <= |text|
      ensures ok ==> ParseString(text, old(position)).Ok? && position == ParseString(text, old(position)).end
      ensures ParseString(text, old(position)).Ok? ==>
                var us := ParseString(text, old(position)).tree;
                UnitsOk(us) && (ok <==> StringFits(us) && (url ==> UrlFits(us))) && (ok ==> decoded == Decode(us))
    {
      hide Progress, ParseString, ParseTail, ParseUnit, UnitBytes, Encodable, Utf8Bytes, Decode, UnitsOk, UrlFits,
           StringFits;
      ok, decoded := false, [];
      StringStart(text, position);
      if position >= |text| || text[position] != '\"' { return; }
      var start := position;
      var rawBytes: nat := 1;
      position := position + 1;
      while position < |text|
        invariant start < position <= |text| && rawBytes <= MAX_STRING_TOKEN_BYTES
        invariant Progress(text, start, position, rawBytes)
        decreases |text| - position
      {
        if text[position] == '\"' {
          StringDone(text, start, position, rawBytes, url);
          position := position + 1;
          rawBytes := rawBytes + 1;
          if rawBytes > MAX_STRING_TOKEN_BYTES { return; }
          decoded := Decode(ParseString(text[start..position], 0).tree);
          ok := !url || (Encodable(decoded) && Utf8Bytes(decoded) <= MAX_URL_UTF8_BYTES);
          return;
        }
        StringStep(text, start, position, rawBytes);
        var unitOk;
        unitOk, rawBytes := Unit(rawBytes);
        if !unitOk || rawBytes > MAX_STRING_TOKEN_BYTES { return; }
      }
      StringOpen(text, start, position, rawBytes);
    }

    /** The fraction part of a number token. */
    method Fraction() returns (ok: bool)
      requires Valid()
      modifies this`position
      ensures old(position) <= position <= |text|
      ensures ok <==> ParseFrac(text, old(position)).Ok?
      ensures ok ==> position == ParseFrac(text, old(position)).end
    {
      if CharAt(text, position, '.') {
        position := position + 1;
        if position >= |text| || !IsDigit(text[position]) { return false; }
        SkipDigitRun();
      }
      ok := true;
    }

    /** The exponent part of a number token. */
    method Exponent() returns (ok: bool)
      requires Valid()
      modifies this`position
      ensures old(position) <= position <= |text|
      ensures ok <==> ParseExp(text, old(position)).Ok?
      ensures ok ==> position == ParseExp(text, old(position)).end
    {
      if ExpAt(text, position) {
        position := position + 1;
        if SignAt(text, position) { position := position + 1; }
        if position >= |text| || !IsDigit(text[position]) { return false; }
        SkipDigitRun();
      }
      ok := true;
    }

    /** A number token. */
    method Number() returns (ok: bool)
      requires Valid() && position < |text|
      modifies this`position
      ensures old(position) <= position <= |text|
      ensures ok <==> NumberAccepted(text, old(position))
      ensures ok ==> position == ParseNumber(text, old(position)).end
    {
      hide NumberAccepted, ParseNumber, ParseFrac, ParseExp;
      var start := position;
      NumberParts(text, start);
      if text[position] == '-' { position := position + 1; }
      if position >= |text| { return false; }
      if text[position] == '0' {
        position := position + 1;
      } else if '1' <= text[position] <= '9' {
        SkipDigitRun();
      } else {
        return false;
      }
      ok := Fraction();
      if !ok { return; }
      ok := Exponent();
      ok := ok && position - start <= MAX_NUMBER_TOKEN_CHARS;
    }

    /** One of the three literal names. */
    method Literal() returns (ok: bool)
      requires Valid()
      modifies this`position
      ensures old(position) <= position <= |text|
      ensures ok <==> ParseWord(text, old(position)).Ok?
      ensures ok ==> position == ParseWord(text, old(position)).end
    {
      ok := true;
      if WordAt(text, position, "true") { position := position + 4; }
      else if WordAt(text, position, "false") { position := position + 5; }
      else if WordAt(text, position, "null") { position := position + 4; }
      else { ok := false; }
    }

    /** One value at nesting `depth`; `url` says that its key was affiliateURL. */
    method Value(depth: nat, url: bool) returns (ok: bool)
      requires Valid()
      modifies this
      ensures old(position) <= position <= |text|
      ensures Result(ok) == ValueOutcome(text, old(position), depth, url, old(nodes))
      ensures ok ==> Valid() && old(position) < position
      decreases |text| - position, 1
    {
      hide ValueOutcome;
      ValueStep(text, position, depth, url, nodes);
      nodes := nodes + 1;
      if depth > MAX_JSON_DEPTH || nodes > MAX_JSON_NODES || position >= |text| { return false; }
      var c := text[position];
      if c == '{' {
        ok := Object(depth, url);
      } else if c == '[' {
        ok := Array(depth, url);
      } else if c == '\"' {
        var decoded;
        ok, decoded := String(url);
      } else if c == '-' || IsDigit(c) {
        ok := Number();
      } else {
        ok := Literal();
      }
    }

    method Array(depth: nat, ghost url: bool) returns (ok: bool)
      requires Valid() && 0 < nodes && depth <= MAX_JSON_DEPTH && CharAt(text, position, '[')
      modifies this
      ensures old(position) <= position <= |text|
      ensures Result(ok) == ValueOutcome(text, old(position), depth, url, old(nodes) - 1)
      ensures ok ==> Valid() && old(position) < position
      decreases |text| - position, 0
    {
      hide ValueOutcome, ElemsOutcome, SkipSpace;
      ghost var goal := ValueOutcome(text, position, depth, url, nodes - 1);
      ArrayStep(text, position, depth, url, nodes - 1);
      position := position + 1;
      Whitespace();
      if CharAt(text, position, ']') {
        position := position + 1;
        return true;
      }
      while true
        invariant Valid() && old(position) < position
        invariant goal == ElemsOutcome(text, position, depth + 1, nodes)
        decreases |text| - position
      {
        ElemsStep(text, position, depth + 1, nodes);
        ok := Value(depth + 1, false);
        if !ok { return; }
        Whitespace();
        if CharAt(text, position, ']') {
          position := position + 1;
          return true;
        }
        if !CharAt(text, position, ',') { return false; }
        position := position + 1;
        Whitespace();
      }
    }

    /** Key, colon and value of one member. */
    method Member(depth: nat) returns (ok: bool)
      requires Valid()
      modifies this
      ensures old(position) <= position <= |text|
      ensures Result(ok) == MemberOutcome(text, old(position), depth, old(nodes))
      ensures ok ==> Valid() && old(position) < position
      decreases |text| - position, 2
    {
      hide ValueOutcome, ParseString, UnitsOk, StringFits, UrlFits, Decode, SkipSpace;
      var key;
      ok, key := String(false);
      if !ok { return; }
      Whitespace();
      if !CharAt(text, position, ':') { return false; }
      position := position + 1;
      Whitespace();
      ok := Value(depth, key == Codes("affiliateURL"));
    }

    method Object(depth: nat, ghost url: bool) returns (ok: bool)
      requires Valid() && 0 < nodes && depth <= MAX_JSON_DEPTH && CharAt(text, position, '{')
      modifies this
      ensures old(position) <= position <= |text|
      ensures Result(ok) == ValueOutcome(text, old(position), depth, url, old(nodes) - 1)
      ensures ok ==> Valid() && old(position) < position
      decreases |text| - position, 0
    {
      hide ValueOutcome, MembersOutcome, MemberOutcome, SkipSpace;
      ghost var goal := ValueOutcome(text, position, depth, url, nodes - 1);
      ObjectStep(text, position, depth, url, nodes - 1);
      position := position + 1;
      Whitespace();
      if CharAt(text, position, '}') {
        position := position + 1;
        return true;
      }
      while true
        invariant Valid() && old(position) < position
        invariant goal == MembersOutcome(text, position, depth + 1, nodes)
        decreases |text| - position
      {
        MembersStep(text, position, depth + 1, nodes);
        ok := Member(depth + 1);
        if !ok { return; }
        Whitespace();
        if CharAt(text, position, '}') {
          position := position + 1;
          return true;
        }
        if !CharAt(text, position, ',') { return false; }
        position := position + 1;
        Whitespace();
      }
    }
  }

  // ---------- Numbers ----------

  ghost predicate NumberAccepted(text: string, pos: nat)
    requires pos <= |text|
  {
    ParseNumber(text, pos).Ok? && |PrintNumber(ParseNumber(text, pos).tree)| <= MAX_NUMBER_TOKEN_CHARS
  }

  /** How the parts of a number token follow one another, and that its length is what the scanner counts. */
  lemma {:induction false} NumberParts(text: string, pos: nat)
    requires pos < |text|
    ensures NumberAccepted(text, pos) <==>
              var a := if text[pos] == '-' then pos + 1 else pos;
              var whole := ParseWhole(text, a);
              whole.Ok? &&
              var frac := ParseFrac(text, whole.end);
              frac.Ok? &&
              var exp := ParseExp(text, frac.end);
              exp.Ok? && exp.end - pos <= MAX_NUMBER_TOKEN_CHARS
    ensures NumberAccepted(text, pos) ==>
              var whole := ParseWhole(text, if text[pos] == '-' then pos + 1 else pos);
              ParseNumber(text, pos).end == ParseExp(text, ParseFrac(text, whole.end).end).end
  {
    if ParseNumber(text, pos).Ok? { NumberSound(text, pos); }
  }

  // ---------- One step of each container loop ----------

  /** What the body of `Value` does with a value that is not a container. */
  ghost function ScalarOutcome(text: string, pos: nat, url: bool, nodes: nat): Outcome
    requires pos < |text|
  {
    if text[pos] == '\"' then
      var us := ParseString(text, pos);
      if us.Ok? && UnitsOk(us.tree) && StringFits(us.tree) && (url ==> UrlFits(us.tree)) then Accept(us.end, nodes)
      else Reject
    else if text[pos] == '-' || IsDigit(text[pos]) then
      if NumberAccepted(text, pos) then Accept(ParseNumber(text, pos).end, nodes) else Reject
    else if ParseWord(text, pos).Ok? then Accept(ParseWord(text, pos).end, nodes) else Reject
  }

  lemma {:induction false} ValueStep(text: string, pos: nat, depth: nat, url: bool, nodes: nat)
    requires pos <= |text|
    ensures depth > MAX_JSON_DEPTH || nodes + 1 > MAX_JSON_NODES || pos == |text| ==>
              ValueOutcome(text, pos, depth, url, nodes) == Reject
    ensures depth <= MAX_JSON_DEPTH && nodes + 1 <= MAX_JSON_NODES && pos < |text| && text[pos] != '{'
            && text[pos] != '[' ==>
              ValueOutcome(text, pos, depth, url, nodes) == ScalarOutcome(text, pos, url, nodes + 1)
  {
    if ParseString(text, pos).Ok? { StringSound(text, pos); }
  }

  lemma {:induction false} ArrayStep(text: string, pos: nat, depth: nat, url: bool, nodes: nat)
    requires CharAt(text, pos, '[') && depth <= MAX_JSON_DEPTH && nodes + 1 <= MAX_JSON_NODES
    ensures var a := SkipSpace(text, pos + 1);
            ValueOutcome(text, pos, depth, url, nodes) ==
            if CharAt(text, a, ']') then Accept(a + 1, nodes + 1) else ElemsOutcome(text, a, depth + 1, nodes + 1)
  {
  }

  lemma {:induction false} ObjectStep(text: string, pos: nat, depth: nat, url: bool, nodes: nat)
    requires CharAt(text, pos, '{') && depth <= MAX_JSON_DEPTH && nodes + 1 <= MAX_JSON_NODES
    ensures var a := SkipSpace(text, pos + 1);
            ValueOutcome(text, pos, depth, url, nodes) ==
            if CharAt(text, a, '}') then Accept(a + 1, nodes + 1) else MembersOutcome(text, a, depth + 1, nodes + 1)
  {
  }

  /** What the array loop does after a value that ended with outcome `first`. */
  ghost function AfterElem(text: string, first: Outcome, depth: nat): Outcome {
    if first.Reject? || first.position > |text| then Reject
    else
      var b := SkipSpace(text, first.position);
      if CharAt(text, b, ']') then Accept(b + 1, first.nodes)
      else if CharAt(text, b, ',') then ElemsOutcome(text, SkipSpace(text, b + 1), depth, first.nodes)
      else Reject
  }

  lemma {:induction false} ElemsStep(text: string, pos: nat, depth: nat, nodes: nat)
    requires pos <= |text|
    ensures ElemsOutcome(text, pos, depth, nodes) ==
            AfterElem(text, ValueOutcome(text, pos, depth, false, nodes), depth)
  {
    hide Spans, PrintElems, Print, ParseValue, Depth, Nodes, TokensFit, ValueOk, AllSpace, SkipSpace, CharAt;
    if ParseElems(text, pos).Ok? {
      ElemsSound(text, pos);
      if ParseElems(text, pos).tree.MoreElems? {
        ElemsSound(text, SkipSpace(text, SkipSpace(text, ParseValue(text, pos).end) + 1));
      }
    }
  }

  ghost function AfterMember(text: string, first: Outcome, depth: nat): Outcome {
    if first.Reject? || first.position > |text| then Reject
    else
      var b := SkipSpace(text, first.position);
      if CharAt(text, b, '}') then Accept(b + 1, first.nodes)
      else if CharAt(text, b, ',') then MembersOutcome(text, SkipSpace(text, b + 1), depth, first.nodes)
      else Reject
  }

  /** Key, colon and value of one member. */
  ghost function MemberOutcome(text: string, pos: nat, depth: nat, nodes: nat): Outcome
    requires pos <= |text|
  {
    var key := ParseString(text, pos);
    if key.Fail? || !UnitsOk(key.tree) || !StringFits(key.tree) then Reject
    else
      var b := SkipSpace(text, key.end);
      if CharAt(text, b, ':') then ValueOutcome(text, SkipSpace(text, b + 1), depth, IsUrlKey(key.tree), nodes)
      else Reject
  }

  /** The same, seen from the parser. */
  ghost function ParsedMemberOutcome(text: string, pos: nat, depth: nat, nodes: nat): Outcome
    requires pos <= |text|
  {
    match ParseMember(text, pos)
    case Fail => Reject
    case Ok(m, e) =>
      MemberSound(text, pos);
      if depth + Depth(m.value) <= MAX_JSON_DEPTH + 1 && nodes + Nodes(m.value) <= MAX_JSON_NODES && MemberFits(m)
      then Accept(e, nodes + Nodes(m.value)) else Reject
  }

  lemma {:induction false} MemberStep(text: string, pos: nat, depth: nat, nodes: nat)
    requires pos <= |text|
    ensures ParsedMemberOutcome(text, pos, depth, nodes) == MemberOutcome(text, pos, depth, nodes)
  {
    hide Spans, Depth, Nodes, Print, PrintString, PrintMember, IsUrlKey, StringFits, UnitsOk, ValueOk, AllSpace,
         SkipSpace, ParseString, ParseValue, TokensFit;
    if ParseString(text, pos).Ok? { StringSound(text, pos); }
    if ParseMember(text, pos).Ok? { MemberSound(text, pos); }
  }

  lemma {:induction false} MembersStep(text: string, pos: nat, depth: nat, nodes: nat)
    requires pos <= |text|
    ensures MembersOutcome(text, pos, depth, nodes) == AfterMember(text, MemberOutcome(text, pos, depth, nodes), depth)
  {
    hide Spans, ParseMember, MemberFits, MemberOutcome, PrintMembers, PrintMember, MemberOk, Depth, Nodes, AllSpace,
         SkipSpace;
    MemberStep(text, pos, depth, nodes);
    if ParseMembers(text, pos).Ok? { MembersSound(text, pos); }
  }

  // ---------- The loop of `String` ----------

  /** The token that starts at `start` has been read up to `pos` and `raw` bytes of it counted. */
  ghost predicate Progress(text: string, start: nat, pos: nat, raw: nat)
  {
    && start < pos <= |text|
    && var whole := ParseString(text, start); var rest := ParseTail(text, pos);
      && (whole.Ok? <==> rest.Ok?)
      && (whole.Ok? ==> whole.end == rest.end && 1 + RawBytes(whole.tree) == raw + RawBytes(rest.tree))
  }

  lemma {:induction false} StringStart(text: string, start: nat)
    requires start <= |text|
    ensures !CharAt(text, start, '\"') ==> ParseString(text, start).Fail?
    ensures CharAt(text, start, '\"') ==> Progress(text, start, start + 1, 1)
    ensures ParseString(text, start).Ok? ==> UnitsOk(ParseString(text, start).tree)
  {
    if ParseString(text, start).Ok? { StringSound(text, start); }
  }

  lemma {:induction false} StringStep(text: string, start: nat, pos: nat, raw: nat)
    requires Progress(text, start, pos, raw) && pos < |text| && text[pos] != '\"'
    ensures match ParseUnit(text, pos)
            case Fail => ParseString(text, start).Fail?
            case Ok(u, a) =>
              && Progress(text, start, a, raw + UnitBytes(u))
              && (raw + UnitBytes(u) > MAX_STRING_TOKEN_BYTES && ParseString(text, start).Ok? ==>
                  !StringFits(ParseString(text, start).tree))
  {
    var r := ParseTail(text, pos);
    if r.Ok? {
      var a := ParseUnit(text, pos).end;
      assert r.tree[1..] == ParseTail(text, a).tree;
    }
  }

  lemma {:induction false} StringDone(text: string, start: nat, pos: nat, raw: nat, url: bool)
    requires Progress(text, start, pos, raw) && pos < |text| && text[pos] == '\"'
    ensures ParseString(text, start).Ok? && ParseString(text, start).end == pos + 1
    ensures var us := ParseString(text, start).tree;
            && UnitsOk(us) && (StringFits(us) <==> raw + 1 <= MAX_STRING_TOKEN_BYTES)
            && ParseString(text[start..pos + 1], 0) == Ok(us, pos + 1 - start)
            && (UrlFits(us) <==> Encodable(Decode(us)) && Utf8Bytes(Decode(us)) <= MAX_URL_UTF8_BYTES)
  {
    StringSound(text, start);
    TokenReads(text, start);
  }

  lemma {:induction false} StringOpen(text: string, start: nat, pos: nat, raw: nat)
    requires Progress(text, start, pos, raw) && pos == |text|
    ensures ParseString(text, start).Fail?
  {
  }

  /** The slice handed to json.loads is the token that the grammar reads at `start`. */
  lemma {:induction false} TokenReads(text: string, start: nat)
    requires start <= |text| && ParseString(text, start).Ok?
    ensures var r := ParseString(text, start); ParseString(text[start..r.end], 0) == Ok(r.tree, r.end - start)
  {
    var r := ParseString(text, start);
    StringSound(text, start);
    var token := text[start..r.end];
    assert token == token[0..|token|];
    StringExact(token, 0, |token|, r.tree);
  }

  // ---------- The scanner against the grammar ----------

  /** The texts the scanner is for: one RFC 8259 value, white space around it, within the limits. */
  ghost predicate BoundedJson(text: string) {
    exists before, v, after :: Derives(text, before, v, after) && WithinLimits(v)
  }

  /** The grammar with the limits is decided by the parser. */
  lemma {:induction false} BoundedJsonIsParsed(text: string)
    ensures BoundedJson(text) <==>
            ParseDocument(text).Ok? && ValueOk(ParseDocument(text).tree) && WithinLimits(ParseDocument(text).tree)
  {
    if ParseDocument(text).Ok? { DocumentSound(text); }
    if BoundedJson(text) {
      var before, v, after :| Derives(text, before, v, after) && WithinLimits(v);
      DocumentExact(text, before, v, after);
    }
  }

  lemma {:induction false} DocumentOutcome(text: string)
    ensures var outcome := ValueOutcome(text, SkipSpace(text, 0), 1, false, 0);
            BoundedJson(text) <==>
            outcome.Accept? && outcome.position <= |text| && SkipSpace(text, outcome.position) == |text|
  {
    hide BoundedJson, ValueOk, Print, TokensFit, Depth, Nodes, Spans;
    BoundedJsonIsParsed(text);
    var a := SkipSpace(text, 0);
    if ParseValue(text, a).Ok? { ValueSound(text, a); }
  }

  /** `_scan_json_bounds`: total, and it accepts a text if and only if the text is bounded JSON. Its position never
      goes back and never leaves the text, so no character is passed twice, and it accepts only when all were. */
  method ScanJsonBounds(text: string) returns (accepted: bool, ghost passed: nat)
    ensures accepted <==> BoundedJson(text)
    ensures passed <= |text| && (accepted ==> passed == |text|)
  {
    hide BoundedJson, ValueOutcome;
    DocumentOutcome(text);
    var scanner := new Scanner(text);
    scanner.Whitespace();
    accepted := scanner.Value(1, false);
    if accepted {
      scanner.Whitespace();
      accepted := scanner.position == |text|;
    }
    passed := scanner.position;
  }
}
