/**
 The texts of RFC 8259, with every character class written out from the standard
 and none taken from the lexer: section 2 (white space), section 3 (literals),
 section 6 (numbers, in `JsonGrammar`) and section 7 (strings).  Every such
 document is parsed, in every build, and what the lexer admits beyond the
 standard is stated exactly.
 */
module JsonStandard {
  import opened JsmnLexer
  import opened JsmnMachine
  import opened JsonGrammar
  import opened JsmnCorrect

  const WHITE_SPACE := " \t\n\r"
  const ESCAPES := "\"\\/bfnrt"
  const HEX_DIGITS := "0123456789abcdefABCDEF"
  const DELIMITERS := " \t\n\r,]}"

  predicate All(t: string, cs: string) {
    forall k :: 0 <= k < |t| ==> t[k] in cs
  }

  /** Section 7; a character stands for one byte. */
  predicate StandardUnit(u: StringUnit) {
    match u
    case Plain(c) => c as int >= 0x20 && c != '\"' && c != '\\'
    case Escape(c) => c in ESCAPES
    case Unicode(a, b, c, d) => All([a, b, c, d], HEX_DIGITS)
  }

  predicate StandardBody(us: seq<StringUnit>) {
    forall k :: 0 <= k < |us| ==> StandardUnit(us[k])
  }

  ghost predicate StandardLit(t: string) {
    t == "true" || t == "false" || t == "null" || exists n :: NumberOk(n) && NumberText(n) == t
  }

  predicate StandardKey(kind: Kind, k: Key) {
    if kind == Array then k.NoKey? else k.Key? && StandardBody(k.body) && All(k.mid, WHITE_SPACE) && All(k.gap, WHITE_SPACE)
  }

  ghost predicate Standard(d: Json)
    decreases d
  {
    match d
    case Lit(t) => StandardLit(t)
    case Str(b) => StandardBody(b)
    case Box(k, pad, es) => All(pad, WHITE_SPACE) && StandardElems(k, es)
  }

  ghost predicate StandardElems(k: Kind, es: Elems)
    decreases es
  {
    es.Elem? ==>
      && All(es.lead, WHITE_SPACE) && StandardKey(k, es.key) && Standard(es.value) && All(es.trail, WHITE_SPACE)
      && StandardElems(k, es.rest)
  }

  // ----- Every standard document is parsed -----

  /** The lexer's classes are those of the standard, no more and no less. */
  lemma ClassesAreStandard(c: char)
    ensures IsBlank(c) <==> c in WHITE_SPACE
    ensures IsEscapable(c) <==> c in ESCAPES
    ensures IsHexDigit(c) <==> c in HEX_DIGITS
  {
    HexDigits(c);
  }

  lemma HexDigits(c: char)
    ensures IsHexDigit(c) <==> c in HEX_DIGITS
  {
    assert HEX_DIGITS == "0123456789" + ("abcdef" + "ABCDEF");
    assert '0' <= c <= '9' <==> c in "0123456789";
    assert 'a' <= c <= 'f' <==> c in "abcdef";
    assert 'A' <= c <= 'F' <==> c in "ABCDEF";
  }

  lemma BlanksAreStandard(w: string)
    ensures Blanks(w) <==> All(w, WHITE_SPACE)
  {
  }

  lemma StandardUnitOk(u: StringUnit)
    requires StandardUnit(u)
    ensures UnitOk(u)
  {
    if u.Unicode? {
      assert [u.a, u.b, u.c, u.d][0] in HEX_DIGITS && [u.a, u.b, u.c, u.d][1] in HEX_DIGITS;
      assert [u.a, u.b, u.c, u.d][2] in HEX_DIGITS && [u.a, u.b, u.c, u.d][3] in HEX_DIGITS;
      HexDigits(u.a);
      HexDigits(u.b);
      HexDigits(u.c);
      HexDigits(u.d);
    }
  }

  lemma StandardBodyOk(us: seq<StringUnit>)
    requires StandardBody(us)
    ensures forall k :: 0 <= k < |us| ==> UnitOk(us[k])
  {
    forall k | 0 <= k < |us|
      ensures UnitOk(us[k])
    {
      StandardUnitOk(us[k]);
    }
  }

  lemma {:induction false} StandardOk(strict: bool, d: Json)
    requires Standard(d)
    ensures JsonOk(strict, d)
    decreases d
  {
    match d
    case Lit(t) => StandardLiterals(strict);
    case Str(b) => StandardBodyOk(b);
    case Box(k, pad, es) =>
      BlanksAreStandard(pad);
      StandardElemsOk(strict, k, es);
  }

  lemma {:induction false} StandardElemsOk(strict: bool, k: Kind, es: Elems)
    requires StandardElems(k, es)
    ensures ElemsOk(strict, k, es)
    decreases es
  {
    if es.Elem? {
      BlanksAreStandard(es.lead);
      BlanksAreStandard(es.trail);
      StandardKeyOk(k, es.key);
      StandardOk(strict, es.value);
      StandardElemsOk(strict, k, es.rest);
    }
  }

  lemma StandardKeyOk(kind: Kind, k: Key)
    requires StandardKey(kind, k)
    ensures KeyOk(kind, k)
  {
    if k.Key? {
      StandardBodyOk(k.body);
      BlanksAreStandard(k.mid);
      BlanksAreStandard(k.gap);
    }
  }

  /** Every JSON text of the standard, in every build with enough tokens, gives its pre-order nodes. */
  lemma StandardParses(m: Mode, lead: string, d: Json, trail: string)
    requires All(lead, WHITE_SPACE) && All(trail, WHITE_SPACE) && Standard(d) && Room(m, Fresh, Size(d))
    requires m.strict && d.Lit? ==> trail != ""
    ensures var js := lead + (Text(d) + trail);
            var f := Run(m, js, Fresh);
            && f.result == Ok(Size(d)) && f.parser.pos == |js| && |f.parser.toks| == Size(d)
            && DenotesAll(js, f.parser.toks, Preorder(d, |lead|))
  {
    BlanksAreStandard(lead);
    BlanksAreStandard(trail);
    StandardOk(m.strict, d);
    ParseIsPreorder(m, lead, d, trail);
  }

  // ----- Beyond the standard: bare words -----

  /** What the tokenizer takes for an unquoted value, in literals. */
  predicate BareWord(strict: bool, t: string) {
    && t != ""
    && (forall k :: 0 <= k < |t| ==> '!' <= t[k] <= '~' && t[k] !in ",]}:")
    && if strict then t[0] in "-0123456789tfn" else t[0] !in "{[\""
  }

  lemma StrictStart(c: char)
    ensures StartsStrictPrimitive(c) <==> c in "-0123456789tfn"
  {
    assert "-0123456789tfn" == "-" + ("0123456789" + "tfn");
    assert '0' <= c <= '9' <==> c in "0123456789";
  }

  lemma BareWordIff(strict: bool, t: string)
    ensures LitOk(strict, t) <==> BareWord(strict, t)
  {
    if t != "" {
      StrictStart(t[0]);
      forall k | 0 <= k < |t|
        ensures IsPrintable(t[k]) && !EndsBare(false, t[k]) <==> '!' <= t[k] <= '~' && t[k] !in ",]}:"
      {
        assert IsBlank(t[k]) <==> t[k] in " \t\n\r";
      }
    }
  }

  // ----- Strings that are refused -----

  /** A string body of the tokenizer: the standard's, and control characters other than NUL. */
  predicate LooseUnit(u: StringUnit) {
    if u.Plain? then u.c != '\"' && u.c != '\\' && u.c != '\0' else StandardUnit(u)
  }

  predicate LooseBody(us: seq<StringUnit>) {
    forall k :: 0 <= k < |us| ==> LooseUnit(us[k])
  }

  lemma LooseUnitIff(u: StringUnit)
    ensures UnitOk(u) <==> LooseUnit(u)
  {
    match u
    case Plain(_) =>
    case Escape(c) => ClassesAreStandard(c);
    case Unicode(a, b, c, d) =>
      var q := [a, b, c, d];
      assert All(q, HEX_DIGITS) <==> q[0] in HEX_DIGITS && q[1] in HEX_DIGITS && q[2] in HEX_DIGITS && q[3] in HEX_DIGITS;
      HexDigits(a);
      HexDigits(b);
      HexDigits(c);
      HexDigits(d);
  }

  lemma LooseBodyIff(us: seq<StringUnit>)
    ensures BodyOk(us) <==> LooseBody(us)
  {
    forall k | 0 <= k < |us|
      ensures UnitOk(us[k]) <==> LooseUnit(us[k])
    {
      LooseUnitIff(us[k]);
    }
  }

  /** The scan behind a body goes on where the body ends. */
  lemma {:induction false} ScanPast(js: string, p: nat, us: seq<StringUnit>)
    requires BodyOk(us) && Occurs(js, p, BodyText(us))
    ensures ScanString(js, p) == ScanString(js, p + |BodyText(us)|)
    decreases |us|
  {
    if us != [] {
      OccursSplit(js, p, UnitText(us[0]), BodyText(us[1..]));
      ScanUnit(js, p, us[0]);
      ScanPast(js, p + |UnitText(us[0])|, us[1..]);
    }
  }

  /** In a string, behind any good beginning, comes a backslash with a character that the standard does not allow there. */
  predicate WrongEscape(js: string, e: nat) {
    && e + 1 < |js| && js[e] == '\\'
    && if js[e + 1] == 'u' then WrongDigits(js, e + 2) else js[e + 1] !in ESCAPES
  }

  /** The digit number `n` of four is there and is none; the ones before it are. */
  predicate WrongHex(js: string, p: nat, n: nat) {
    p + n < |js| && js[p + n] != '\0' && js[p + n] !in HEX_DIGITS && All(js[p..p + n], HEX_DIGITS)
  }

  predicate WrongDigits(js: string, p: nat) {
    exists n :: 0 <= n < 4 && WrongHex(js, p, n)
  }

  lemma {:induction false} HexFails(js: string, p: nat, n: nat, of: nat)
    requires WrongHex(js, p, n) && n < of
    ensures ScanHex(js, p, of) == Bad
    decreases n
  {
    HexDigits(js[p]);
    assert '\0' !in HEX_DIGITS;
    if n > 0 {
      assert js[p..p + n][0] == js[p];
      assert js[p + 1..p + n] == js[p..p + n][1..];
      HexFails(js, p + 1, n - 1, of - 1);
    }
  }

  lemma {:induction false} FailsAtHex(js: string, p: nat, of: nat) returns (n: nat)
    requires ScanHex(js, p, of) == Bad
    ensures n < of && WrongHex(js, p, n)
    decreases of
  {
    HexDigits(js[p]);
    n := 0;
    if IsHexDigit(js[p]) {
      var k := FailsAtHex(js, p + 1, of - 1);
      n := k + 1;
      assert js[p..p + n] == [js[p]] + js[p + 1..p + 1 + k];
    }
  }

  lemma EscapeFails(js: string, e: nat)
    requires WrongEscape(js, e)
    ensures ScanString(js, e) == Bad
  {
    ClassesAreStandard(js[e + 1]);
    if js[e + 1] == 'u' {
      var n :| 0 <= n < 4 && WrongHex(js, e + 2, n);
      HexFails(js, e + 2, n, 4);
    }
  }

  /** The unit at the start of a string that fails only later. */
  lemma UnitBeforeBad(js: string, p: nat) returns (u: StringUnit)
    requires ScanString(js, p) == Bad && !WrongEscape(js, p)
    ensures UnitOk(u) && Occurs(js, p, UnitText(u)) && ScanString(js, p + |UnitText(u)|) == Bad
  {
    if js[p] == '\\' && p + 1 < |js| {
      ClassesAreStandard(js[p + 1]);
      if js[p + 1] in ESCAPES {
        u := Escape(js[p + 1]);
      } else {
        if ScanHex(js, p + 2, 4) == Bad {
          var n := FailsAtHex(js, p + 2, 4);
        }
        u := Unicode(js[p + 2], js[p + 3], js[p + 4], js[p + 5]);
      }
    } else {
      u := Plain(js[p]);
    }
    OccursSlice(js, p, UnitText(u));
  }

  /** Conversely, a string that fails has such a backslash behind a good beginning. */
  lemma {:induction false} FailsAtEscape(js: string, p: nat) returns (us: seq<StringUnit>)
    requires ScanString(js, p) == Bad
    ensures LooseBody(us) && Occurs(js, p, BodyText(us)) && WrongEscape(js, p + |BodyText(us)|)
    decreases |js| - p
  {
    us := [];
    if !WrongEscape(js, p) {
      var u := UnitBeforeBad(js, p);
      var rest := FailsAtEscape(js, p + |UnitText(u)|);
      us := [u] + rest;
      assert us[1..] == rest;
      LooseUnitIff(u);
      OccursJoin(js, p, UnitText(u), BodyText(rest));
    }
  }

  /** The text has, from `p` on, a good beginning of a string and then a wrong escape. */
  ghost predicate Breaks(js: string, p: nat) {
    exists us :: LooseBody(us) && Occurs(js, p, BodyText(us)) && WrongEscape(js, p + |BodyText(us)|)
  }

  lemma BreaksIff(js: string, p: nat)
    ensures ScanString(js, p) == Bad <==> Breaks(js, p)
  {
    if ScanString(js, p) == Bad {
      var us := FailsAtEscape(js, p);
    }
    if Breaks(js, p) {
      var us :| LooseBody(us) && Occurs(js, p, BodyText(us)) && WrongEscape(js, p + |BodyText(us)|);
      LooseBodyIff(us);
      ScanPast(js, p, us);
      EscapeFails(js, p + |BodyText(us)|);
    }
  }

  /**
   A string is invalid, in every build, with or without tokens, wherever the parser
   meets it, if and only if it breaks; the parser then stays before it.
   */
  lemma InvalidStringIff(m: Mode, js: string, p: Parser)
    requires p.pos < |js| && js[p.pos] == '\"'
    ensures DoStep(m, js, p) == Stop(Inval) <==> Breaks(js, p.pos + 1)
    ensures Breaks(js, p.pos + 1) ==> Run(m, js, p) == Final(p, Err(Inval))
  {
    BreaksIff(js, p.pos + 1);
  }
}
