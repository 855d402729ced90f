/**
 Lexical layer of the jsmn tokenizer: which character starts which kind of
 lexeme, and how far a string or an unquoted primitive extends.  A text is a
 `string` whose length is the `len` argument of the source; each `char` stands
 for one byte, and a NUL byte ends the text early.
 */
module JsmnLexer {

  /** White space between lexemes. */
  predicate IsBlank(c: char) {
    c == '\t' || c == '\r' || c == '\n' || c == ' '
  }

  /** The main loop and both scanners stop at the length or at a NUL byte. */
  predicate AtEnd(js: string, p: nat) {
    |js| <= p || js[p] == '\0'
  }

  /** Characters that end an unquoted primitive; the colon only in the default build. */
  predicate EndsBare(strict: bool, c: char) {
    IsBlank(c) || c == ',' || c == ']' || c == '}' || (!strict && c == ':')
  }

  predicate IsPrintable(c: char) {
    32 <= c as int < 127
  }

  predicate IsHexDigit(c: char) {
    '0' <= c <= '9' || 'A' <= c <= 'F' || 'a' <= c <= 'f'
  }

  /** The one-character escapes a string may contain after a backslash. */
  predicate IsEscapable(c: char) {
    c == '\"' || c == '/' || c == '\\' || c == 'b' || c == 'f' || c == 'r' || c == 'n' || c == 't'
  }

  datatype Kind = Object | Array

  function Opener(k: Kind): char {
    if k == Object then '{' else '['
  }

  function Closer(k: Kind): char {
    if k == Object then '}' else ']'
  }

  datatype Lexeme = Open(kind: Kind) | Close(kind: Kind) | Quote | Blank | Colon | Comma | Bare | Illegal

  predicate StartsStrictPrimitive(c: char) {
    c == '-' || '0' <= c <= '9' || c == 't' || c == 'f' || c == 'n'
  }

  /** The switch of the main loop. */
  function Classify(strict: bool, c: char): Lexeme {
    if c == '{' then Open(Object)
    else if c == '[' then Open(Array)
    else if c == '}' then Close(Object)
    else if c == ']' then Close(Array)
    else if c == '\"' then Quote
    else if IsBlank(c) then Blank
    else if c == ':' then Colon
    else if c == ',' then Comma
    else if !strict || StartsStrictPrimitive(c) then Bare
    else Illegal
  }

  /** Result of scanning one string or primitive: its end, a bad character, or a text that stops too early. */
  datatype Scan = Found(end: nat) | Bad | Short

  /** A character an unquoted primitive runs over. */
  predicate InBare(strict: bool, js: string, p: nat) {
    !AtEnd(js, p) && !EndsBare(strict, js[p]) && IsPrintable(js[p])
  }

  /** How far the primitive whose next character is at `p` extends. */
  function ScanBare(strict: bool, js: string, p: nat): (s: Scan)
    ensures s.Found? ==> p <= s.end && forall k :: p <= k < s.end ==> InBare(strict, js, k)
    ensures s.Found? ==> if AtEnd(js, s.end) then !strict else EndsBare(strict, js[s.end])
    ensures s.Found? && p <= |js| ==> s.end <= |js|
    ensures s.Short? ==> strict
    decreases |js| - p
  {
    if AtEnd(js, p) then if strict then Short else Found(p)
    else if EndsBare(strict, js[p]) then Found(p)
    else if !IsPrintable(js[p]) then Bad
    else ScanBare(strict, js, p + 1)
  }

  /** Up to `n` hexadecimal digits from `p`; a text that stops early is left to the caller. */
  function ScanHex(js: string, p: nat, n: nat): (s: Scan)
    ensures !s.Short?
    ensures s.Found? ==> p <= s.end <= p + n && forall k :: p <= k < s.end ==> !AtEnd(js, k) && IsHexDigit(js[k])
    ensures s.Found? && s.end < p + n ==> AtEnd(js, s.end)
    ensures s.Found? && p <= |js| ==> s.end <= |js|
    decreases n
  {
    if n == 0 || AtEnd(js, p) then Found(p)
    else if !IsHexDigit(js[p]) then Bad
    else ScanHex(js, p + 1, n - 1)
  }

  /** Where the string whose next character is at `p` has its closing quote. */
  function ScanString(js: string, p: nat): (s: Scan)
    ensures s.Found? ==> p <= s.end < |js| && js[s.end] == '\"'
    decreases |js| - p
  {
    if AtEnd(js, p) then Short
    else if js[p] == '\"' then Found(p)
    else if js[p] == '\\' && p + 1 < |js| then
      if IsEscapable(js[p + 1]) then ScanString(js, p + 2)
      else if js[p + 1] == 'u' then
        var h := ScanHex(js, p + 2, 4);
        if h.Found? then ScanString(js, h.end) else Bad
      else Bad
    else ScanString(js, p + 1)
  }

  // ----- What the string scanner accepts, as a grammar -----

  /** One element of a string body: a plain character, a short escape, or a \uXXXX escape. */
  datatype StringUnit = Plain(c: char) | Escape(c: char) | Unicode(a: char, b: char, c: char, d: char)

  predicate UnitOk(u: StringUnit) {
    match u
    case Plain(c) => c != '\"' && c != '\\' && c != '\0'
    case Escape(c) => IsEscapable(c)
    case Unicode(a, b, c, d) => IsHexDigit(a) && IsHexDigit(b) && IsHexDigit(c) && IsHexDigit(d)
  }

  function UnitText(u: StringUnit): string {
    match u
    case Plain(c) => [c]
    case Escape(c) => ['\\', c]
    case Unicode(a, b, c, d) => ['\\', 'u', a, b, c, d]
  }

  function BodyText(us: seq<StringUnit>): string {
    if us == [] then "" else UnitText(us[0]) + BodyText(us[1..])
  }

  ghost predicate BodyOk(us: seq<StringUnit>) {
    forall k :: 0 <= k < |us| ==> UnitOk(us[k])
  }

  /** The text `t` occurs in `js` at offset `o`. */
  predicate Occurs(js: string, o: nat, t: string) {
    o + |t| <= |js| && forall k :: 0 <= k < |t| ==> js[o + k] == t[k]
  }

  lemma OccursSlice(js: string, o: nat, t: string)
    ensures Occurs(js, o, t) <==> o + |t| <= |js| && js[o..o + |t|] == t
  {
  }

  lemma OccursSplit(js: string, o: nat, a: string, b: string)
    requires Occurs(js, o, a + b)
    ensures Occurs(js, o, a) && Occurs(js, o + |a|, b)
  {
    assert forall k :: 0 <= k < |a| ==> a[k] == (a + b)[k];
    assert forall k :: 0 <= k < |b| ==> b[k] == (a + b)[|a| + k];
  }

  lemma OccursJoin(js: string, o: nat, a: string, b: string)
    requires Occurs(js, o, a) && Occurs(js, o + |a|, b)
    ensures Occurs(js, o, a + b)
  {
  }

  lemma OccursAt(js: string, o: nat, t: string, k: nat)
    requires Occurs(js, o, t) && k < |t|
    ensures o + k < |js| && js[o + k] == t[k]
  {
  }

  lemma HexQuad(js: string, p: nat)
    requires p + 4 <= |js|
    requires forall k :: p <= k < p + 4 ==> IsHexDigit(js[k])
    ensures ScanHex(js, p, 4) == Found(p + 4)
  {
  }

  /** The scanner steps over one whole unit. */
  lemma ScanUnit(js: string, p: nat, u: StringUnit)
    requires UnitOk(u) && Occurs(js, p, UnitText(u))
    ensures ScanString(js, p) == ScanString(js, p + |UnitText(u)|)
  {
    var t := UnitText(u);
    OccursAt(js, p, t, 0);
    match u
    case Plain(_) =>
    case Escape(_) => OccursAt(js, p, t, 1);
    case Unicode(_, _, _, _) =>
      OccursAt(js, p, t, 1);
      OccursAt(js, p, t, 2);
      OccursAt(js, p, t, 3);
      OccursAt(js, p, t, 4);
      OccursAt(js, p, t, 5);
      HexQuad(js, p + 2);
  }

  /** Every body followed by a quote is scanned exactly to that quote. */
  lemma {:induction false} ScanStringAccepts(js: string, p: nat, us: seq<StringUnit>)
    requires BodyOk(us)
    requires Occurs(js, p, BodyText(us))
    requires p + |BodyText(us)| < |js| && js[p + |BodyText(us)|] == '\"'
    ensures ScanString(js, p) == Found(p + |BodyText(us)|)
    decreases |us|
  {
    if us != [] {
      OccursSplit(js, p, UnitText(us[0]), BodyText(us[1..]));
      ScanUnit(js, p, us[0]);
      ScanStringAccepts(js, p + |UnitText(us[0])|, us[1..]);
    }
  }

  /** The first unit of an accepted body, and the scan after it. */
  lemma FirstUnit(js: string, p: nat) returns (u: StringUnit)
    requires ScanString(js, p).Found? && js[p] != '\"'
    ensures UnitOk(u) && Occurs(js, p, UnitText(u))
    ensures ScanString(js, p + |UnitText(u)|) == ScanString(js, p)
  {
    if js[p] == '\\' && p + 1 < |js| {
      if IsEscapable(js[p + 1]) {
        u := Escape(js[p + 1]);
      } else {
        var h := ScanHex(js, p + 2, 4);
        assert h.end == p + 6;
        u := Unicode(js[p + 2], js[p + 3], js[p + 4], js[p + 5]);
      }
    } else {
      u := Plain(js[p]);
    }
    OccursSlice(js, p, UnitText(u));
  }

  /** Conversely, whatever the scanner accepts is a well-formed body. */
  lemma {:induction false} ScanStringSound(js: string, p: nat) returns (us: seq<StringUnit>)
    requires ScanString(js, p).Found?
    ensures BodyOk(us) && Occurs(js, p, BodyText(us)) && p + |BodyText(us)| == ScanString(js, p).end
    decreases |js| - p
  {
    if js[p] == '\"' {
      us := [];
    } else {
      var u := FirstUnit(js, p);
      var rest := ScanStringSound(js, p + |UnitText(u)|);
      us := [u] + rest;
      assert us[1..] == rest;
      OccursJoin(js, p, UnitText(u), BodyText(rest));
    }
  }

  // ----- What a longer text cannot change -----

  /** A string that ended, or failed, inside a text does so in every longer text. */
  lemma {:induction false} ScanStringStable(js: string, full: string, p: nat)
    requires js <= full && !ScanString(js, p).Short?
    ensures ScanString(full, p) == ScanString(js, p)
    decreases |js| - p
  {
    if js[p] == '\"' {
    } else if js[p] == '\\' && p + 1 < |js| {
      if IsEscapable(js[p + 1]) {
        ScanStringStable(js, full, p + 2);
      } else if js[p + 1] == 'u' {
        var h := ScanHex(js, p + 2, 4);
        ScanHexStable(js, full, p + 2, 4);
        if h.Found? {
          ScanStringStable(js, full, h.end);
        }
      }
    } else {
      ScanStringStable(js, full, p + 1);
      assert p + 1 < |js|;
    }
  }

  lemma {:induction false} ScanHexStable(js: string, full: string, p: nat, n: nat)
    requires js <= full
    requires ScanHex(js, p, n).Found? ==> ScanHex(js, p, n).end == p + n
    ensures ScanHex(full, p, n) == ScanHex(js, p, n)
    decreases n
  {
    if n > 0 && !AtEnd(js, p) && IsHexDigit(js[p]) {
      ScanHexStable(js, full, p + 1, n - 1);
    }
  }

  /** A primitive that ended before the end of the text, or failed, does so in every longer text. */
  lemma {:induction false} ScanBareStable(strict: bool, js: string, full: string, p: nat)
    requires js <= full && !ScanBare(strict, js, p).Short?
    requires ScanBare(strict, js, p).Found? ==> ScanBare(strict, js, p).end < |js| || AtEnd(full, |js|) || EndsBare(strict, full[|js|])
    requires p <= |js|
    ensures ScanBare(strict, full, p) == ScanBare(strict, js, p)
    decreases |js| - p
  {
    if InBare(strict, js, p) {
      ScanBareStable(strict, js, full, p + 1);
    }
  }

  /** A primitive cut by the end of the text reads on in a longer text. */
  lemma {:induction false} ScanBareCut(strict: bool, js: string, full: string, p: nat)
    requires js < full && ScanBare(strict, js, p) == Found(|js|)
    requires !AtEnd(full, |js|) && !EndsBare(strict, full[|js|])
    requires p <= |js|
    ensures ScanBare(strict, full, p) != Found(|js|)
    ensures ScanBare(strict, full, p).Short? ==> strict
    decreases |js| - p
  {
  }
}
