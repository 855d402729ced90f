/**
 The tokenizer as the source writes it: a parser object whose fields, and a
 caller-supplied token array, are updated in place by nested loops with rewinds
 and backward scans.  Every method is proved against the machine of
 `JsmnMachine`; `Parse` is proved to perform exactly `Run`.
 */
module JsmnTokenizer {
  import opened JsmnLexer
  import opened JsmnMachine

  datatype Status = Fine | Fail(error: Error)

  /** One case of the main switch did what one machine step does, short of the loop's own `pos++`. */
  ghost predicate Performed(m: Mode, js: string, before: Parser, after: Parser, st: Status, made: nat) {
    !AtEnd(js, before.pos) &&
    match st
    case Fine => DoStep(m, js, before) == Go(after.(pos := after.pos + 1), made)
    case Fail(e) => after == before && DoStep(m, js, before) == Stop(e)
  }

  class Tokenizer {
    /** The build flags JSMN_STRICT and JSMN_PARENT_LINKS. */
    const strict: bool
    const links: bool

    var pos: nat
    var toknext: nat
    var toksuper: int

    ghost function ModeOf(tokens: array?<Tok>, num: nat): Mode {
      Mode(strict, links, if tokens == null then NoPool else Cap(num))
    }

    /** The parser and the used part of the token array, as a value. */
    ghost function View(tokens: array?<Tok>): Parser
      reads this, tokens
    {
      Parser(pos, if tokens == null || tokens.Length < toknext then [] else tokens[..toknext], toksuper)
    }

    ghost predicate Valid(tokens: array?<Tok>, num: nat)
      reads this, tokens
    {
      && (tokens == null ==> toknext == 0)
      && (tokens != null ==> toknext <= tokens.Length && num <= tokens.Length)
      && Sane(ModeOf(tokens, num), View(tokens))
    }

    constructor (strict: bool, links: bool)
      ensures this.strict == strict && this.links == links
      ensures View(null) == Fresh && toknext == 0
    {
      this.strict := strict;
      this.links := links;
      pos := 0;
      toknext := 0;
      toksuper := -1;
    }

    /** jsmn_init: ready for a new text, whatever array comes with it. */
    method Init()
      modifies this
      ensures toknext == 0
      ensures forall tokens: array?<Tok> :: View(tokens) == Fresh
    {
      pos := 0;
      toknext := 0;
      toksuper := -1;
    }

    /** The next unused token, reset, or -1 when the array is used up. The type is left as it was. */
    method AllocToken(tokens: array<Tok>, num: nat) returns (i: int)
      requires toknext <= tokens.Length && num <= tokens.Length
      modifies this`toknext, tokens
      ensures i < 0 ==> num <= toknext == old(toknext) && tokens[..] == old(tokens[..])
      ensures i >= 0 ==> i == old(toknext) < num && toknext == i + 1
      ensures i >= 0 ==> tokens[..] == old(tokens[..])[i := Tok(old(tokens[toknext].typ), -1, -1, 0, -1)]
    {
      if toknext >= num {
        return -1;
      }
      i := toknext;
      toknext := toknext + 1;
      tokens[i] := tokens[i].(start := -1, end := -1, size := 0, parent := -1);
    }

    /** Stores a closed token under the current superior, or reports that the array is used up. */
    method StoreToken(tokens: array<Tok>, num: nat, typ: TokType, start: int, end: int) returns (ok: bool)
      requires toknext <= tokens.Length && num <= tokens.Length
      modifies this`toknext, tokens
      ensures ok == (old(toknext) < num)
      ensures !ok ==> toknext == old(toknext) && tokens[..toknext] == old(tokens[..toknext])
      ensures ok ==> toknext == old(toknext) + 1 <= tokens.Length
      ensures ok ==> tokens[..toknext] == old(tokens[..toknext]) + [NewTok(ModeOf(tokens, num), typ, start, end, toksuper)]
    {
      var i := AllocToken(tokens, num);
      if i < 0 {
        assert tokens[..toknext] == tokens[..][..toknext];
        return false;
      }
      // jsmn_fill_token
      tokens[i] := tokens[i].(typ := typ, start := start, end := end, size := 0);
      if links {
        tokens[i] := tokens[i].(parent := toksuper);
      }
      return true;
    }

    /** What scanning one string or primitive from `start` does before the superior is counted up. */
    ghost predicate Scanned(m: Mode, before: Parser, after: Parser, st: Status, s: Scan, typ: TokType, start: nat, last: int)
    {
      match s
      case Bad => st == Fail(Inval) && after == before
      case Short => st == Fail(Part) && after == before
      case Found(e) =>
        if OutOfTokens(m, before) then st == Fail(NoMem) && after == before
        else
          && st == Fine
          && after.pos == last
          && after.sup == before.sup
          && after.toks == if m.pool.NoPool? then before.toks else before.toks + [NewTok(m, typ, start, e, before.sup)]
    }

    /** jsmn_parse_primitive */
    method ParsePrimitive(js: string, tokens: array?<Tok>, num: nat) returns (st: Status)
      requires Valid(tokens, num) && !AtEnd(js, pos) && !EndsBare(strict, js[pos])
      modifies this`pos, this`toknext, tokens
      ensures tokens != null ==> toknext <= tokens.Length
      ensures tokens == null ==> toknext == 0
      ensures var s := ScanBare(strict, js, old(pos));
              Scanned(ModeOf(tokens, num), old(View(tokens)), View(tokens), st, s, Primitive, old(pos), if s.Found? then s.end - 1 else 0)
    {
      var start := pos;
      var found := false;
      while pos < |js| && js[pos] != '\0' && !found
        modifies this`pos
        invariant start <= pos <= |js|
        invariant found ==> pos < |js| && EndsBare(strict, js[pos])
        invariant ScanBare(strict, js, start) == ScanBare(strict, js, pos)
        decreases |js| - pos, !found
      {
        if EndsBare(strict, js[pos]) {
          found := true;
        } else if js[pos] as int < 32 || js[pos] as int >= 127 {
          pos := start;
          return Fail(Inval);
        } else {
          pos := pos + 1;
        }
      }
      if strict && !found {
        pos := start;
        return Fail(Part);
      }
      if tokens == null {
        pos := pos - 1;
        return Fine;
      }
      var ok := StoreToken(tokens, num, Primitive, start, pos);
      if !ok {
        pos := start;
        return Fail(NoMem);
      }
      pos := pos - 1;
      return Fine;
    }

    /** The four digits after a \u; false for a character that is no digit. */
    method SkipHex(js: string) returns (ok: bool)
      modifies this`pos
      requires pos <= |js|
      ensures ok == ScanHex(js, old(pos), 4).Found?
      ensures ok ==> pos == ScanHex(js, old(pos), 4).end
    {
      var i := 0;
      while i < 4 && pos < |js| && js[pos] != '\0'
        invariant 0 <= i <= 4 && old(pos) <= pos <= |js|
        invariant ScanHex(js, old(pos), 4) == ScanHex(js, pos, 4 - i)
      {
        if !IsHexDigit(js[pos]) {
          return false;
        }
        pos := pos + 1;
        i := i + 1;
      }
      return true;
    }

    /** After a backslash: step onto the last character of the escape; false if there is no such escape. */
    method SkipEscape(js: string) returns (ok: bool)
      requires pos + 1 < |js| && js[pos] == '\\'
      modifies this`pos
      ensures !ok ==> ScanString(js, old(pos)).Bad?
      ensures ok ==> old(pos) < pos < |js| && ScanString(js, old(pos)) == ScanString(js, pos + 1)
    {
      pos := pos + 1;
      if js[pos] == 'u' {
        pos := pos + 1;
        ok := SkipHex(js);
        if ok {
          pos := pos - 1;
        }
      } else {
        ok := IsEscapable(js[pos]);
      }
    }

    /** The loop of jsmn_parse_string: run to the closing quote. */
    method SeekQuote(js: string) returns (s: Scan)
      requires pos <= |js|
      modifies this`pos
      ensures s == ScanString(js, old(pos))
      ensures s.Found? ==> pos == s.end
    {
      while pos < |js| && js[pos] != '\0'
        invariant old(pos) <= pos <= |js|
        invariant ScanString(js, old(pos)) == ScanString(js, pos)
      {
        if js[pos] == '\"' {
          return Found(pos);
        }
        if js[pos] == '\\' && pos + 1 < |js| {
          var ok := SkipEscape(js);
          if !ok {
            return Bad;
          }
        }
        pos := pos + 1;
      }
      return Short;
    }

    /** jsmn_parse_string */
    method ParseString(js: string, tokens: array?<Tok>, num: nat) returns (st: Status)
      requires Valid(tokens, num) && !AtEnd(js, pos)
      modifies this`pos, this`toknext, tokens
      ensures tokens != null ==> toknext <= tokens.Length
      ensures tokens == null ==> toknext == 0
      ensures var s := ScanString(js, old(pos) + 1);
              Scanned(ModeOf(tokens, num), old(View(tokens)), View(tokens), st, s, String, old(pos) + 1, if s.Found? then s.end else 0)
    {
      var start := pos;
      pos := pos + 1;
      var s := SeekQuote(js);
      if !s.Found? {
        pos := start;
        return Fail(if s.Bad? then Inval else Part);
      }
      if tokens == null {
        return Fine;
      }
      var ok := StoreToken(tokens, num, String, start + 1, pos);
      if !ok {
        pos := start;
        return Fail(NoMem);
      }
      return Fine;
    }

    /** The token `t` just stored is one more child of the superior, if there is one. */
    method CountNewest(tokens: array<Tok>, ghost before: seq<Tok>, ghost t: Tok)
      requires 0 < toknext <= tokens.Length && tokens[..toknext] == before + [t]
      requires -1 <= toksuper < |before|
      modifies tokens
      ensures tokens[..toknext] == Bump(before, toksuper) + [t]
    {
      if toksuper != -1 {
        assert tokens[toksuper] == tokens[..toknext][toksuper] == before[toksuper];
        tokens[toksuper] := tokens[toksuper].(size := tokens[toksuper].size + 1);
      }
    }

    /** The cases `{` and `[`. */
    method OpenBracket(js: string, tokens: array?<Tok>, num: nat, k: Kind) returns (st: Status)
      requires Valid(tokens, num) && !AtEnd(js, pos) && Classify(strict, js[pos]) == Open(k)
      modifies this`toknext, this`toksuper, tokens
      ensures tokens != null ==> toknext <= tokens.Length
      ensures tokens == null ==> toknext == 0
      ensures Performed(ModeOf(tokens, num), js, old(View(tokens)), View(tokens), st, 1)
    {
      if tokens == null {
        return Fine;
      }
      ghost var before := tokens[..toknext];
      var i := AllocToken(tokens, num);
      if i < 0 {
        assert tokens[..toknext] == tokens[..][..toknext];
        return Fail(NoMem);
      }
      assert tokens[..i] == before;
      if toksuper != -1 {
        tokens[toksuper] := tokens[toksuper].(size := tokens[toksuper].size + 1);
        if links {
          tokens[i] := tokens[i].(parent := toksuper);
        }
      }
      tokens[i] := tokens[i].(typ := Container(k), start := pos);
      assert tokens[..i] == Bump(before, toksuper);
      assert tokens[..toknext] == tokens[..i] + [tokens[i]];
      toksuper := toknext - 1;
      return Fine;
    }

    /** Backward scan from `from` for an open token, -1 if there is none. */
    method FindOpen(tokens: array<Tok>, from: int) returns (i: int)
      requires -1 <= from < toknext <= tokens.Length
      ensures i == OpenBelow(tokens[..toknext], from + 1)
    {
      i := from;
      while i >= 0 && !IsOpen(tokens[i])
        invariant -1 <= i <= from
        invariant OpenBelow(tokens[..toknext], from + 1) == OpenBelow(tokens[..toknext], i + 1)
      {
        i := i - 1;
      }
    }

    /** The cases `}` and `]` in the default build. */
    method CloseBracketScan(js: string, tokens: array<Tok>, num: nat, k: Kind) returns (st: Status)
      requires Valid(tokens, num) && !AtEnd(js, pos) && Classify(strict, js[pos]) == Close(k) && !links
      modifies this`toksuper, tokens
      ensures Performed(ModeOf(tokens, num), js, old(View(tokens)), View(tokens), st, 0)
    {
      ghost var before := tokens[..toknext];
      var i := FindOpen(tokens, toknext - 1);
      if i == -1 {
        return Fail(Inval);
      }
      if tokens[i].typ != Container(k) {
        return Fail(Inval);
      }
      tokens[i] := tokens[i].(end := pos + 1);
      assert tokens[..toknext] == CloseAt(before, i, pos + 1);
      toksuper := FindOpen(tokens, i);
      OpenBelowSame(before, tokens[..toknext], i);
      return Fine;
    }

    /** The cases `}` and `]` in the build with parent links. */
    method CloseBracketLinks(js: string, tokens: array<Tok>, num: nat, k: Kind) returns (st: Status)
      requires Valid(tokens, num) && !AtEnd(js, pos) && Classify(strict, js[pos]) == Close(k) && links
      modifies this`toksuper, tokens
      ensures Performed(ModeOf(tokens, num), js, old(View(tokens)), View(tokens), st, 0)
    {
      if toknext < 1 {
        return Fail(Inval);
      }
      ghost var before := tokens[..toknext];
      var i := toknext - 1;
      while true
        invariant 0 <= i < toknext && tokens[..toknext] == before
        invariant ChainOpen(before, toknext - 1) == ChainOpen(before, i)
        decreases i
      {
        assert tokens[i] == before[i];
        if IsOpen(tokens[i]) {
          if tokens[i].typ != Container(k) {
            return Fail(Inval);
          }
          tokens[i] := tokens[i].(end := pos + 1);
          assert tokens[..toknext] == CloseAt(before, i, pos + 1);
          toksuper := tokens[i].parent;
          return Fine;
        }
        if tokens[i].parent == -1 {
          return Fine;
        }
        i := tokens[i].parent;
      }
    }

    /**
     The case `,`.  With no superior the source reads the type of the token
     before the array; that value is left arbitrary here and does not matter to
     the backward scan.  The build with links would also read that token's
     parent; here index -1 is "no superior" and nothing is read.
     */
    method CommaCase(js: string, tokens: array?<Tok>, num: nat)
      requires Valid(tokens, num) && !AtEnd(js, pos) && Classify(strict, js[pos]) == Comma
      modifies this`toksuper
      ensures Performed(ModeOf(tokens, num), js, old(View(tokens)), View(tokens), Fine, 0)
    {
      if tokens != null {
        var t: TokType := *;
        if toksuper >= 0 {
          t := tokens[toksuper].typ;
        }
        if !t.Container? {
          if links {
            if toksuper >= 0 {
              toksuper := tokens[toksuper].parent;
            }
          } else {
            var i := toknext - 1;
            while i >= 0 && !(tokens[i].typ.Container? && tokens[i].start != -1 && tokens[i].end == -1)
              invariant -1 <= i < toknext
              invariant forall j :: i < j < toknext ==> !IsOpenContainer(tokens[j])
            {
              i := i - 1;
            }
            ghost var toks := tokens[..toknext];
            assert forall j :: i < j < |toks| ==> !IsOpenContainer(toks[j]);
            assert i >= 0 ==> IsOpenContainer(toks[i]);
            if i >= 0 {
              toksuper := i;
            }
          }
        }
      }
    }

    /** The case of a quote. */
    method StringCase(js: string, tokens: array?<Tok>, num: nat) returns (st: Status)
      requires Valid(tokens, num) && !AtEnd(js, pos) && Classify(strict, js[pos]) == Quote
      modifies this`pos, this`toknext, tokens
      ensures tokens != null ==> toknext <= tokens.Length
      ensures tokens == null ==> toknext == 0
      ensures Performed(ModeOf(tokens, num), js, old(View(tokens)), View(tokens), st, 1)
    {
      ghost var before, m := View(tokens), ModeOf(tokens, num);
      st := ParseString(js, tokens, num);
      if st.Fine? && tokens != null {
        CountNewest(tokens, before.toks, NewTok(m, String, before.pos + 1, ScanString(js, before.pos + 1).end, before.sup));
      }
    }

    /**
     In strict builds a primitive must not be an object key.  With no superior the
     source inspects the token before the array; here index -1 is "no superior".
     */
    method RefusedAsKey(tokens: array?<Tok>, num: nat) returns (b: bool)
      requires Valid(tokens, num)
      ensures b == PrimitiveAsKey(ModeOf(tokens, num), View(tokens))
    {
      if !strict || tokens == null || toksuper == -1 {
        return false;
      }
      var t := tokens[toksuper];
      return t.typ == Container(Object) || (t.typ == String && t.size != 0);
    }

    /** The case of an unquoted primitive, which strict builds refuse as an object key. */
    method PrimitiveCase(js: string, tokens: array?<Tok>, num: nat) returns (st: Status)
      requires Valid(tokens, num) && !AtEnd(js, pos) && Classify(strict, js[pos]) == Bare
      modifies this`pos, this`toknext, tokens
      ensures tokens != null ==> toknext <= tokens.Length
      ensures tokens == null ==> toknext == 0
      ensures Performed(ModeOf(tokens, num), js, old(View(tokens)), View(tokens), st, 1)
    {
      var refused := RefusedAsKey(tokens, num);
      if refused {
        return Fail(Inval);
      }
      ghost var before, m := View(tokens), ModeOf(tokens, num);
      st := ParsePrimitive(js, tokens, num);
      if st.Fine? && tokens != null {
        CountNewest(tokens, before.toks, NewTok(m, Primitive, before.pos, ScanBare(strict, js, before.pos).end, before.sup));
      }
    }

    /** The main switch. */
    method Dispatch(js: string, tokens: array?<Tok>, num: nat) returns (st: Status, made: nat)
      requires Valid(tokens, num) && !AtEnd(js, pos)
      modifies this, tokens
      ensures tokens != null ==> toknext <= tokens.Length
      ensures tokens == null ==> toknext == 0
      ensures Performed(ModeOf(tokens, num), js, old(View(tokens)), View(tokens), st, made)
    {
      st, made := Fine, 0;
      match Classify(strict, js[pos])
      case Open(k) =>
        made := 1;
        st := OpenBracket(js, tokens, num, k);
      case Close(k) =>
        if tokens != null {
          if links {
            st := CloseBracketLinks(js, tokens, num, k);
          } else {
            st := CloseBracketScan(js, tokens, num, k);
          }
        }
      case Quote =>
        made := 1;
        st := StringCase(js, tokens, num);
      case Blank =>
      case Colon => toksuper := toknext - 1;
      case Comma => CommaCase(js, tokens, num);
      case Bare =>
        made := 1;
        st := PrimitiveCase(js, tokens, num);
      case Illegal => st := Fail(Inval);
    }

    /** One iteration of the main loop. */
    method Iterate(js: string, tokens: array?<Tok>, num: nat) returns (st: Status, made: nat)
      requires Valid(tokens, num) && !AtEnd(js, pos)
      modifies this, tokens
      ensures Valid(tokens, num)
      ensures st.Fine? ==> DoStep(ModeOf(tokens, num), js, old(View(tokens))) == Go(View(tokens), made)
      ensures st.Fail? ==> View(tokens) == old(View(tokens)) && DoStep(ModeOf(tokens, num), js, View(tokens)) == Stop(st.error)
    {
      ghost var before := View(tokens);
      st, made := Dispatch(js, tokens, num);
      if st.Fine? {
        pos := pos + 1;
        StepSane(ModeOf(tokens, num), js, before);
      }
    }

    /** jsmn_parse */
    method Parse(js: string, tokens: array?<Tok>, num: nat) returns (r: Result)
      requires Valid(tokens, num)
      modifies this, tokens
      ensures Valid(tokens, num)
      ensures Final(View(tokens), r) == Run(ModeOf(tokens, num), js, old(View(tokens)))
    {
      ghost var m := ModeOf(tokens, num);
      ghost var whole := Run(m, js, View(tokens));
      var count := 0;
      while pos < |js| && js[pos] != '\0'
        invariant Valid(tokens, num)
        invariant whole == AddCount(Run(m, js, View(tokens)), count)
        decreases |js| - pos
      {
        ghost var before := View(tokens);
        var st, made := Iterate(js, tokens, num);
        if st.Fail? {
          return Err(st.error);
        }
        RunStep(m, js, before, View(tokens), made);
        count := count + made;
      }
      if tokens != null {
        var i := FindOpen(tokens, toknext - 1);
        if i >= 0 {
          return Err(Part);
        }
      }
      return Ok(count);
    }
  }
}
