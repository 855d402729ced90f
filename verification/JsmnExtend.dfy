/**
 What the two failures mean: `Part` asks for more text and `Inval` says that no
 more text will help.  That is exact, but for a NUL byte, which ends the text for
 good: with one in it, more text changes nothing.
 */
module JsmnExtend {
  import opened JsmnLexer
  import opened JsmnMachine
  import opened JsmnNesting
  import opened JsmnResume

  // ----- A NUL byte -----

  predicate NoNul(js: string, p: nat) {
    forall k :: p <= k < |js| ==> js[k] != '\0'
  }

  lemma {:induction false} NulScanHex(js: string, full: string, p: nat, n: nat, z: nat)
    requires js <= full && p <= z < |js| && js[z] == '\0'
    ensures ScanHex(full, p, n) == ScanHex(js, p, n) && (ScanHex(js, p, n).Found? ==> ScanHex(js, p, n).end <= z)
    decreases n
  {
    if n > 0 && !AtEnd(js, p) && IsHexDigit(js[p]) {
      NulScanHex(js, full, p + 1, n - 1, z);
    }
  }

  lemma {:induction false} NulScanString(js: string, full: string, p: nat, z: nat)
    requires js <= full && p <= z < |js| && js[z] == '\0'
    ensures ScanString(full, p) == ScanString(js, p) && (ScanString(js, p).Found? ==> ScanString(js, p).end < z)
    decreases z - p
  {
    if AtEnd(js, p) || js[p] == '\"' {
    } else if js[p] == '\\' {
      if IsEscapable(js[p + 1]) {
        NulScanString(js, full, p + 2, z);
      } else if js[p + 1] == 'u' {
        NulScanHex(js, full, p + 2, 4, z);
        if ScanHex(js, p + 2, 4).Found? {
          NulScanString(js, full, ScanHex(js, p + 2, 4).end, z);
        }
      }
    } else {
      NulScanString(js, full, p + 1, z);
    }
  }

  lemma {:induction false} NulScanBare(strict: bool, js: string, full: string, p: nat, z: nat)
    requires js <= full && p <= z < |js| && js[z] == '\0'
    ensures ScanBare(strict, full, p) == ScanBare(strict, js, p) && (ScanBare(strict, js, p).Found? ==> ScanBare(strict, js, p).end <= z)
    decreases z - p
  {
    if InBare(strict, js, p) {
      NulScanBare(strict, js, full, p + 1, z);
    }
  }

  lemma NulStep(m: Mode, js: string, full: string, p: Parser, z: nat)
    requires js <= full && p.pos < z < |js| && js[z] == '\0' && !AtEnd(js, p.pos)
    ensures DoStep(m, full, p) == DoStep(m, js, p) && (DoStep(m, js, p).Go? ==> DoStep(m, js, p).next.pos <= z)
  {
    NulScanString(js, full, p.pos + 1, z);
    NulScanBare(m.strict, js, full, p.pos, z);
  }

  /** What follows a NUL byte is never read. */
  lemma {:induction false} NulEndsText(m: Mode, js: string, full: string, p: Parser, z: nat)
    requires js <= full && p.pos <= z < |js| && js[z] == '\0'
    ensures Run(m, full, p) == Run(m, js, p)
    decreases z - p.pos
  {
    if !AtEnd(js, p.pos) {
      NulStep(m, js, full, p, z);
      if DoStep(m, js, p).Go? {
        NulEndsText(m, js, full, DoStep(m, js, p).next, z);
      }
    }
  }

  // ----- Strings -----

  /** Something behind `js` makes the string at `p` end there. */
  ghost predicate CanEnd(js: string, p: nat) {
    exists ext: string :: ScanString(js + ext, p).Found?
  }

  lemma {:induction false} FillHex(js: string, full: string, p: nat, n: nat)
    requires js < full && p <= |js| <= p + n <= |full| && NoNul(js, p) && ScanHex(js, p, n) == Found(|js|)
    requires forall k :: |js| <= k < p + n ==> full[k] == '0'
    ensures ScanHex(full, p, n) == Found(p + n)
    decreases n
  {
    if n > 0 {
      if p < |js| {
        FillHex(js, full, p + 1, n - 1);
      } else {
        FillZeros(full, p, n);
      }
    }
  }

  lemma {:induction false} FillZeros(full: string, p: nat, n: nat)
    requires p + n <= |full| && forall k :: p <= k < p + n ==> full[k] == '0'
    ensures ScanHex(full, p, n) == Found(p + n)
    decreases n
  {
    if n > 0 {
      FillZeros(full, p + 1, n - 1);
    }
  }

  /** What completes a string: the rest of an escape, and the quote. */
  function Filling(js: string, p: nat): (t: string)
    ensures t != "" && t[|t| - 1] == '\"'
    decreases |js| - p
  {
    if p >= |js| then "\""
    else if js[p] == '\\' && p + 1 == |js| then "\"\""
    else if js[p] == '\\' && IsEscapable(js[p + 1]) then Filling(js, p + 2)
    else if js[p] == '\\' && js[p + 1] == 'u' then if p + 6 <= |js| then Filling(js, p + 6) else "0000"[..p + 6 - |js|] + "\""
    else Filling(js, p + 1)
  }

  lemma HexToEnd(js: string, p: nat, n: nat)
    requires p <= |js| <= p + n && NoNul(js, p) && ScanHex(js, p, n).Found?
    ensures ScanHex(js, p, n) == Found(|js|)
  {
  }

  lemma CutEscape(js: string, p: nat, full: string)
    requires p + 1 < |js| && js[p] == '\\' && js[p + 1] == 'u' && p + 6 > |js| && NoNul(js, p) && ScanString(js, p).Short?
    requires js <= full && |js + Filling(js, p)| <= |full| && full[..|js + Filling(js, p)|] == js + Filling(js, p)
    ensures ScanString(full, p) == Found(|js| + |Filling(js, p)| - 1)
  {
    var fill := js + Filling(js, p);
    assert |Filling(js, p)| == p + 7 - |js|;
    HexToEnd(js, p + 2, 4);
    forall k | |js| <= k < p + 6
      ensures full[k] == '0'
    {
      assert full[k] == fill[k] == Filling(js, p)[k - |js|];
    }
    FillHex(js, full, p + 2, 4);
    assert full[p + 6] == fill[p + 6] == '\"';
  }

  /** A string cut by the end of the text ends, in any longer text that goes on like that, at the quote added. */
  lemma {:induction false} FillingEnds(js: string, p: nat, full: string)
    requires p <= |js| && NoNul(js, p) && ScanString(js, p).Short?
    requires js <= full && |js + Filling(js, p)| <= |full| && full[..|js + Filling(js, p)|] == js + Filling(js, p)
    ensures ScanString(full, p) == Found(|js| + |Filling(js, p)| - 1)
    decreases |js| - p
  {
    var fill := js + Filling(js, p);
    if p == |js| {
      assert full[p] == fill[p] == '\"';
    } else if js[p] == '\\' {
      if p + 1 == |js| {
        assert full[p + 1] == fill[p + 1] == '\"' && full[p + 2] == fill[p + 2] == '\"';
      } else if IsEscapable(js[p + 1]) {
        FillingEnds(js, p + 2, full);
      } else if p + 6 <= |js| {
        HexWhole(js, full, p + 2);
        FillingEnds(js, p + 6, full);
      } else {
        CutEscape(js, p, full);
      }
    } else {
      FillingEnds(js, p + 1, full);
    }
  }

  lemma HexWhole(js: string, full: string, p: nat)
    requires js <= full && p + 4 <= |js| && NoNul(js, p) && ScanHex(js, p, 4).Found?
    ensures ScanHex(js, p, 4) == ScanHex(full, p, 4) == Found(p + 4)
  {
    ScanHexStable(js, full, p, 4);
  }

  /** A string can still end, in some longer text, if and only if it has ended, or is cut short with no NUL byte in it. */
  lemma StringCanEndIff(js: string, p: nat)
    requires p <= |js|
    ensures CanEnd(js, p) <==> ScanString(js, p).Found? || (ScanString(js, p).Short? && NoNul(js, p))
  {
    var s := ScanString(js, p);
    if !s.Short? {
      forall ext: string
        ensures ScanString(js + ext, p) == s
      {
        ScanStringStable(js, js + ext, p);
      }
      assert s == ScanString(js + "", p);
    } else if !NoNul(js, p) {
      var z :| p <= z < |js| && js[z] == '\0';
      forall ext: string
        ensures ScanString(js + ext, p).Short?
      {
        NulScanString(js, js + ext, p, z);
      }
    } else {
      FillingEnds(js, p, js + Filling(js, p));
    }
  }

  // ----- Whole texts -----

  /** Some longer text, with some larger array, is accepted. */
  ghost predicate CanSucceed(m: Mode, js: string)
    requires m.pool.Cap?
  {
    exists ext: string, n: nat :: Accepts(m, js + ext, n)
  }

  ghost predicate Accepts(m: Mode, full: string, n: nat)
    requires m.pool.Cap?
  {
    m.pool.n <= n && Run(m.(pool := Cap(n)), full, Fresh).result.Ok?
  }

  lemma InvalStep(m: Mode, m2: Mode, js: string, full: string, p: Parser)
    requires Grows(m, m2) && js <= full && !AtEnd(js, p.pos) && DoStep(m, js, p) == Stop(Inval)
    ensures !AtEnd(full, p.pos) && DoStep(m2, full, p) == Stop(Inval)
  {
    match Classify(m.strict, js[p.pos])
    case Quote => ScanStringStable(js, full, p.pos + 1);
    case Bare =>
      if ScanBare(m.strict, js, p.pos) == Bad {
        ScanBareStable(m.strict, js, full, p.pos);
      }
    case _ =>
  }

  /** An invalid text stays invalid. */
  lemma {:induction false} InvalLasts(m: Mode, m2: Mode, js: string, full: string, p: Parser)
    requires Grows(m, m2) && js <= full && Run(m, js, p).result == Err(Inval)
    ensures Run(m2, full, p).result == Err(Inval)
    decreases |js| - p.pos
  {
    match DoStep(m, js, p)
    case Stop(_) => InvalStep(m, m2, js, full, p);
    case Go(q, made) =>
      if Classify(m.strict, js[p.pos]) == Bare && !Decided(m.strict, js, full, p.pos) {
        UndecidedIsLast(m, js, full, p);
      }
      StepStable(m, m2, js, full, p);
      RunStep(m2, full, p, q, made);
      InvalLasts(m, m2, js, full, q);
  }

  /** The closing brackets that the open tokens below `n` ask for. */
  function Closers(toks: seq<Tok>, n: nat): string
    requires n <= |toks|
  {
    var i := OpenBelow(toks, n);
    if i < 0 then "" else [if toks[i].typ == Container(Object) then '}' else ']'] + Closers(toks, i)
  }

  lemma {:induction false} ClosersSame(toks: seq<Tok>, later: seq<Tok>, n: nat)
    requires n <= |toks| <= |later| && forall k :: 0 <= k < n ==> later[k].typ == toks[k].typ && IsOpen(later[k]) == IsOpen(toks[k])
    ensures Closers(later, n) == Closers(toks, n)
    decreases n
  {
    OpenBelowSame(toks, later, n);
    var i := OpenBelow(toks, n);
    if i >= 0 {
      ClosersSame(toks, later, i);
    }
  }

  lemma {:induction false} SkipsClosed(toks: seq<Tok>, n: nat, k: nat)
    requires n <= k <= |toks| && forall i :: n <= i < k ==> !IsOpen(toks[i])
    ensures OpenBelow(toks, k) == OpenBelow(toks, n) && Closers(toks, k) == Closers(toks, n)
    decreases k
  {
    if k > n {
      SkipsClosed(toks, n, k - 1);
    }
  }

  /** The innermost open token is closed by the first of them. */
  lemma CloserStep(m: Mode, full: string, p: Parser) returns (q: Parser)
    requires Sane(m, p) && m.pool.Cap? && LastOpen(p.toks) >= 0 && p.pos < |full| && full[p.pos] == Closers(p.toks, |p.toks|)[0]
    ensures DoStep(m, full, p) == Go(q, 0) && Sane(m, q) && q.pos == p.pos + 1
    ensures Closers(p.toks, |p.toks|) == [full[p.pos]] + Closers(q.toks, |q.toks|)
  {
    var i := LastOpen(p.toks);
    assert IsOpen(p.toks[i]) && p.toks[i].typ.Container?;
    var k := p.toks[i].typ.kind;
    assert full[p.pos] == if k == Object then '}' else ']';
    ClosesInnermost(m, full, p, k);
    q := DoStep(m, full, p).next;
    StepSane(m, full, p);
    SkipsClosed(q.toks, i, |q.toks|);
    ClosersSame(p.toks, q.toks, i);
  }

  lemma {:induction false} ClosersRun(m: Mode, full: string, p: Parser)
    requires Sane(m, p) && m.pool.Cap? && p.pos <= |full| && full[p.pos..] == Closers(p.toks, |p.toks|)
    ensures Run(m, full, p).result == Ok(0)
    decreases |full| - p.pos
  {
    if LastOpen(p.toks) >= 0 {
      assert full[p.pos] == full[p.pos..][0];
      var q := CloserStep(m, full, p);
      assert full[q.pos..] == full[p.pos..][1..];
      ClosersRun(m, full, q);
      RunStep(m, full, p, q, 0);
    }
  }

  lemma {:induction false} WordToEnd(js: string, full: string, p: nat)
    requires p <= |js| && NoNul(js, p) && ScanBare(true, js, p).Short? && js <= full && |js| < |full| && full[|js|] == ' '
    ensures ScanBare(true, full, p) == Found(|js|)
    decreases |js| - p
  {
    if p < |js| {
      WordToEnd(js, full, p + 1);
    }
  }

  /** What completes the lexeme in which the text stopped. */
  function Ending(js: string, p: Parser): string {
    if AtEnd(js, p.pos) then "" else if js[p.pos] == '\"' then Filling(js, p.pos + 1) else " "
  }

  /** A token stored and closed leaves the same brackets open. */
  lemma StoredClosers(p: Parser, q: Parser, t: Tok)
    requires q.toks == Bump(p.toks, p.sup) + [t] && !IsOpen(t)
    ensures Closers(q.toks, |q.toks|) == Closers(p.toks, |p.toks|)
  {
    SkipsClosed(q.toks, |p.toks|, |q.toks|);
    ClosersSame(p.toks, q.toks, |p.toks|);
  }

  lemma QuoteCompletes(m: Mode, js: string, full: string, p: Parser, t: string)
    requires Sane(m, p) && m.pool.Cap? && |p.toks| < m.pool.n && p.pos < |js| && js[p.pos] == '\"' && NoNul(js, p.pos)
    requires ScanString(js, p.pos + 1).Short? && t == Filling(js, p.pos + 1) && full == js + (t + Closers(p.toks, |p.toks|))
    ensures Run(m, full, p).result.Ok?
  {
    var e := |js| + |t| - 1;
    assert full[..|js + t|] == js + t;
    FillingEnds(js, p.pos + 1, full);
    var tok := NewTok(m, String, p.pos + 1, e, p.sup);
    var q := Parser(e + 1, Bump(p.toks, p.sup) + [tok], p.sup);
    assert DoStep(m, full, p) == Go(q, 1);
    StepSane(m, full, p);
    StoredClosers(p, q, tok);
    assert full[q.pos..] == Closers(p.toks, |p.toks|);
    ClosersRun(m, full, q);
    RunStep(m, full, p, q, 1);
  }

  lemma WordCompletes(m: Mode, js: string, full: string, p: Parser)
    requires Sane(m, p) && m.pool.Cap? && |p.toks| < m.pool.n && m.strict && p.pos < |js| && NoNul(js, p.pos) && !PrimitiveAsKey(m, p)
    requires Classify(true, js[p.pos]) == Bare && ScanBare(true, js, p.pos).Short? && full == js + (" " + Closers(p.toks, |p.toks|))
    ensures Run(m, full, p).result.Ok?
  {
    assert full[|js|] == ' ';
    WordToEnd(js, full, p.pos);
    var tok := NewTok(m, Primitive, p.pos, |js|, p.sup);
    var q := Parser(|js|, Bump(p.toks, p.sup) + [tok], p.sup);
    assert DoStep(m, full, p) == Go(q, 1);
    StepSane(m, full, p);
    StoredClosers(p, q, tok);
    var q2 := q.(pos := |js| + 1);
    assert DoStep(m, full, q) == Go(q2, 0);
    assert full[q2.pos..] == Closers(p.toks, |p.toks|);
    ClosersRun(m, full, q2);
    RunStep(m, full, p, q, 1);
    RunStep(m, full, q, q2, 0);
  }

  /** Where and why a run asks for more. */
  lemma {:induction false} PartStops(m: Mode, js: string, p: Parser)
    requires m.pool.Cap? && p.pos <= |js| && Run(m, js, p).result == Err(Part)
    ensures var f := Run(m, js, p).parser;
            && f.pos <= |js| && (if AtEnd(js, f.pos) then LastOpen(f.toks) >= 0 else DoStep(m, js, f) == Stop(Part))
    decreases |js| - p.pos
  {
    if !AtEnd(js, p.pos) && DoStep(m, js, p).Go? {
      PartStops(m, js, DoStep(m, js, p).next);
    }
  }

  /** The run goes on to a success from where it stopped. */
  lemma PartCompletes(m: Mode, m2: Mode, js: string, full: string, f: Parser)
    requires Grows(m, m2) && Sane(m, f) && |f.toks| < m2.pool.n && f.pos <= |js| && NoNul(js, 0)
    requires if AtEnd(js, f.pos) then LastOpen(f.toks) >= 0 else DoStep(m, js, f) == Stop(Part)
    requires full == js + (Ending(js, f) + Closers(f.toks, |f.toks|))
    ensures Run(m2, full, f).result.Ok?
  {
    if AtEnd(js, f.pos) {
      assert full[f.pos..] == Closers(f.toks, |f.toks|);
      ClosersRun(m2, full, f);
    } else if js[f.pos] == '\"' {
      QuoteCompletes(m2, js, full, f, Filling(js, f.pos + 1));
    } else {
      WordCompletes(m2, js, full, f);
    }
  }

  /** The added text does not continue a primitive. */
  lemma EndingCutsNothing(m: Mode, js: string, full: string, f: Parser)
    requires Tidy(js, f) && NoNul(js, 0) && full == js + (Ending(js, f) + Closers(f.toks, |f.toks|))
    requires AtEnd(js, f.pos) ==> LastOpen(f.toks) >= 0
    ensures !CutsPrimitive(m.strict, js, full, f)
  {
    if f.toks != [] {
      assert Placed(js, f.pos, f.toks[|f.toks| - 1]);
    }
    if AtEnd(js, f.pos) {
      assert full[|js|] == Closers(f.toks, |f.toks|)[0];
    }
  }

  lemma RunLoopInv(m: Mode, js: string)
    requires m.pool.Cap?
    ensures LoopInv(m, js, Run(m, js, Fresh).parser)
  {
    LoopHeadInv(m, js, Fresh, |js|);
    RunIsSteps(m, js, Fresh, |js|);
  }

  /** A text that only asks for more can be completed. */
  lemma PartCanSucceed(m: Mode, js: string)
    requires m.pool.Cap? && Run(m, js, Fresh).result == Err(Part) && NoNul(js, 0)
    ensures CanSucceed(m, js)
  {
    var f := Run(m, js, Fresh).parser;
    var n := m.pool.n + |f.toks| + 1;
    var m2 := m.(pool := Cap(n));
    var ext := Ending(js, f) + Closers(f.toks, |f.toks|);
    PartStops(m, js, Fresh);
    RunLoopInv(m, js);
    GoesOn(m, m2, js, js + ext, f, Run(m2, js + ext, f));
    assert Accepts(m, js + ext, n);
  }

  lemma GoesOn(m: Mode, m2: Mode, js: string, full: string, f: Parser, end: Final)
    requires Grows(m, m2) && f == Run(m, js, Fresh).parser && end == Run(m2, full, f) && Sane(m, f) && Tidy(js, f) && NoNul(js, 0)
    requires |f.toks| < m2.pool.n && if AtEnd(js, f.pos) then LastOpen(f.toks) >= 0 else DoStep(m, js, f) == Stop(Part)
    requires full == js + (Ending(js, f) + Closers(f.toks, |f.toks|))
    ensures Run(m2, full, Fresh).result.Ok?
  {
    EndingCutsNothing(m, js, full, f);
    ResumeTo(m, m2, js, full, Fresh, f, end);
    PartCompletes(m, m2, js, full, f);
  }

  /**
   For every text, in every build: it can be completed to an accepted text if and
   only if the run succeeds, or asks for more and has met no NUL byte.
   */
  lemma CanSucceedIff(m: Mode, js: string)
    requires m.pool.Cap? && Run(m, js, Fresh).result != Err(NoMem)
    ensures CanSucceed(m, js) <==> Run(m, js, Fresh).result.Ok? || (Run(m, js, Fresh).result == Err(Part) && NoNul(js, 0))
  {
    var r := Run(m, js, Fresh).result;
    if r.Ok? {
      assert js + "" == js;
      assert Accepts(m, js + "", m.pool.n);
    } else if r == Err(Part) && NoNul(js, 0) {
      PartCanSucceed(m, js);
    } else {
      assert r == Err(r.error) && r.error != NoMem;
      forall ext: string, n: nat | m.pool.n <= n
        ensures !Accepts(m, js + ext, n)
      {
        NoMoreHelps(m, js, ext, n);
      }
    }
  }

  lemma NoMoreHelps(m: Mode, js: string, ext: string, n: nat)
    requires m.pool.Cap? && m.pool.n <= n && Run(m, js, Fresh).result.Err? && Run(m, js, Fresh).result != Err(NoMem)
    requires Run(m, js, Fresh).result == Err(Inval) || !NoNul(js, 0)
    ensures Run(m.(pool := Cap(n)), js + ext, Fresh).result == Run(m, js, Fresh).result
  {
    var m2 := m.(pool := Cap(n));
    if Run(m, js, Fresh).result == Err(Inval) {
      InvalLasts(m, m2, js, js + ext, Fresh);
    } else {
      var z :| 0 <= z < |js| && js[z] == '\0';
      NulEndsText(m2, js, js + ext, Fresh, z);
      EnoughIsEnough(m, m2, js, Fresh);
    }
  }
}
