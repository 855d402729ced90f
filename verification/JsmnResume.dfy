/**
 Resumability: a call that stops early, for whatever reason, can be continued
 with a longer text and a larger token array, and nothing is lost.  The only
 exception is a default (non-strict) build whose text ends inside an unquoted
 primitive; the condition is exact.
 */
module JsmnResume {
  import opened JsmnLexer
  import opened JsmnMachine

  /** The same build with a token array at least as large. */
  predicate Grows(m: Mode, m2: Mode) {
    m.pool.Cap? && m2.pool.Cap? && m.pool.n <= m2.pool.n && m.strict == m2.strict && m.links == m2.links
  }

  /** Where the primitive starting at `p` ends is decided before the text is. */
  predicate Decided(strict: bool, js: string, full: string, p: nat) {
    var s := ScanBare(strict, js, p);
    s.Found? ==> s.end < |js| || AtEnd(full, |js|) || EndsBare(strict, full[|js|])
  }

  /** The text continues a primitive that the parser has already closed: seen from the last token and one character. */
  predicate CutsPrimitive(strict: bool, js: string, full: string, p: Parser) {
    && |js| < |full| && !AtEnd(full, |js|) && !EndsBare(strict, full[|js|])
    && p.toks != []
    && p.toks[|p.toks| - 1].typ == Primitive
    && p.toks[|p.toks| - 1].end == |js|
  }

  /** A step that succeeded does the same on every longer text with every larger array. */
  lemma StepStable(m: Mode, m2: Mode, js: string, full: string, p: Parser)
    requires Grows(m, m2) && js <= full
    requires !AtEnd(js, p.pos) && DoStep(m, js, p).Go?
    requires Classify(m.strict, js[p.pos]) == Bare ==> Decided(m.strict, js, full, p.pos)
    ensures !AtEnd(full, p.pos) && DoStep(m2, full, p) == DoStep(m, js, p)
  {
    match Classify(m.strict, js[p.pos])
    case Quote => ScanStringStable(js, full, p.pos + 1);
    case Bare => ScanBareStable(m.strict, js, full, p.pos);
    case _ =>
  }

  /** A primitive that reaches the end of the text is the last token of the run. */
  lemma UndecidedIsLast(m: Mode, js: string, full: string, p: Parser)
    requires m.pool.Cap? && js <= full
    requires !AtEnd(js, p.pos) && DoStep(m, js, p).Go?
    requires Classify(m.strict, js[p.pos]) == Bare && !Decided(m.strict, js, full, p.pos)
    ensures !m.strict && Run(m, js, p).parser == DoStep(m, js, p).next
    ensures CutsPrimitive(m.strict, js, full, DoStep(m, js, p).next)
  {
  }

  /** A step of a run that ends outside a primitive is the same with the longer text and the larger array. */
  lemma StepAgain(m: Mode, m2: Mode, js: string, full: string, p: Parser, q: Parser, made: nat)
    requires Grows(m, m2) && js <= full && !AtEnd(js, p.pos) && DoStep(m, js, p) == Go(q, made)
    requires m.strict || !CutsPrimitive(m.strict, js, full, Run(m, js, p).parser)
    ensures !AtEnd(full, p.pos) && DoStep(m2, full, p) == Go(q, made)
  {
    if Classify(m.strict, js[p.pos]) == Bare && !Decided(m.strict, js, full, p.pos) {
      UndecidedIsLast(m, js, full, p);
    }
    StepStable(m, m2, js, full, p);
  }

  /** A run from `p` ends as the run `end` from `f`, and counts the tokens between them as well. */
  ghost predicate LeadsTo(m: Mode, js: string, p: Parser, f: Parser, end: Final) {
    |p.toks| <= |f.toks| && Run(m, js, p) == AddCount(end, |f.toks| - |p.toks|)
  }

  lemma LeadsBefore(m: Mode, js: string, p: Parser, q: Parser, made: nat, f: Parser, end: Final)
    requires m.pool.Cap? && !AtEnd(js, p.pos) && DoStep(m, js, p) == Go(q, made) && LeadsTo(m, js, q, f, end)
    ensures LeadsTo(m, js, p, f, end)
  {
    RunStep(m, js, p, q, made);
    Joined(Run(m, js, p), Run(m, js, q), end, made, |f.toks| - |q.toks|);
  }

  lemma {:induction false} ResumeTo(m: Mode, m2: Mode, js: string, full: string, p: Parser, f: Parser, end: Final)
    requires Grows(m, m2) && js <= full && f == Run(m, js, p).parser && end == Run(m2, full, f)
    requires m.strict || !CutsPrimitive(m.strict, js, full, f)
    ensures LeadsTo(m2, full, p, f, end)
    decreases |js| - p.pos
  {
    if !AtEnd(js, p.pos) && DoStep(m, js, p).Go? {
      var q, made := DoStep(m, js, p).next, DoStep(m, js, p).made;
      RunStep(m, js, p, q, made);
      StepAgain(m, m2, js, full, p, q, made);
      ResumeTo(m, m2, js, full, q, f, end);
      LeadsBefore(m2, full, p, q, made, f, end);
    }
  }

  /**
   The main result: whatever the first call returned, calling again with the
   grown text and array gives the tokens, the parser and the error of one run,
   and counts the tokens the first call did not.
   */
  lemma Resume(m: Mode, m2: Mode, js: string, full: string, p: Parser)
    requires Grows(m, m2) && js <= full
    requires m.strict || !CutsPrimitive(m.strict, js, full, Run(m, js, p).parser)
    ensures var f := Run(m, js, p).parser;
            |p.toks| <= |f.toks| && Run(m2, full, p) == AddCount(Run(m2, full, f), |f.toks| - |p.toks|)
  {
    ResumeTo(m, m2, js, full, p, Run(m, js, p).parser, Run(m2, full, Run(m, js, p).parser));
  }

  lemma Joined(whole: Final, rest: Final, end: Final, i: nat, j: nat)
    requires whole == AddCount(rest, i) && rest == AddCount(end, j)
    ensures whole == AddCount(end, i + j)
  {
  }

  /** Once the array is large enough, a larger one makes no difference. */
  lemma {:induction false} EnoughIsEnough(m: Mode, m2: Mode, js: string, p: Parser)
    requires Grows(m, m2) && Run(m, js, p).result != Err(NoMem)
    ensures Run(m2, js, p) == Run(m, js, p)
    decreases |js| - p.pos
  {
    if !AtEnd(js, p.pos) && DoStep(m, js, p).Go? {
      StepStable(m, m2, js, js, p);
      EnoughIsEnough(m, m2, js, DoStep(m, js, p).next);
    }
  }

  // ----- Any number of calls -----

  datatype Call = Call(js: string, cap: nat)

  function ModeFor(strict: bool, links: bool, c: Call): Mode {
    Mode(strict, links, Cap(c.cap))
  }

  /** One call. */
  function After(strict: bool, links: bool, c: Call, p: Parser): Final {
    Run(ModeFor(strict, links, c), c.js, p)
  }

  /** The parser after a sequence of calls on the same parser and (copied) tokens. */
  function Replay(strict: bool, links: bool, calls: seq<Call>, p: Parser): Parser {
    if calls == [] then p
    else Replay(strict, links, calls[1..], After(strict, links, calls[0], p).parser)
  }

  predicate GrowsTo(b: Call, c: Call) {
    b.js <= c.js && b.cap <= c.cap
  }

  /** Each call has at least the text and the tokens of the one before. */
  predicate Growing(calls: seq<Call>) {
    |calls| > 1 ==> GrowsTo(calls[0], calls[1]) && Growing(calls[1..])
  }

  /** The first call, taken alone on `p`, does not leave a primitive that the text of `c` continues. */
  predicate NoCut(strict: bool, links: bool, b: Call, c: Call, p: Parser) {
    strict || !CutsPrimitive(strict, b.js, c.js, After(strict, links, b, p).parser)
  }

  predicate NoCuts(strict: bool, links: bool, calls: seq<Call>, p: Parser) {
    |calls| > 1 ==> NoCut(strict, links, calls[0], calls[1], p) && NoCuts(strict, links, calls[1..], p)
  }

  lemma ResumeCall(strict: bool, links: bool, b: Call, c: Call, p: Parser)
    requires GrowsTo(b, c) && NoCut(strict, links, b, c, p)
    ensures var f := After(strict, links, b, p).parser;
            |p.toks| <= |f.toks| && After(strict, links, c, p) == AddCount(After(strict, links, c, f), |f.toks| - |p.toks|)
  {
    Resume(ModeFor(strict, links, b), ModeFor(strict, links, c), b.js, c.js, p);
  }

  /**
   However many calls it took, and whatever each returned, the parser ends where
   one run on the last text and array ends.
   */
  lemma {:induction false} ReplayIsOneRun(strict: bool, links: bool, calls: seq<Call>, p: Parser)
    requires calls != [] && Growing(calls) && NoCuts(strict, links, calls, p)
    ensures Replay(strict, links, calls, p) == After(strict, links, calls[|calls| - 1], p).parser
    decreases |calls|
  {
    var f := After(strict, links, calls[0], p).parser;
    if |calls| > 1 {
      var rest := calls[1..];
      ResumeCall(strict, links, calls[0], rest[0], p);
      assert Replay(strict, links, rest, f) == Replay(strict, links, rest[1..], After(strict, links, rest[0], f).parser);
      assert Replay(strict, links, rest, p) == Replay(strict, links, rest[1..], After(strict, links, rest[0], p).parser);
      ReplayIsOneRun(strict, links, rest, p);
    } else {
      assert Replay(strict, links, calls[1..], f) == f;
    }
  }

  /** The error or success of the last call is that of one run too; its count covers the tokens it added. */
  lemma LastCallVerdict(strict: bool, links: bool, calls: seq<Call>, c: Call, p: Parser)
    requires calls != [] && Growing(calls) && NoCuts(strict, links, calls, p)
    requires GrowsTo(calls[|calls| - 1], c) && NoCut(strict, links, calls[|calls| - 1], c, p)
    ensures var before := Replay(strict, links, calls, p);
            |p.toks| <= |before.toks| &&
            After(strict, links, c, p) == AddCount(After(strict, links, c, before), |before.toks| - |p.toks|)
  {
    ReplayIsOneRun(strict, links, calls, p);
    ResumeCall(strict, links, calls[|calls| - 1], c, p);
  }

  /** Growing the array after a lack of tokens loses nothing, with no condition on the text. */
  lemma GrowAfterNoMem(m: Mode, m2: Mode, js: string, p: Parser)
    requires Grows(m, m2)
    ensures var f := Run(m, js, p).parser;
            |p.toks| <= |f.toks| && Run(m2, js, p) == AddCount(Run(m2, js, f), |f.toks| - |p.toks|)
  {
    Resume(m, m2, js, js, p);
  }

  // ----- The condition is exact -----

  predicate SameSpan(a: Tok, b: Tok) {
    a.typ == b.typ && a.start == b.start && a.end == b.end
  }

  /** A closed token keeps its type and its boundaries. */
  ghost predicate KeepsClosed(toks: seq<Tok>, later: seq<Tok>) {
    |toks| <= |later| && forall i :: 0 <= i < |toks| && !IsOpen(toks[i]) ==> SameSpan(toks[i], later[i])
  }

  lemma {:induction false} RunKeepsClosed(m: Mode, js: string, p: Parser)
    ensures KeepsClosed(p.toks, Run(m, js, p).parser.toks)
    decreases |js| - p.pos
  {
    if !AtEnd(js, p.pos) && DoStep(m, js, p).Go? {
      var q := DoStep(m, js, p).next;
      RunKeepsClosed(m, js, q);
      forall i | 0 <= i < |p.toks| && !IsOpen(p.toks[i])
        ensures SameSpan(p.toks[i], Run(m, js, p).parser.toks[i])
      {
        assert SameSpan(p.toks[i], q.toks[i]);
      }
    }
  }

  ghost predicate PrimitivesEndBefore(p: Parser, n: nat) {
    forall i :: 0 <= i < |p.toks| && p.toks[i].typ == Primitive ==> 0 <= p.toks[i].end < n
  }

  lemma StepPrimitives(m: Mode, js: string, p: Parser, n: nat)
    requires !AtEnd(js, p.pos) && DoStep(m, js, p).Go? && PrimitivesEndBefore(p, n)
    requires Classify(m.strict, js[p.pos]) == Bare ==> ScanBare(m.strict, js, p.pos).end < n
    ensures PrimitivesEndBefore(DoStep(m, js, p).next, n)
  {
  }

  /** One run over the longer text never closes a primitive at the cut. */
  lemma {:induction false} CutNotInOneRun(m: Mode, m2: Mode, js: string, full: string, p: Parser)
    requires Grows(m, m2) && js <= full && !m.strict
    requires PrimitivesEndBefore(p, |js|)
    requires CutsPrimitive(m.strict, js, full, Run(m, js, p).parser)
    ensures var k := |Run(m, js, p).parser.toks| - 1;
            var h := Run(m2, full, p).parser.toks;
            |h| <= k || h[k].end != |js|
    decreases |js| - p.pos
  {
    assert !AtEnd(js, p.pos) && DoStep(m, js, p).Go?;
    var q := DoStep(m, js, p).next;
    if Classify(m.strict, js[p.pos]) == Bare && ScanBare(m.strict, js, p.pos).end >= |js| {
      UndecidedIsLast(m, js, full, p);
      ScanBareCut(m.strict, js, full, p.pos);
      if DoStep(m2, full, p).Go? {
        RunKeepsClosed(m2, full, DoStep(m2, full, p).next);
      }
    } else {
      StepStable(m, m2, js, full, p);
      StepPrimitives(m, js, p, |js|);
      CutNotInOneRun(m, m2, js, full, q);
    }
  }

  /**
   In the default build, continuing equals one fresh run if and only if the
   split is not inside an unquoted primitive, which the caller can see from the
   last token and the next character.
   */
  lemma ResumeExact(m: Mode, m2: Mode, js: string, full: string)
    requires Grows(m, m2) && js <= full && !m.strict
    ensures Run(m2, full, Run(m, js, Fresh).parser).parser == Run(m2, full, Fresh).parser
            <==> !CutsPrimitive(m.strict, js, full, Run(m, js, Fresh).parser)
  {
    var f := Run(m, js, Fresh).parser;
    if CutsPrimitive(m.strict, js, full, f) {
      CutNotInOneRun(m, m2, js, full, Fresh);
      RunKeepsClosed(m2, full, f);
    } else {
      Resume(m, m2, js, full, Fresh);
    }
  }

  /** The excluded case exists: the text `[12` asks for more, and `[123]` continues a primitive already closed. */
  lemma CutExample()
    ensures var m := Mode(false, false, Cap(8));
            CutsPrimitive(false, "[12", "[123]", Run(m, "[12", Fresh).parser) &&
            Run(m, "[12", Fresh).result == Err(Part)
  {
    var m := Mode(false, false, Cap(8));
    var p1 := DoStep(m, "[12", Fresh).next;
    assert Fresh.pos == 0 && Classify(false, "[12"[0]) == Open(Array);
    assert p1 == Parser(1, [Tok(Container(Array), 0, -1, 0, -1)], 0);
    assert ScanBare(false, "[12", 3) == Found(3);
    assert ScanBare(false, "[12", 2) == Found(3);
    assert ScanBare(false, "[12", 1) == Found(3);
    var p2 := DoStep(m, "[12", p1).next;
    assert p2.pos == 3 && IsOpen(p2.toks[0]) && LastOpen(p2.toks) >= 0;
    assert Run(m, "[12", p2) == Final(p2, Err(Part));
    assert Run(m, "[12", p1) == Final(p2, Err(Part));
  }
}
