/** The counting mode (no token array) against the mode that stores tokens. */
module JsmnCounting {
  import opened JsmnLexer
  import opened JsmnMachine
  import opened JsmnNesting

  function Counting(m: Mode): Mode {
    m.(pool := NoPool)
  }

  /** A counting parser stores nothing but its position. */
  function Counter(pos: nat): Parser {
    Parser(pos, [], -1)
  }

  lemma StepCounts(m: Mode, js: string, p: Parser)
    requires !AtEnd(js, p.pos) && DoStep(m, js, p).Go?
    ensures DoStep(Counting(m), js, Counter(p.pos)) == Go(Counter(DoStep(m, js, p).next.pos), DoStep(m, js, p).made)
  {
  }

  /** A parse with tokens that succeeds returns what the count returns. */
  lemma {:induction false} CountAgrees(m: Mode, js: string, p: Parser)
    requires Run(m, js, p).result.Ok?
    ensures Run(Counting(m), js, Counter(p.pos)).result == Run(m, js, p).result
    decreases |js| - p.pos
  {
    if !AtEnd(js, p.pos) {
      var q, made := DoStep(m, js, p).next, DoStep(m, js, p).made;
      StepCounts(m, js, p);
      RunStep(m, js, p, q, made);
      RunStep(Counting(m), js, Counter(p.pos), Counter(q.pos), made);
      CountAgrees(m, js, q);
    }
  }

  /** The lexeme that finds no token left is counted. */
  lemma NoMemCounts(m: Mode, js: string, p: Parser)
    requires m.pool.Cap? && !AtEnd(js, p.pos) && DoStep(m, js, p) == Stop(NoMem)
    ensures m.pool.n <= |p.toks|
    ensures Run(Counting(m), js, Counter(p.pos)).result.Ok? ==> Run(Counting(m), js, Counter(p.pos)).result.count > 0
  {
  }

  /** As many tokens as were counted are enough. */
  lemma {:induction false} CountSuffices(m: Mode, js: string, p: Parser)
    requires m.pool.Cap? && Run(Counting(m), js, Counter(p.pos)).result.Ok?
    requires |p.toks| + Run(Counting(m), js, Counter(p.pos)).result.count <= m.pool.n
    ensures Run(m, js, p).result != Err(NoMem)
    decreases |js| - p.pos
  {
    if !AtEnd(js, p.pos) {
      if DoStep(m, js, p).Go? {
        var q, made := DoStep(m, js, p).next, DoStep(m, js, p).made;
        StepCounts(m, js, p);
        RunStep(m, js, p, q, made);
        RunStep(Counting(m), js, Counter(p.pos), Counter(q.pos), made);
        CountSuffices(m, js, q);
      } else if DoStep(m, js, p) == Stop(NoMem) {
        NoMemCounts(m, js, p);
      }
    }
  }

  lemma {:induction false} RunWithinPool(m: Mode, js: string, p: Parser)
    requires m.pool.Cap? && |p.toks| <= m.pool.n
    ensures |Run(m, js, p).parser.toks| <= m.pool.n
    decreases |js| - p.pos
  {
    if !AtEnd(js, p.pos) && DoStep(m, js, p).Go? {
      RunWithinPool(m, js, DoStep(m, js, p).next);
    }
  }

  /**
   What the count promises a caller who allocates by it: `n` tokens or more never
   run out, fewer never succeed, and any success returns `n`.
   */
  lemma CountIsTheNeed(m: Mode, js: string)
    requires m.pool.Cap? && Run(Counting(m), js, Fresh).result.Ok?
    ensures var n := Run(Counting(m), js, Fresh).result.count;
            var r := Run(m, js, Fresh).result;
            (n <= m.pool.n ==> r != Err(NoMem)) && (m.pool.n < n ==> !r.Ok?) && (r.Ok? ==> r == Ok(n))
  {
    assert Fresh == Counter(0);
    if Run(Counting(m), js, Fresh).result.count <= m.pool.n {
      CountSuffices(m, js, Fresh);
    }
    if Run(m, js, Fresh).result.Ok? {
      CountAgrees(m, js, Fresh);
      RunWithinPool(m, js, Fresh);
      RunSane(m, js, Fresh);
    }
  }

  /** A text that some array is large enough for fails with a smaller one only for lack of tokens. */
  lemma {:induction false} OnlyNoMem(m: Mode, m2: Mode, js: string, p: Parser)
    requires m.pool.Cap? && m2 == m.(pool := m2.pool) && m2.pool.Cap? && m.pool.n <= m2.pool.n
    requires Run(m2, js, p).result.Ok?
    ensures Run(m, js, p).result.Ok? || Run(m, js, p).result == Err(NoMem)
    decreases |js| - p.pos
  {
    if !AtEnd(js, p.pos) && DoStep(m, js, p) != Stop(NoMem) {
      assert DoStep(m2, js, p) == DoStep(m, js, p);
      OnlyNoMem(m, m2, js, DoStep(m, js, p).next);
    }
  }

  lemma {:induction false} NoMemIsFull(m: Mode, js: string, p: Parser)
    requires m.pool.Cap? && Run(m, js, p).result == Err(NoMem)
    ensures m.pool.n <= |Run(m, js, p).parser.toks|
    decreases |js| - p.pos
  {
    if DoStep(m, js, p).Go? {
      NoMemIsFull(m, js, DoStep(m, js, p).next);
    } else {
      NoMemCounts(m, js, p);
    }
  }

  lemma {:induction false} StartsAtLeast(js: string, p: Parser, i: nat)
    requires Tidy(js, p) && i < |p.toks|
    ensures p.toks[i].start >= i
    decreases i
  {
    if i > 0 {
      StartsAtLeast(js, p, i - 1);
      assert NestedOrAfter(p.toks[i - 1], p.toks[i]);
    }
  }

  /** On any text, more tokens than characters never run out: doubling the array comes to an end. */
  lemma TextBoundsTokens(m: Mode, js: string)
    requires m.pool.Cap?
    ensures |Run(m, js, Fresh).parser.toks| <= |js|
    ensures m.pool.n > |js| ==> Run(m, js, Fresh).result != Err(NoMem)
  {
    LoopHeadInv(m, js, Fresh, |js|);
    RunIsSteps(m, js, Fresh, |js|);
    var f := Run(m, js, Fresh);
    if f.parser.toks != [] {
      var k := |f.parser.toks| - 1;
      StartsAtLeast(js, f.parser, k);
      assert Placed(js, f.parser.pos, f.parser.toks[k]);
    }
    if f.result == Err(NoMem) {
      NoMemIsFull(m, js, Fresh);
    }
  }
}
