/**
 What holds at every loop head and at every exit, on any text: the order and
 nesting of token spans, and the agreement of the implicit stack with an
 explicit pushdown recogniser, by which each container spans a matched pair.
 */
module JsmnNesting {
  import opened JsmnLexer
  import opened JsmnMachine

  /** The parser after `n` lexemes, or where it got stuck before that. */
  function Steps(m: Mode, js: string, p: Parser, n: nat): Parser
    decreases n
  {
    if n == 0 || AtEnd(js, p.pos) || DoStep(m, js, p).Stop? then p
    else Steps(m, js, DoStep(m, js, p).next, n - 1)
  }

  /** Every exit of a run is a loop head. */
  lemma {:induction false} RunIsSteps(m: Mode, js: string, p: Parser, n: nat)
    requires |js| - p.pos <= n
    ensures Run(m, js, p).parser == Steps(m, js, p, n)
    decreases n
  {
    if n > 0 && !AtEnd(js, p.pos) && DoStep(m, js, p).Go? {
      RunIsSteps(m, js, DoStep(m, js, p).next, n - 1);
    }
  }

  /** A success has read to the end. */
  lemma {:induction false} SuccessAtEnd(m: Mode, js: string, p: Parser)
    requires Run(m, js, p).result.Ok?
    ensures AtEnd(js, Run(m, js, p).parser.pos)
    decreases |js| - p.pos
  {
    if !AtEnd(js, p.pos) {
      SuccessAtEnd(m, js, DoStep(m, js, p).next);
    }
  }

  // ----- Spans -----

  /** The span of a token lies in the text read so far; a container starts and ends with brackets of its kind. */
  predicate Placed(js: string, pos: nat, t: Tok) {
    && 0 <= t.start < pos <= |js|
    && (t.end != -1 ==> t.start <= t.end <= pos)
    && (t.typ.Container? ==>
          && js[t.start] == Opener(t.typ.kind)
          && (t.end != -1 ==> t.start + 1 < t.end && js[t.end - 1] == Closer(t.typ.kind)))
  }

  /** The later token `b` lies inside `a`, or after it. */
  predicate NestedOrAfter(a: Tok, b: Tok) {
    && a.start < b.start
    && (a.end == -1 || a.end <= b.start || (b.end != -1 && b.end <= a.end))
  }

  ghost predicate Tidy(js: string, p: Parser) {
    && p.pos <= |js|
    && (forall i :: 0 <= i < |p.toks| ==> Placed(js, p.pos, p.toks[i]))
    && (forall i, j :: 0 <= i < j < |p.toks| ==> NestedOrAfter(p.toks[i], p.toks[j]))
  }

  lemma StoredTidy(js: string, p: Parser, t: Tok, q: Parser)
    requires Tidy(js, p) && p.pos <= t.start && Placed(js, q.pos, t) && p.pos <= q.pos
    requires q.toks == Bump(p.toks, p.sup) + [t]
    ensures Tidy(js, q)
  {
  }

  lemma ClosedTidy(js: string, p: Parser, i: nat, q: Parser)
    requires Tidy(js, p) && i == LastOpen(p.toks) && p.toks[i].typ.Container?
    requires p.pos < |js| && js[p.pos] == Closer(p.toks[i].typ.kind)
    requires q.pos == p.pos + 1 && q.toks == CloseAt(p.toks, i, p.pos + 1)
    ensures Tidy(js, q)
  {
  }

  lemma MovedTidy(js: string, p: Parser, q: Parser)
    requires Tidy(js, p) && q.toks == p.toks && p.pos <= q.pos <= |js|
    ensures Tidy(js, q)
  {
  }

  /** With or without parent links, a closing bracket closes the innermost open token. */
  lemma ClosesInnermost(m: Mode, js: string, p: Parser, k: Kind)
    requires Sane(m, p) && m.pool.Cap? && !AtEnd(js, p.pos) && Classify(m.strict, js[p.pos]) == Close(k)
    ensures var i := LastOpen(p.toks);
            var s := DoStep(m, js, p);
            if i < 0 then s == if m.links && p.toks != [] then Go(p.(pos := p.pos + 1), 0) else Stop(Inval)
            else if p.toks[i].typ != Container(k) then s == Stop(Inval)
            else s.Go? && s.made == 0 && s.next.pos == p.pos + 1 && s.next.toks == CloseAt(p.toks, i, p.pos + 1)
  {
    if m.links && p.toks != [] {
      ChainMeetsLastOpen(p.toks, |p.toks| - 1);
    }
  }

  lemma StepTidy(m: Mode, js: string, p: Parser)
    requires Sane(m, p) && m.pool.Cap? && Tidy(js, p) && !AtEnd(js, p.pos) && DoStep(m, js, p).Go?
    ensures Tidy(js, DoStep(m, js, p).next)
  {
    var q := DoStep(m, js, p).next;
    match Classify(m.strict, js[p.pos])
    case Open(k) => StoredTidy(js, p, NewTok(m, Container(k), p.pos, -1, p.sup), q);
    case Close(k) =>
      ClosesInnermost(m, js, p, k);
      if LastOpen(p.toks) >= 0 {
        ClosedTidy(js, p, LastOpen(p.toks), q);
      } else {
        MovedTidy(js, p, q);
      }
    case Quote => StoredTidy(js, p, NewTok(m, String, p.pos + 1, ScanString(js, p.pos + 1).end, p.sup), q);
    case Bare => StoredTidy(js, p, NewTok(m, Primitive, p.pos, ScanBare(m.strict, js, p.pos).end, p.sup), q);
    case _ => MovedTidy(js, p, q);
  }

  /** What holds at every loop head. */
  ghost predicate LoopInv(m: Mode, js: string, p: Parser) {
    Sane(m, p) && Tidy(js, p) && Paired(m.strict, js, p)
  }

  lemma StepInv(m: Mode, js: string, p: Parser)
    requires m.pool.Cap? && LoopInv(m, js, p) && !AtEnd(js, p.pos) && DoStep(m, js, p).Go?
    ensures LoopInv(m, js, DoStep(m, js, p).next)
  {
    StepSane(m, js, p);
    StepTidy(m, js, p);
    StepPaired(m, js, p, DoStep(m, js, p).next);
  }

  /** At every loop head, on any text and in every build. */
  lemma {:induction false} LoopHeadInv(m: Mode, js: string, p: Parser, n: nat)
    requires m.pool.Cap? && LoopInv(m, js, p)
    ensures LoopInv(m, js, Steps(m, js, p, n))
    decreases n
  {
    if n > 0 && !AtEnd(js, p.pos) && DoStep(m, js, p).Go? {
      StepInv(m, js, p);
      LoopHeadInv(m, js, DoStep(m, js, p).next, n - 1);
    }
  }

  /** Success closes everything: each container token spans a bracket of its own kind and the bracket that matches it. */
  lemma SuccessIsMatched(m: Mode, js: string)
    requires m.pool.Cap? && Run(m, js, Fresh).result.Ok?
    ensures var toks := Run(m, js, Fresh).parser.toks;
            forall i :: 0 <= i < |toks| ==>
              && 0 <= toks[i].start <= toks[i].end <= |js|
              && (toks[i].typ.Container? ==>
                    && toks[i].start + 1 < toks[i].end
                    && js[toks[i].start] == Opener(toks[i].typ.kind) && js[toks[i].end - 1] == Closer(toks[i].typ.kind)
                    && Matched(m.strict, js, toks[i].start, toks[i].end))
  {
    LoopHeadInv(m, js, Fresh, |js|);
    RunIsSteps(m, js, Fresh, |js|);
    var f := Run(m, js, Fresh);
    SuccessIsClosed(m, js, Fresh);
    forall i | 0 <= i < |f.parser.toks|
      ensures Placed(js, f.parser.pos, f.parser.toks[i]) && !IsOpen(f.parser.toks[i])
      ensures PairedAt(m.strict, js, f.parser, i)
    {
    }
  }

  lemma {:induction false} SuccessIsClosed(m: Mode, js: string, p: Parser)
    requires Run(m, js, p).result.Ok?
    ensures LastOpen(Run(m, js, p).parser.toks) == -1
    decreases |js| - p.pos
  {
    if !AtEnd(js, p.pos) {
      SuccessIsClosed(m, js, DoStep(m, js, p).next);
    }
  }

  // ----- An explicit stack -----

  /** A pushdown recogniser: the positions of the brackets not yet closed. */
  datatype Pushdown = Pushdown(pos: nat, stack: seq<int>)

  datatype Push = PGo(next: Pushdown, counts: nat) | PStop(error: Error)

  /** One lexeme; `skip`: a closing bracket with nothing open is passed over. */
  function PushStep(strict: bool, skip: bool, js: string, b: Pushdown): (s: Push)
    requires !AtEnd(js, b.pos)
    ensures s.PGo? ==> b.pos < s.next.pos
  {
    match Classify(strict, js[b.pos])
    case Open(_) => PGo(Pushdown(b.pos + 1, b.stack + [b.pos]), 1)
    case Close(k) =>
      var n := |b.stack|;
      if n == 0 then if skip then PGo(b.(pos := b.pos + 1), 0) else PStop(Inval)
      else if !(0 <= b.stack[n - 1] < |js|) || js[b.stack[n - 1]] != Opener(k) then PStop(Inval)
      else PGo(Pushdown(b.pos + 1, b.stack[..n - 1]), 0)
    case Quote =>
      (match ScanString(js, b.pos + 1)
       case Found(e) => PGo(b.(pos := e + 1), 1)
       case Bad => PStop(Inval)
       case Short => PStop(Part))
    case Bare =>
      (match ScanBare(strict, js, b.pos)
       case Found(e) => PGo(b.(pos := e), 1)
       case Bad => PStop(Inval)
       case Short => PStop(Part))
    case Illegal => PStop(Inval)
    case _ => PGo(b.(pos := b.pos + 1), 0)
  }

  /**
   Brackets balanced, strings and primitives well formed, and how many lexemes
   make a token, of which `made` came before.  With links, unmatched closing
   brackets are passed over once there is a token.
   */
  function Recognise(strict: bool, links: bool, js: string, b: Pushdown, made: nat): Result
    decreases |js| - b.pos
  {
    if AtEnd(js, b.pos) then if b.stack == [] then Ok(0) else Err(Part)
    else
      match PushStep(strict, links && made > 0, js, b)
      case PStop(e) => Err(e)
      case PGo(c, k) => Plus(Recognise(strict, links, js, c, made + k), k)
  }

  lemma RecogniseStep(strict: bool, links: bool, js: string, b: Pushdown, made: nat, c: Pushdown, k: nat)
    requires !AtEnd(js, b.pos) && PushStep(strict, links && made > 0, js, b) == PGo(c, k)
    ensures Recognise(strict, links, js, b, made) == Plus(Recognise(strict, links, js, c, made + k), k)
  {
  }

  /** The starts of the open tokens from `lo` on and below `n`, outermost first. */
  function OpenStarts(toks: seq<Tok>, lo: nat, n: nat): (r: seq<int>)
    requires lo <= n <= |toks|
    ensures (r == []) == (OpenBelow(toks, n) < lo)
    ensures r != [] ==> r[|r| - 1] == toks[OpenBelow(toks, n)].start
    decreases n
  {
    if n == lo then []
    else if IsOpen(toks[n - 1]) then OpenStarts(toks, lo, n - 1) + [toks[n - 1].start]
    else OpenStarts(toks, lo, n - 1)
  }

  lemma {:induction false} OpenStartsSame(toks: seq<Tok>, later: seq<Tok>, lo: nat, n: nat)
    requires lo <= n <= |toks| && n <= |later|
    requires forall i :: 0 <= i < n ==> IsOpen(later[i]) == IsOpen(toks[i]) && later[i].start == toks[i].start
    ensures OpenStarts(later, lo, n) == OpenStarts(toks, lo, n)
    decreases n
  {
    if n > lo {
      OpenStartsSame(toks, later, lo, n - 1);
    }
  }

  /** Closing the innermost open token pops the stack. */
  lemma {:induction false} OpenStartsClose(toks: seq<Tok>, i: nat, end: int, lo: nat, n: nat)
    requires lo <= i < n <= |toks| && i == OpenBelow(toks, n) && end != -1
    ensures var r := OpenStarts(toks, lo, n);
            OpenStarts(CloseAt(toks, i, end), lo, n) == r[..|r| - 1]
    decreases n
  {
    if i == n - 1 {
      OpenStartsSame(toks, CloseAt(toks, i, end), lo, n - 1);
    } else {
      OpenStartsClose(toks, i, end, lo, n - 1);
    }
  }

  /** The implicit stack of the tokenizer, from token `lo` on, is the explicit one. */
  ghost predicate Mirrors(p: Parser, lo: nat, b: Pushdown) {
    p.pos == b.pos && lo <= |p.toks| && OpenStarts(p.toks, lo, |p.toks|) == b.stack
  }

  lemma StoredMirrors(p: Parser, lo: nat, b: Pushdown, t: Tok, q: Parser, c: Pushdown)
    requires Mirrors(p, lo, b) && q.toks == Bump(p.toks, p.sup) + [t] && q.pos == c.pos
    requires c.stack == if IsOpen(t) then b.stack + [t.start] else b.stack
    ensures Mirrors(q, lo, c)
  {
    OpenStartsSame(p.toks, q.toks, lo, |p.toks|);
  }

  lemma PopMirrors(p: Parser, lo: nat, b: Pushdown, q: Parser, c: Pushdown)
    requires Mirrors(p, lo, b) && LastOpen(p.toks) >= lo && q.pos == c.pos == p.pos + 1 && b.stack != []
    requires q.toks == CloseAt(p.toks, LastOpen(p.toks), p.pos + 1) && c.stack == b.stack[..|b.stack| - 1]
    ensures Mirrors(q, lo, c)
  {
    OpenStartsClose(p.toks, LastOpen(p.toks), p.pos + 1, lo, |p.toks|);
  }

  /** Both machines took the same step. */
  ghost predicate SameStep(s: Step, lo: nat, t: Push) {
    match s
    case Go(q, made) => t.PGo? && Mirrors(q, lo, t.next) && made == t.counts
    case Stop(e) => t == PStop(e)
  }

  /** The parser and the recogniser side by side; `lo` is 0, or an open token. */
  ghost predicate Beside(m: Mode, js: string, p: Parser, lo: nat, b: Pushdown) {
    Sane(m, p) && Tidy(js, p) && m.pool.Cap? && Mirrors(p, lo, b) && (lo == 0 || b.stack != [])
  }

  /** Whether the build passes over an unmatched closing bracket, after so many tokens. */
  predicate Skips(m: Mode, made: nat) {
    m.links && made > 0
  }

  lemma CloseMirrors(m: Mode, js: string, p: Parser, lo: nat, b: Pushdown, k: Kind)
    requires Beside(m, js, p, lo, b) && !AtEnd(js, p.pos) && Classify(m.strict, js[p.pos]) == Close(k)
    ensures SameStep(DoStep(m, js, p), lo, PushStep(m.strict, Skips(m, |p.toks|), js, b))
  {
    ClosesInnermost(m, js, p, k);
    var i := LastOpen(p.toks);
    if i >= 0 {
      assert Placed(js, p.pos, p.toks[i]);
      assert p.toks[i].typ.Container?;
      assert b.stack[|b.stack| - 1] == p.toks[i].start;
      if p.toks[i].typ == Container(k) {
        PopMirrors(p, lo, b, DoStep(m, js, p).next, PushStep(m.strict, Skips(m, |p.toks|), js, b).next);
      }
    }
  }

  /** One lexeme moves both in step, unless the tokenizer runs out of tokens or, if strict, refuses a primitive as a key. */
  lemma StepMirrors(m: Mode, js: string, p: Parser, lo: nat, b: Pushdown)
    requires Beside(m, js, p, lo, b)
    requires !AtEnd(js, p.pos) && DoStep(m, js, p) != Stop(NoMem) && (m.strict ==> DoStep(m, js, p).Go?)
    ensures SameStep(DoStep(m, js, p), lo, PushStep(m.strict, Skips(m, |p.toks|), js, b))
  {
    var s, t := DoStep(m, js, p), PushStep(m.strict, Skips(m, |p.toks|), js, b);
    match Classify(m.strict, js[p.pos])
    case Open(k) => StoredMirrors(p, lo, b, NewTok(m, Container(k), p.pos, -1, p.sup), s.next, t.next);
    case Close(k) => CloseMirrors(m, js, p, lo, b, k);
    case Quote =>
      if ScanString(js, p.pos + 1).Found? {
        StoredMirrors(p, lo, b, NewTok(m, String, p.pos + 1, ScanString(js, p.pos + 1).end, p.sup), s.next, t.next);
      }
    case Bare =>
      if ScanBare(m.strict, js, p.pos).Found? {
        StoredMirrors(p, lo, b, NewTok(m, Primitive, p.pos, ScanBare(m.strict, js, p.pos).end, p.sup), s.next, t.next);
      }
    case _ =>
  }

  lemma NextBeside(m: Mode, js: string, p: Parser, b: Pushdown, q: Parser, made: nat) returns (c: Pushdown)
    requires Beside(m, js, p, 0, b) && !AtEnd(js, p.pos) && DoStep(m, js, p) == Go(q, made)
    ensures PushStep(m.strict, Skips(m, |p.toks|), js, b) == PGo(c, made) && Beside(m, js, q, 0, c) && |q.toks| == |p.toks| + made
  {
    StepMirrors(m, js, p, 0, b);
    StepSane(m, js, p);
    StepTidy(m, js, p);
    c := PushStep(m.strict, Skips(m, |p.toks|), js, b).next;
  }

  /** Where both stop, they give the same verdict. */
  lemma RunEnds(m: Mode, js: string, p: Parser, b: Pushdown)
    requires Beside(m, js, p, 0, b) && (AtEnd(js, p.pos) || DoStep(m, js, p).Stop?)
    requires Run(m, js, p).result != Err(NoMem) && (m.strict ==> Run(m, js, p).result.Ok?)
    ensures Run(m, js, p).result == Recognise(m.strict, m.links, js, b, |p.toks|)
  {
    if !AtEnd(js, p.pos) {
      StepMirrors(m, js, p, 0, b);
    }
  }

  /** The same verdict behind one step of each is the same verdict before it. */
  lemma RunBefore(m: Mode, js: string, p: Parser, b: Pushdown, q: Parser, c: Pushdown, made: nat)
    requires !AtEnd(js, p.pos) && p.pos == b.pos && |q.toks| == |p.toks| + made
    requires DoStep(m, js, p) == Go(q, made) && PushStep(m.strict, Skips(m, |p.toks|), js, b) == PGo(c, made)
    requires Run(m, js, q).result == Recognise(m.strict, m.links, js, c, |q.toks|)
    ensures Run(m, js, p).result == Recognise(m.strict, m.links, js, b, |p.toks|)
  {
    RunStep(m, js, p, q, made);
    RecogniseStep(m.strict, m.links, js, b, |p.toks|, c, made);
  }

  /**
   With enough tokens a non-strict build accepts exactly what the recogniser
   accepts, with the same count, and fails with the same error otherwise.  What
   a strict build accepts, the recogniser accepts too.
   */
  lemma {:induction false} RunRecognises(m: Mode, js: string, p: Parser, b: Pushdown)
    requires Beside(m, js, p, 0, b)
    requires Run(m, js, p).result != Err(NoMem) && (m.strict ==> Run(m, js, p).result.Ok?)
    ensures Run(m, js, p).result == Recognise(m.strict, m.links, js, b, |p.toks|)
    decreases |js| - p.pos
  {
    if AtEnd(js, p.pos) || DoStep(m, js, p).Stop? {
      RunEnds(m, js, p, b);
    } else {
      var q, made := DoStep(m, js, p).next, DoStep(m, js, p).made;
      var c := NextBeside(m, js, p, b, q, made);
      RunStep(m, js, p, q, made);
      RunRecognises(m, js, q, c);
      RunBefore(m, js, p, b, q, c, made);
    }
  }

  /** The recogniser after `n` lexemes, or where it got stuck before that. */
  function PushSteps(strict: bool, links: bool, js: string, b: Pushdown, made: nat, n: nat): Pushdown
    decreases n
  {
    if n == 0 || AtEnd(js, b.pos) then b
    else
      match PushStep(strict, links && made > 0, js, b)
      case PStop(_) => b
      case PGo(c, k) => PushSteps(strict, links, js, c, made + k, n - 1)
  }

  /** How many of `n` steps the tokenizer takes before it stops. */
  function Taken(m: Mode, js: string, p: Parser, n: nat): (k: nat)
    ensures k <= n
    decreases n
  {
    if n == 0 || AtEnd(js, p.pos) || DoStep(m, js, p).Stop? then 0
    else 1 + Taken(m, js, DoStep(m, js, p).next, n - 1)
  }

  lemma OneMore(m: Mode, js: string, p: Parser, n: nat, q: Parser, made: nat)
    requires n > 0 && !AtEnd(js, p.pos) && DoStep(m, js, p) == Go(q, made)
    ensures Steps(m, js, p, n) == Steps(m, js, q, n - 1) && Taken(m, js, p, n) == Taken(m, js, q, n - 1) + 1
  {
  }

  lemma OnePush(strict: bool, links: bool, js: string, b: Pushdown, made: nat, n: nat, c: Pushdown, k: nat)
    requires n > 0 && !AtEnd(js, b.pos) && PushStep(strict, links && made > 0, js, b) == PGo(c, k)
    ensures PushSteps(strict, links, js, b, made, n) == PushSteps(strict, links, js, c, made + k, n - 1)
  {
  }

  /** From `p` and `b`, the tokenizer comes to `e` in `k` of at most `n` steps and the recogniser to `f`. */
  ghost predicate Lead(m: Mode, js: string, p: Parser, b: Pushdown, n: nat, k: nat, e: Parser, f: Pushdown) {
    Steps(m, js, p, n) == e && Taken(m, js, p, n) == k && PushSteps(m.strict, m.links, js, b, |p.toks|, k) == f
  }

  lemma LeadOn(m: Mode, js: string, p: Parser, b: Pushdown, n: nat, k: nat, e: Parser, f: Pushdown, q: Parser, c: Pushdown, made: nat)
    requires Lead(m, js, p, b, n, k, e, f) && n > 0 && !AtEnd(js, p.pos) && p.pos == b.pos && |q.toks| == |p.toks| + made
    requires DoStep(m, js, p) == Go(q, made) && PushStep(m.strict, Skips(m, |p.toks|), js, b) == PGo(c, made)
    ensures k > 0 && Lead(m, js, q, c, n - 1, k - 1, e, f)
  {
    OneMore(m, js, p, n, q, made);
    OnePush(m.strict, m.links, js, b, |p.toks|, k, c, made);
  }

  lemma LeadEnds(m: Mode, js: string, p: Parser, b: Pushdown, n: nat, k: nat, e: Parser, f: Pushdown)
    requires Lead(m, js, p, b, n, k, e, f) && (n == 0 || AtEnd(js, p.pos) || DoStep(m, js, p).Stop?)
    ensures e == p && f == b
  {
  }

  /** One step of both, side by side. */
  lemma LeadStep(m: Mode, js: string, p: Parser, b: Pushdown, n: nat, k: nat, e: Parser, f: Pushdown) returns (q: Parser, c: Pushdown)
    requires Beside(m, js, p, 0, b) && Lead(m, js, p, b, n, k, e, f) && n > 0 && !AtEnd(js, p.pos) && DoStep(m, js, p).Go?
    ensures k > 0 && Beside(m, js, q, 0, c) && Lead(m, js, q, c, n - 1, k - 1, e, f)
  {
    q := DoStep(m, js, p).next;
    var made := DoStep(m, js, p).made;
    c := NextBeside(m, js, p, b, q, made);
    LeadOn(m, js, p, b, n, k, e, f, q, c, made);
  }

  lemma {:induction false} HeadStack(m: Mode, js: string, p: Parser, b: Pushdown, n: nat, k: nat, e: Parser, f: Pushdown)
    requires Beside(m, js, p, 0, b) && Lead(m, js, p, b, n, k, e, f)
    ensures Mirrors(e, 0, f)
    decreases n
  {
    if n == 0 || AtEnd(js, p.pos) || DoStep(m, js, p).Stop? {
      LeadEnds(m, js, p, b, n, k, e, f);
    } else {
      var q, c := LeadStep(m, js, p, b, n, k, e, f);
      HeadStack(m, js, q, c, n - 1, k - 1, e, f);
    }
  }

  /** At every loop head, in every build, the open tokens are exactly the unmatched brackets, in order. */
  lemma LoopHeadStack(m: Mode, js: string, n: nat)
    requires m.pool.Cap?
    ensures Mirrors(Steps(m, js, Fresh, n), 0, PushSteps(m.strict, m.links, js, Pushdown(0, []), 0, Taken(m, js, Fresh, n)))
  {
    var k := Taken(m, js, Fresh, n);
    FreshBeside(m, js);
    HeadStack(m, js, Fresh, Pushdown(0, []), n, k, Steps(m, js, Fresh, n), PushSteps(m.strict, m.links, js, Pushdown(0, []), 0, k));
  }

  lemma FreshBeside(m: Mode, js: string)
    requires m.pool.Cap?
    ensures Beside(m, js, Fresh, 0, Pushdown(0, []))
  {
  }

  /** From a fresh parser: enough tokens, and the verdict and count are those of the recogniser. */
  lemma VerdictIsRecogniser(m: Mode, js: string)
    requires m.pool.Cap?
    ensures var r, v := Run(m, js, Fresh).result, Recognise(m.strict, m.links, js, Pushdown(0, []), 0);
            if m.strict then r.Ok? ==> r == v else r == Err(NoMem) || r == v
  {
    FreshBeside(m, js);
    if Run(m, js, Fresh).result != Err(NoMem) && (m.strict ==> Run(m, js, Fresh).result.Ok?) {
      RunRecognises(m, js, Fresh, Pushdown(0, []));
    }
  }

  // ----- Matched brackets -----

  /** From `b` the recogniser comes to `c` without emptying its stack. */
  ghost predicate Inside(strict: bool, js: string, b: Pushdown, c: Pushdown)
    decreases |js| - b.pos
  {
    b.stack != [] && (b == c || (!AtEnd(js, b.pos) && match PushStep(strict, false, js, b)
                                                      case PStop(_) => false
                                                      case PGo(d, _) => Inside(strict, js, d, c)))
  }

  /** From `b` the recogniser first empties its stack at `end`. */
  ghost predicate Empties(strict: bool, js: string, b: Pushdown, end: int)
    decreases |js| - b.pos
  {
    && b.stack != [] && !AtEnd(js, b.pos)
    && match PushStep(strict, false, js, b)
       case PStop(_) => false
       case PGo(d, _) => if d.stack == [] then d.pos == end else Empties(strict, js, d, end)
  }

  /**
   The bracket at `start` is closed by the bracket before `end`: the recogniser,
   started on it alone, pops it there and not earlier.
   */
  ghost predicate Matched(strict: bool, js: string, start: int, end: int) {
    && 0 <= start && !AtEnd(js, start) && Classify(strict, js[start]).Open?
    && Empties(strict, js, Opened(start), end)
  }

  /** The recogniser that has read one opening bracket only. */
  function Opened(start: int): Pushdown {
    Pushdown(if start < 0 then 0 else start + 1, [start])
  }

  lemma {:induction false} InsideStep(strict: bool, js: string, b: Pushdown, c: Pushdown, d: Pushdown, k: nat)
    requires Inside(strict, js, b, c) && !AtEnd(js, c.pos) && PushStep(strict, false, js, c) == PGo(d, k)
    ensures if d.stack == [] then Empties(strict, js, b, d.pos) else Inside(strict, js, b, d)
    decreases |js| - b.pos
  {
    if b != c {
      InsideStep(strict, js, PushStep(strict, false, js, b).next, c, d, k);
    }
  }

  /** A bracket has at most one match. */
  lemma {:induction false} MatchIsUnique(strict: bool, js: string, b: Pushdown, end: int, other: int)
    requires Empties(strict, js, b, end) && Empties(strict, js, b, other)
    ensures end == other
    decreases |js| - b.pos
  {
    var d := PushStep(strict, false, js, b).next;
    if d.stack != [] {
      MatchIsUnique(strict, js, d, end, other);
    }
  }

  /** Closed containers end at their match; the recogniser started on an open one still has it on its stack. */
  ghost predicate PairedAt(strict: bool, js: string, p: Parser, i: nat)
    requires i < |p.toks|
  {
    var t := p.toks[i];
    t.typ.Container? ==>
      if IsOpen(t) then Inside(strict, js, Opened(t.start), Pushdown(p.pos, OpenStarts(p.toks, i, |p.toks|)))
      else Matched(strict, js, t.start, t.end)
  }

  ghost predicate Paired(strict: bool, js: string, p: Parser) {
    forall i :: 0 <= i < |p.toks| ==> PairedAt(strict, js, p, i)
  }

  /** What a step does to the tokens: it may close the innermost open one, or add one behind the others. */
  lemma StepTokens(m: Mode, js: string, p: Parser, q: Parser)
    requires Sane(m, p) && m.pool.Cap? && !AtEnd(js, p.pos) && DoStep(m, js, p).Go? && q == DoStep(m, js, p).next
    ensures |p.toks| <= |q.toks| <= |p.toks| + 1
    ensures forall i :: 0 <= i < |p.toks| ==>
              && q.toks[i].typ == p.toks[i].typ && q.toks[i].start == p.toks[i].start
              && (q.toks[i].end == p.toks[i].end || (i == LastOpen(p.toks) && q.toks[i].end == q.pos && |q.toks| == |p.toks|))
    ensures |q.toks| == |p.toks| + 1 ==>
              var t := q.toks[|p.toks|];
              t.typ.Container? ==> t.start == p.pos && q.pos == p.pos + 1 && IsOpen(t) && Classify(m.strict, js[p.pos]).Open?
    ensures |q.toks| == |p.toks| + 1 ==> !q.toks[|p.toks|].typ.Container? || q.toks[|p.toks|].end == -1
  {
    if Classify(m.strict, js[p.pos]).Close? {
      ClosesInnermost(m, js, p, Classify(m.strict, js[p.pos]).kind);
    }
  }

  /** The stack from an open token on moves with the step. */
  lemma WindowStep(m: Mode, js: string, p: Parser, i: nat, c: Pushdown, q: Parser, made: nat) returns (d: Pushdown)
    requires Beside(m, js, p, i, c) && c.stack != [] && !AtEnd(js, p.pos) && DoStep(m, js, p) == Go(q, made)
    ensures PushStep(m.strict, false, js, c) == PGo(d, made) && Mirrors(q, i, d)
  {
    StepMirrors(m, js, p, i, c);
    d := PushStep(m.strict, Skips(m, |p.toks|), js, c).next;
  }

  lemma OpenPaired(m: Mode, js: string, p: Parser, q: Parser, made: nat, i: nat)
    requires Sane(m, p) && Tidy(js, p) && m.pool.Cap? && !AtEnd(js, p.pos) && DoStep(m, js, p) == Go(q, made)
    requires i < |p.toks| && IsOpen(p.toks[i]) && PairedAt(m.strict, js, p, i) && p.toks[i].typ.Container?
    ensures i < |q.toks| && PairedAt(m.strict, js, q, i)
  {
    assert Placed(js, p.pos, p.toks[i]);
    var c := Pushdown(p.pos, OpenStarts(p.toks, i, |p.toks|));
    var d := WindowStep(m, js, p, i, c, q, made);
    InsideStep(m.strict, js, Opened(p.toks[i].start), c, d, made);
    StepTokens(m, js, p, q);
  }

  lemma StepPaired(m: Mode, js: string, p: Parser, q: Parser)
    requires Sane(m, p) && Tidy(js, p) && Paired(m.strict, js, p) && m.pool.Cap?
    requires !AtEnd(js, p.pos) && DoStep(m, js, p).Go? && q == DoStep(m, js, p).next
    ensures Paired(m.strict, js, q)
  {
    StepTokens(m, js, p, q);
    forall i | 0 <= i < |q.toks|
      ensures PairedAt(m.strict, js, q, i)
    {
      if i < |p.toks| {
        assert PairedAt(m.strict, js, p, i);
        if IsOpen(p.toks[i]) && p.toks[i].typ.Container? {
          OpenPaired(m, js, p, q, DoStep(m, js, p).made, i);
        }
      }
    }
  }
}
