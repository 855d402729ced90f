/**
 What a text is made of as far as the tokenizer has read it: structural
 characters and white space, strings, and bare words, each written out in
 literals.  So nothing else is ever accepted.
 */
module JsmnAccepted {
  import opened JsmnLexer
  import opened JsmnMachine
  import opened JsmnNesting
  import opened JsonStandard

  const STRUCTURE := "{}[]:, \t\n\r"

  /** The text of a string between its quotes. */
  ghost predicate IsBody(t: string) {
    exists us :: LooseBody(us) && BodyText(us) == t
  }

  /** A character of a bare word. */
  predicate WordChar(strict: bool, c: char) {
    '!' <= c <= '~' && c !in ",]}" && (strict || c != ':')
  }

  predicate WordEnds(strict: bool, js: string, e: nat) {
    e >= |js| || js[e] == '\0' || js[e] in DELIMITERS || (!strict && js[e] == ':')
  }

  /** A string or primitive token spans a string body between quotes, or a whole bare word. */
  ghost predicate LeafOk(strict: bool, js: string, t: Tok) {
    match t.typ
    case Container(_) => true
    case String => 1 <= t.start <= t.end < |js| && js[t.start - 1] == js[t.end] == '\"' && IsBody(js[t.start..t.end])
    case Primitive =>
      && 0 <= t.start < t.end <= |js| && WordEnds(strict, js, t.end)
      && (forall k :: t.start <= k < t.end ==> WordChar(strict, js[k]))
      && if strict then js[t.start] in "-0123456789tfn" else js[t.start] !in "{[\""
  }

  predicate InLeaf(t: Tok, k: nat) {
    match t.typ
    case Container(_) => false
    case String => t.start - 1 <= k <= t.end
    case Primitive => t.start <= k < t.end
  }

  predicate InSome(toks: seq<Tok>, k: nat) {
    exists i :: 0 <= i < |toks| && InLeaf(toks[i], k)
  }

  predicate Covered(js: string, toks: seq<Tok>, k: nat) {
    k < |js| && (js[k] in STRUCTURE || InSome(toks, k))
  }

  /** Every character before `p.pos` is accounted for. */
  ghost predicate Explained(strict: bool, js: string, p: Parser) {
    && p.pos <= |js|
    && (forall i :: 0 <= i < |p.toks| ==> LeafOk(strict, js, p.toks[i]))
    && (forall k :: 0 <= k < p.pos ==> Covered(js, p.toks, k))
  }

  /** The same leaves. */
  ghost predicate SameLeaves(toks: seq<Tok>, later: seq<Tok>) {
    |toks| <= |later| &&
    forall i :: 0 <= i < |toks| ==>
      later[i].typ == toks[i].typ && (!toks[i].typ.Container? ==> later[i].start == toks[i].start && later[i].end == toks[i].end)
  }

  lemma StillCovered(js: string, toks: seq<Tok>, later: seq<Tok>, k: nat)
    requires Covered(js, toks, k) && SameLeaves(toks, later)
    ensures Covered(js, later, k)
  {
    if js[k] !in STRUCTURE {
      var i :| 0 <= i < |toks| && InLeaf(toks[i], k);
      assert InLeaf(later[i], k);
    }
  }

  /** One structural character, with no leaf stored. */
  lemma StructureExplained(strict: bool, js: string, p: Parser, q: Parser)
    requires Explained(strict, js, p) && p.pos < |js| && js[p.pos] in STRUCTURE && q.pos == p.pos + 1 && SameLeaves(p.toks, q.toks)
    requires forall i :: |p.toks| <= i < |q.toks| ==> q.toks[i].typ.Container?
    ensures Explained(strict, js, q)
  {
    forall k | 0 <= k < q.pos
      ensures Covered(js, q.toks, k)
    {
      if k < p.pos {
        StillCovered(js, p.toks, q.toks, k);
      }
    }
  }

  /** One leaf. */
  lemma LeafExplained(strict: bool, js: string, p: Parser, q: Parser, t: Tok)
    requires Explained(strict, js, p) && q.toks == Bump(p.toks, p.sup) + [t] && LeafOk(strict, js, t) && p.pos <= q.pos <= |js|
    requires forall k :: p.pos <= k < q.pos ==> InLeaf(t, k)
    ensures Explained(strict, js, q)
  {
    forall k | 0 <= k < q.pos
      ensures Covered(js, q.toks, k)
    {
      if k < p.pos {
        StillCovered(js, p.toks, q.toks, k);
      } else {
        assert InLeaf(q.toks[|p.toks|], k);
      }
    }
  }

  lemma StringLeaf(strict: bool, js: string, t: Tok)
    requires t.typ == String && 1 <= t.start <= |js| && t.end >= 0 && js[t.start - 1] == '\"' && ScanString(js, t.start) == Found(t.end)
    ensures LeafOk(strict, js, t)
  {
    var us := ScanStringSound(js, t.start);
    LooseBodyIff(us);
    OccursSlice(js, t.start, BodyText(us));
  }

  lemma WordLeaf(strict: bool, js: string, t: Tok)
    requires t.typ == Primitive && 0 <= t.start && t.end >= 0 && !AtEnd(js, t.start) && ScanBare(strict, js, t.start) == Found(t.end)
    requires Classify(strict, js[t.start]) == Bare
    ensures LeafOk(strict, js, t)
  {
    StrictStart(js[t.start]);
    forall k | t.start <= k < t.end
      ensures WordChar(strict, js[k])
    {
      assert InBare(strict, js, k);
    }
  }

  lemma StepExplained(m: Mode, js: string, p: Parser)
    requires m.pool.Cap? && Sane(m, p) && Explained(m.strict, js, p) && !AtEnd(js, p.pos) && DoStep(m, js, p).Go?
    ensures Explained(m.strict, js, DoStep(m, js, p).next)
  {
    var q := DoStep(m, js, p).next;
    match Classify(m.strict, js[p.pos])
    case Quote =>
      var t := NewTok(m, String, p.pos + 1, ScanString(js, p.pos + 1).end, p.sup);
      StringLeaf(m.strict, js, t);
      LeafExplained(m.strict, js, p, q, t);
    case Bare =>
      var t := NewTok(m, Primitive, p.pos, ScanBare(m.strict, js, p.pos).end, p.sup);
      WordLeaf(m.strict, js, t);
      LeafExplained(m.strict, js, p, q, t);
    case Close(k) =>
      ClosesInnermost(m, js, p, k);
      StructureExplained(m.strict, js, p, q);
    case _ => StructureExplained(m.strict, js, p, q);
  }

  lemma {:induction false} StepsExplained(m: Mode, js: string, p: Parser, n: nat)
    requires m.pool.Cap? && Sane(m, p) && Explained(m.strict, js, p)
    ensures Explained(m.strict, js, Steps(m, js, p, n))
    decreases n
  {
    if n > 0 && !AtEnd(js, p.pos) && DoStep(m, js, p).Go? {
      StepSane(m, js, p);
      StepExplained(m, js, p);
      StepsExplained(m, js, DoStep(m, js, p).next, n - 1);
    }
  }

  /**
   In every build, at every exit: each character read is structure, white space, or
   in a string or bare word that is a token; a success has read the whole text.
   */
  lemma ReadTextIsExplained(m: Mode, js: string)
    requires m.pool.Cap?
    ensures Explained(m.strict, js, Run(m, js, Fresh).parser)
    ensures Run(m, js, Fresh).result.Ok? ==> AtEnd(js, Run(m, js, Fresh).parser.pos)
  {
    StepsExplained(m, js, Fresh, |js|);
    RunIsSteps(m, js, Fresh, |js|);
    if Run(m, js, Fresh).result.Ok? {
      SuccessAtEnd(m, js, Fresh);
    }
  }
}
