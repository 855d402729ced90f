/**
 The two compiled algorithms side by side: parent chains against backward scans.
 On any text they produce the same tokens (type, start, end), position and
 result, up to the one point where they differ: a closing bracket with nothing
 open.
 */
module JsmnLinks {
  import opened JsmnLexer
  import opened JsmnMachine
  import opened JsmnNesting
  import opened JsmnResume
  import opened JsonGrammar
  import opened JsmnCorrect

  predicate SameShape(p: Parser, q: Parser) {
    && p.pos == q.pos && |p.toks| == |q.toks|
    && forall i :: 0 <= i < |p.toks| ==> SameSpan(p.toks[i], q.toks[i])
  }

  /** The parser stands before a closing bracket that nothing opened, with at least one token stored. */
  predicate Unmatched(js: string, p: Parser) {
    && !AtEnd(js, p.pos) && Classify(false, js[p.pos]).Close?
    && p.toks != [] && LastOpen(p.toks) == -1
  }

  /** Steps that agree: the same error, or parsers of the same shape that made the same number of tokens. */
  ghost predicate Agree(s: Step, t: Step) {
    match s
    case Go(p, made) => t.Go? && SameShape(p, t.next) && made == t.made
    case Stop(e) => t == Stop(e)
  }

  lemma CloseAgrees(scan: Mode, link: Mode, js: string, p: Parser, q: Parser, k: Kind)
    requires Sane(scan, p) && Sane(link, q) && SameShape(p, q) && scan.pool.Cap?
    requires !scan.strict && !scan.links && link == scan.(links := true)
    requires !AtEnd(js, p.pos) && Classify(false, js[p.pos]) == Close(k) && !Unmatched(js, p)
    ensures Agree(DoStep(scan, js, p), DoStep(link, js, q))
  {
    ClosesInnermost(scan, js, p, k);
    ClosesInnermost(link, js, q, k);
    var i := LastOpen(p.toks);
    if i >= 0 {
      assert SameSpan(p.toks[i], q.toks[i]);
      var a, b := CloseAt(p.toks, i, p.pos + 1), CloseAt(q.toks, i, p.pos + 1);
      forall j | 0 <= j < |a|
        ensures SameSpan(a[j], b[j])
      {
        assert SameSpan(p.toks[j], q.toks[j]);
      }
    }
  }

  lemma StepAgrees(scan: Mode, link: Mode, js: string, p: Parser, q: Parser)
    requires Sane(scan, p) && Sane(link, q) && SameShape(p, q) && scan.pool.Cap?
    requires !scan.strict && !scan.links && link == scan.(links := true)
    requires !AtEnd(js, p.pos) && !Unmatched(js, p)
    ensures Agree(DoStep(scan, js, p), DoStep(link, js, q))
  {
    match Classify(false, js[p.pos])
    case Close(k) => CloseAgrees(scan, link, js, p, q, k);
    case _ =>
  }

  /** An unmatched closing bracket stops the scan and is skipped by the chain walk. */
  lemma UnmatchedDiffers(scan: Mode, link: Mode, js: string, p: Parser, q: Parser)
    requires Sane(scan, p) && Sane(link, q) && SameShape(p, q) && scan.pool.Cap?
    requires !scan.strict && !scan.links && link == scan.(links := true)
    requires Unmatched(js, p)
    ensures Run(scan, js, p) == Final(p, Err(Inval))
    ensures Run(link, js, q).parser.pos > p.pos
  {
    var k := Classify(false, js[p.pos]).kind;
    ClosesInnermost(scan, js, p, k);
    ClosesInnermost(link, js, q, k);
    var q2 := q.(pos := q.pos + 1);
    StepSane(link, js, q);
    RunStep(link, js, q, q2, 0);
    RunSane(link, js, q2);
  }

  /**
   On every text the two algorithms of the default build agree on types, starts,
   ends, position and result if and only if the scan does not stop before an
   unmatched closing bracket.
   */
  lemma {:induction false} LinksAgreeIff(scan: Mode, link: Mode, js: string, p: Parser, q: Parser)
    requires Sane(scan, p) && Sane(link, q) && SameShape(p, q) && scan.pool.Cap?
    requires !scan.strict && !scan.links && link == scan.(links := true)
    ensures var f, g := Run(scan, js, p), Run(link, js, q);
            SameShape(f.parser, g.parser) && f.result == g.result <==> !Unmatched(js, f.parser)
    decreases |js| - p.pos
  {
    if !AtEnd(js, p.pos) {
      if Unmatched(js, p) {
        UnmatchedDiffers(scan, link, js, p, q);
      } else {
        StepAgrees(scan, link, js, p, q);
        var s, t := DoStep(scan, js, p), DoStep(link, js, q);
        if s.Go? {
          StepSane(scan, js, p);
          StepSane(link, js, q);
          RunStep(scan, js, p, s.next, s.made);
          RunStep(link, js, q, t.next, t.made);
          LinksAgreeIff(scan, link, js, s.next, t.next);
        }
      }
    }
  }

  // ----- The same condition, read off the text -----

  /**
   The recogniser comes to a closing bracket with an empty stack, after at least
   one lexeme that makes a token, and before an array of `cap` tokens is used up.
   */
  predicate MeetsStray(js: string, b: Pushdown, made: nat, cap: nat)
    decreases |js| - b.pos
  {
    !AtEnd(js, b.pos) &&
    if Classify(false, js[b.pos]).Close? && b.stack == [] then made > 0
    else
      match PushStep(false, false, js, b)
      case PStop(_) => false
      case PGo(c, k) => made + k <= cap && MeetsStray(js, c, made + k, cap)
  }

  lemma StopsShort(scan: Mode, js: string, p: Parser, b: Pushdown)
    requires Beside(scan, js, p, 0, b) && !scan.strict && !scan.links && !AtEnd(js, p.pos) && !Unmatched(js, p)
    requires DoStep(scan, js, p).Stop?
    ensures !MeetsStray(js, b, |p.toks|, scan.pool.n)
  {
    if DoStep(scan, js, p) != Stop(NoMem) {
      StepMirrors(scan, js, p, 0, b);
    }
  }

  lemma StrayStep(js: string, b: Pushdown, made: nat, cap: nat, c: Pushdown, k: nat)
    requires !AtEnd(js, b.pos) && PushStep(false, false, js, b) == PGo(c, k) && made + k <= cap
    ensures MeetsStray(js, b, made, cap) == MeetsStray(js, c, made + k, cap)
  {
  }

  lemma {:induction false} StrayIsUnmatched(scan: Mode, js: string, p: Parser, b: Pushdown)
    requires Beside(scan, js, p, 0, b) && !scan.strict && !scan.links && |p.toks| <= scan.pool.n
    ensures Unmatched(js, Run(scan, js, p).parser) <==> MeetsStray(js, b, |p.toks|, scan.pool.n)
    decreases |js| - p.pos
  {
    if !AtEnd(js, p.pos) {
      match DoStep(scan, js, p) {
        case Go(q, made) =>
          var c := NextBeside(scan, js, p, b, q, made);
          RunStep(scan, js, p, q, made);
          WithinPool(scan, js, p, q, made);
          StrayStep(js, b, |p.toks|, scan.pool.n, c, made);
          StrayIsUnmatched(scan, js, q, c);
        case Stop(_) =>
          if !Unmatched(js, p) {
            StopsShort(scan, js, p, b);
          }
      }
    }
  }

  lemma WithinPool(m: Mode, js: string, p: Parser, q: Parser, made: nat)
    requires m.pool.Cap? && |p.toks| <= m.pool.n && !AtEnd(js, p.pos) && DoStep(m, js, p) == Go(q, made)
    ensures |q.toks| == |p.toks| + made <= m.pool.n
  {
  }

  /**
   For every text and every size of the array: the two algorithms of the default
   build agree if and only if the text has no such bracket.
   */
  lemma LinksAgreeOnText(scan: Mode, link: Mode, js: string)
    requires scan.pool.Cap? && !scan.strict && !scan.links && link == scan.(links := true)
    ensures var f, g := Run(scan, js, Fresh), Run(link, js, Fresh);
            SameShape(f.parser, g.parser) && f.result == g.result <==> !MeetsStray(js, Pushdown(0, []), 0, scan.pool.n)
  {
    LinksAgreeIff(scan, link, js, Fresh, Fresh);
    FreshBeside(scan, js);
    StrayIsUnmatched(scan, js, Fresh, Pushdown(0, []));
  }

  /** A success of the default algorithm is a success of the other, with the same shape. */
  lemma LinksAgreeOnSuccess(scan: Mode, link: Mode, js: string)
    requires scan.pool.Cap? && !scan.strict && !scan.links && link == scan.(links := true)
    requires Run(scan, js, Fresh).result.Ok?
    ensures SameShape(Run(scan, js, Fresh).parser, Run(link, js, Fresh).parser)
    ensures Run(link, js, Fresh).result == Run(scan, js, Fresh).result
  {
    LinksAgreeIff(scan, link, js, Fresh, Fresh);
    SuccessAtEnd(scan, js, Fresh);
  }

  /** On every document the two algorithms agree on the sizes as well: each token but for its parent field is the same. */
  lemma LinksAgreeOnDocuments(scan: Mode, link: Mode, lead: string, d: Json, trail: string)
    requires !scan.links && link == scan.(links := true)
    requires Blanks(lead) && Blanks(trail) && JsonOk(scan.strict, d) && Room(scan, Fresh, Size(d))
    requires scan.strict && d.Lit? ==> trail != ""
    ensures var js := Document(lead, d, trail);
            var f, g := Run(scan, js, Fresh), Run(link, js, Fresh);
            && f.result == g.result && f.parser.pos == g.parser.pos && |f.parser.toks| == |g.parser.toks|
            && forall k :: 0 <= k < |f.parser.toks| ==>
                 SameSpan(f.parser.toks[k], g.parser.toks[k]) && f.parser.toks[k].size == g.parser.toks[k].size
  {
    var js := Document(lead, d, trail);
    ParseIsPreorder(scan, lead, d, trail);
    ParseIsPreorder(link, lead, d, trail);
    DenotesUnique(js, Run(scan, js, Fresh).parser.toks, Run(link, js, Fresh).parser.toks, Preorder(d, |lead|));
  }

  lemma {:induction false} DenotesUnique(js: string, a: seq<Tok>, b: seq<Tok>, nodes: seq<Node>)
    requires DenotesAll(js, a, nodes) && DenotesAll(js, b, nodes)
    ensures |a| == |b| && forall k :: 0 <= k < |a| ==> SameSpan(a[k], b[k]) && a[k].size == b[k].size
    decreases |a|
  {
    if a != [] {
      DenotesUnique(js, a[1..], b[1..], nodes[1..]);
      forall k | 0 <= k < |a|
        ensures SameSpan(a[k], b[k]) && a[k].size == b[k].size
      {
        if k > 0 {
          assert a[k] == a[1..][k - 1] && b[k] == b[1..][k - 1];
        }
      }
    }
  }

  // ----- The exclusion above is not empty -----

  const STRAY := "[]]"

  const STRAY_TOKEN := Tok(Container(Array), 0, 2, 0, -1)

  /** The first two steps on `[]]`, in either build. */
  lemma StrayOpens(js: string, m: Mode, p: Parser)
    requires js == STRAY && !m.strict && m.pool == Cap(4) && p == Parser(2, [STRAY_TOKEN], -1)
    ensures Run(m, js, Fresh) == AddCount(Run(m, js, p), 1)
  {
    var q := Parser(1, [STRAY_TOKEN.(end := -1)], 0);
    assert DoStep(m, js, Fresh) == Go(q, 1);
    assert CloseAt(q.toks, 0, 2) == p.toks && LastOpen(q.toks) == ChainOpen(q.toks, 0) == 0;
    assert DoStep(m, js, q) == Go(p, 0);
    RunStep(m, js, Fresh, q, 1);
    RunStep(m, js, q, p, 0);
  }

  lemma StrayRefused(js: string, p: Parser)
    requires js == STRAY && p == Parser(2, [STRAY_TOKEN], -1)
    ensures Run(Mode(false, false, Cap(4)), js, p).result == Err(Inval)
  {
    assert LastOpen(p.toks) == -1;
  }

  lemma StrayPassed(js: string, p: Parser)
    requires js == STRAY && p == Parser(2, [STRAY_TOKEN], -1)
    ensures Run(Mode(false, true, Cap(4)), js, p).result == Ok(0)
  {
    assert LastOpen(p.toks) == ChainOpen(p.toks, 0) == -1;
    RunStep(Mode(false, true, Cap(4)), js, p, p.(pos := 3), 0);
  }

  /** `[]]` is refused by the scan and accepted by the chain walk. */
  lemma UnmatchedExample()
    ensures Run(Mode(false, false, Cap(4)), STRAY, Fresh).result == Err(Inval)
    ensures Run(Mode(false, true, Cap(4)), STRAY, Fresh).result == Ok(1)
  {
    var p := Parser(2, [STRAY_TOKEN], -1);
    StrayOpens(STRAY, Mode(false, false, Cap(4)), p);
    StrayOpens(STRAY, Mode(false, true, Cap(4)), p);
    StrayRefused(STRAY, p);
    StrayPassed(STRAY, p);
  }
}
