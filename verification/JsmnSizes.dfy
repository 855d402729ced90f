/**
 Bookkeeping of sizes, in every build: each token is counted by exactly one
 superior or by none, and with parent links a token's size is the number of
 tokens that name it as parent.
 */
module JsmnSizes {
  import opened JsmnLexer
  import opened JsmnMachine
  import opened JsmnNesting

  /** The sum of the sizes of the tokens below `n`. */
  function Total(toks: seq<Tok>, n: nat): nat
    requires n <= |toks|
  {
    if n == 0 then 0 else Total(toks, n - 1) + toks[n - 1].size
  }

  lemma {:induction false} TotalSame(toks: seq<Tok>, later: seq<Tok>, n: nat)
    requires n <= |toks| && n <= |later|
    requires forall i :: 0 <= i < n ==> later[i].size == toks[i].size
    ensures Total(later, n) == Total(toks, n)
  {
    if n > 0 {
      TotalSame(toks, later, n - 1);
    }
  }

  lemma {:induction false} TotalBump(toks: seq<Tok>, sup: int, n: nat)
    requires n <= |toks| && -1 <= sup < |toks|
    ensures Total(Bump(toks, sup), n) == Total(toks, n) + if 0 <= sup < n then 1 else 0
  {
    if n > 0 {
      TotalBump(toks, sup, n - 1);
    }
  }

  /** A step that stores a token under no superior. */
  predicate MakesRoot(m: Mode, js: string, p: Parser)
    requires !AtEnd(js, p.pos)
  {
    var s := DoStep(m, js, p);
    s.Go? && s.made > 0 && p.sup == -1
  }

  lemma StoredTotal(p: Parser, t: Tok)
    requires -1 <= p.sup < |p.toks| && t.size == 0
    ensures var r := Bump(p.toks, p.sup) + [t];
            Total(r, |r|) == Total(p.toks, |p.toks|) + if p.sup >= 0 then 1 else 0
  {
    var b := Bump(p.toks, p.sup);
    TotalBump(p.toks, p.sup, |p.toks|);
    TotalSame(b, b + [t], |b|);
  }

  lemma StepTotal(m: Mode, js: string, p: Parser)
    requires m.pool.Cap? && Sane(m, p) && !AtEnd(js, p.pos) && DoStep(m, js, p).Go?
    ensures var q, made := DoStep(m, js, p).next, DoStep(m, js, p).made;
            Total(q.toks, |q.toks|) + (if MakesRoot(m, js, p) then 1 else 0) == Total(p.toks, |p.toks|) + made
  {
    match Classify(m.strict, js[p.pos])
    case Open(k) => StoredTotal(p, NewTok(m, Container(k), p.pos, -1, p.sup));
    case Close(k) => TotalSame(p.toks, DoStep(m, js, p).next.toks, |p.toks|);
    case Quote => StoredTotal(p, NewTok(m, String, p.pos + 1, ScanString(js, p.pos + 1).end, p.sup));
    case Bare => StoredTotal(p, NewTok(m, Primitive, p.pos, ScanBare(m.strict, js, p.pos).end, p.sup));
    case _ =>
  }

  /** How many of the tokens made in `n` steps had no superior. */
  function Roots(m: Mode, js: string, p: Parser, n: nat): nat
    decreases n
  {
    if n == 0 || AtEnd(js, p.pos) || DoStep(m, js, p).Stop? then 0
    else (if MakesRoot(m, js, p) then 1 else 0) + Roots(m, js, DoStep(m, js, p).next, n - 1)
  }

  /** At every loop head, hence at every exit, the sizes add up to the tokens that had a superior. */
  lemma {:induction false} SizesAddUp(m: Mode, js: string, p: Parser, n: nat)
    requires m.pool.Cap? && Sane(m, p)
    ensures var q := Steps(m, js, p, n);
            Total(q.toks, |q.toks|) + Roots(m, js, p, n) - Total(p.toks, |p.toks|) == |q.toks| - |p.toks|
    decreases n
  {
    if n > 0 && !AtEnd(js, p.pos) && DoStep(m, js, p).Go? {
      StepSane(m, js, p);
      StepTotal(m, js, p);
      SizesAddUp(m, js, DoStep(m, js, p).next, n - 1);
    }
  }

  // ----- Parent links -----

  /** How many tokens below `n` name `i` as their parent. */
  function Children(toks: seq<Tok>, n: nat, i: int): nat
    requires n <= |toks|
  {
    if n == 0 then 0 else Children(toks, n - 1, i) + if toks[n - 1].parent == i then 1 else 0
  }

  lemma {:induction false} ChildrenSame(toks: seq<Tok>, later: seq<Tok>, n: nat, i: int)
    requires n <= |toks| && n <= |later|
    requires forall k :: 0 <= k < n ==> later[k].parent == toks[k].parent
    ensures Children(later, n, i) == Children(toks, n, i)
  {
    if n > 0 {
      ChildrenSame(toks, later, n - 1, i);
    }
  }

  /** Nobody names a token that comes later. */
  lemma {:induction false} NoChildrenYet(toks: seq<Tok>, n: nat, i: nat)
    requires n <= |toks| && n <= i && Parented(toks)
    ensures Children(toks, n, i) == 0
  {
    if n > 0 {
      NoChildrenYet(toks, n - 1, i);
    }
  }

  ghost predicate SizesCountChildren(toks: seq<Tok>) {
    forall i :: 0 <= i < |toks| ==> toks[i].size == Children(toks, |toks|, i)
  }

  lemma StoredChildren(m: Mode, p: Parser, t: Tok)
    requires m.links && -1 <= p.sup < |p.toks| && SizesCountChildren(p.toks) && Parented(p.toks)
    requires t.parent == p.sup && t.size == 0
    ensures SizesCountChildren(Bump(p.toks, p.sup) + [t])
  {
    var n := |p.toks|;
    var r := Bump(p.toks, p.sup) + [t];
    forall i | 0 <= i < |r|
      ensures r[i].size == Children(r, |r|, i)
    {
      ChildrenSame(p.toks, r, n, i);
      if i == n {
        NoChildrenYet(p.toks, n, n);
      }
    }
  }

  lemma StepChildren(m: Mode, js: string, p: Parser)
    requires m.pool.Cap? && m.links && Sane(m, p) && SizesCountChildren(p.toks)
    requires !AtEnd(js, p.pos) && DoStep(m, js, p).Go?
    ensures SizesCountChildren(DoStep(m, js, p).next.toks)
  {
    match Classify(m.strict, js[p.pos])
    case Open(k) => StoredChildren(m, p, NewTok(m, Container(k), p.pos, -1, p.sup));
    case Close(k) =>
      var r := DoStep(m, js, p).next.toks;
      forall i | 0 <= i < |r|
        ensures r[i].size == Children(r, |r|, i)
      {
        ChildrenSame(p.toks, r, |r|, i);
      }
    case Quote => StoredChildren(m, p, NewTok(m, String, p.pos + 1, ScanString(js, p.pos + 1).end, p.sup));
    case Bare => StoredChildren(m, p, NewTok(m, Primitive, p.pos, ScanBare(m.strict, js, p.pos).end, p.sup));
    case _ =>
  }

  /** With parent links, at every loop head each size is the number of tokens naming that token as parent. */
  lemma {:induction false} LoopHeadChildren(m: Mode, js: string, p: Parser, n: nat)
    requires m.pool.Cap? && m.links && Sane(m, p) && SizesCountChildren(p.toks)
    ensures SizesCountChildren(Steps(m, js, p, n).toks) && Parented(Steps(m, js, p, n).toks)
    decreases n
  {
    if n > 0 && !AtEnd(js, p.pos) && DoStep(m, js, p).Go? {
      StepSane(m, js, p);
      StepChildren(m, js, p);
      LoopHeadChildren(m, js, DoStep(m, js, p).next, n - 1);
    }
  }

  // ----- Primitives in strict builds -----

  /** Token `i` is no primitive in the place of a key: not right under an object, and under a string only as its first child. */
  ghost predicate NoKey(toks: seq<Tok>, i: nat)
    requires i < |toks|
  {
    var p := toks[i].parent;
    toks[i].typ == Primitive && 0 <= p < i ==> toks[p].typ != Container(Object) && (toks[p].typ == String ==> Children(toks, i, p) == 0)
  }

  ghost predicate NoKeys(toks: seq<Tok>) {
    forall i :: 0 <= i < |toks| ==> NoKey(toks, i)
  }

  lemma NoKeySame(toks: seq<Tok>, later: seq<Tok>, i: nat)
    requires i < |toks| <= |later| && NoKey(toks, i)
    requires forall k :: 0 <= k < |toks| ==> later[k].parent == toks[k].parent && later[k].typ == toks[k].typ
    ensures NoKey(later, i)
  {
    ChildrenSame(toks, later, i, toks[i].parent);
  }

  lemma StepNoKeys(m: Mode, js: string, p: Parser)
    requires m.pool.Cap? && m.links && m.strict && Sane(m, p) && SizesCountChildren(p.toks) && NoKeys(p.toks)
    requires !AtEnd(js, p.pos) && DoStep(m, js, p).Go?
    ensures NoKeys(DoStep(m, js, p).next.toks)
  {
    var r := DoStep(m, js, p).next.toks;
    forall i | 0 <= i < |r|
      ensures NoKey(r, i)
    {
      if i < |p.toks| {
        NoKeySame(p.toks, r, i);
      } else {
        ChildrenSame(p.toks, r, i, r[i].parent);
      }
    }
  }

  /** At every loop head of a strict build with links, no primitive stands where a key belongs. */
  lemma {:induction false} StrictPrimitives(m: Mode, js: string, p: Parser, n: nat)
    requires m.pool.Cap? && m.links && m.strict && Sane(m, p) && SizesCountChildren(p.toks) && NoKeys(p.toks)
    ensures NoKeys(Steps(m, js, p, n).toks)
    decreases n
  {
    if n > 0 && !AtEnd(js, p.pos) && DoStep(m, js, p).Go? {
      StepSane(m, js, p);
      StepChildren(m, js, p);
      StepNoKeys(m, js, p);
      StrictPrimitives(m, js, DoStep(m, js, p).next, n - 1);
    }
  }
}
