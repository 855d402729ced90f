/**
 The jsmn tokenizer as a machine over values: one step per lexeme, and a run
 that steps until the text ends or a step fails.  `Mode` covers the four builds
 (JSMN_STRICT and JSMN_PARENT_LINKS on or off) and the token pool the caller
 hands in, which may be NULL (the counting mode).

 The nesting stack is implicit, as in the source: a token is open while its end
 is unset, and `sup` is the one cursor (`toksuper`).
 */
module JsmnMachine {
  import opened JsmnLexer

  datatype TokType = Primitive | String | Container(kind: Kind)

  /** A token; `parent` stays -1 unless the build keeps parent links. */
  datatype Tok = Tok(typ: TokType, start: int, end: int, size: nat, parent: int)

  /** The parser fields, with the used prefix of the token array. */
  datatype Parser = Parser(pos: nat, toks: seq<Tok>, sup: int)

  const Fresh := Parser(0, [], -1)

  datatype Pool = NoPool | Cap(n: nat)

  datatype Mode = Mode(strict: bool, links: bool, pool: Pool)

  datatype Error = NoMem | Inval | Part

  datatype Result = Ok(count: nat) | Err(error: Error)

  /** One lexeme: the next parser and the number of tokens it counts for, or an error. */
  datatype Step = Go(next: Parser, made: nat) | Stop(error: Error)

  datatype Final = Final(parser: Parser, result: Result)

  predicate IsOpen(t: Tok) {
    t.start != -1 && t.end == -1
  }

  /** Backward scan below `n` for an open token, -1 if there is none. */
  function OpenBelow(toks: seq<Tok>, n: nat): (i: int)
    requires n <= |toks|
    ensures -1 <= i < n
    ensures i >= 0 ==> IsOpen(toks[i])
    ensures forall j :: i < j < n ==> !IsOpen(toks[j])
  {
    if n == 0 then -1
    else if IsOpen(toks[n - 1]) then n - 1
    else OpenBelow(toks, n - 1)
  }

  /** The innermost open token, -1 if there is none. */
  function LastOpen(toks: seq<Tok>): (i: int)
    ensures -1 <= i < |toks|
    ensures i >= 0 ==> IsOpen(toks[i])
    ensures forall j :: i < j < |toks| ==> !IsOpen(toks[j])
  {
    OpenBelow(toks, |toks|)
  }

  predicate IsOpenContainer(t: Tok) {
    t.typ.Container? && IsOpen(t)
  }

  /** The comma's scan below `n`, which also looks at the token's type. */
  function OpenContainerBelow(toks: seq<Tok>, n: nat): (i: int)
    requires n <= |toks|
    ensures -1 <= i < n
    ensures i >= 0 ==> IsOpenContainer(toks[i])
    ensures forall j :: i < j < n ==> !IsOpenContainer(toks[j])
  {
    if n == 0 then -1
    else if IsOpenContainer(toks[n - 1]) then n - 1
    else OpenContainerBelow(toks, n - 1)
  }

  /** The parent chain from `i` up to its first open token, -1 if it has none. */
  function ChainOpen(toks: seq<Tok>, i: nat): (j: int)
    requires i < |toks|
    ensures -1 <= j <= i
    ensures j >= 0 ==> IsOpen(toks[j])
  {
    if IsOpen(toks[i]) then i
    else if 0 <= toks[i].parent < i then ChainOpen(toks, toks[i].parent)
    else -1
  }

  /** One more child for the superior token, if there is one. */
  function Bump(toks: seq<Tok>, sup: int): (r: seq<Tok>)
    ensures |r| == |toks|
  {
    if 0 <= sup < |toks| then toks[sup := toks[sup].(size := toks[sup].size + 1)] else toks
  }

  function NewTok(m: Mode, typ: TokType, start: int, end: int, sup: int): Tok {
    Tok(typ, start, end, 0, if m.links then sup else -1)
  }

  predicate OutOfTokens(m: Mode, p: Parser) {
    m.pool.Cap? && m.pool.n <= |p.toks|
  }

  /** Count one token and, when there is a pool, store it under the superior. */
  function Add(m: Mode, p: Parser, typ: TokType, start: int, end: int, pos: nat, opens: bool): Step {
    if m.pool.NoPool? then Go(p.(pos := pos), 1)
    else if OutOfTokens(m, p) then Stop(NoMem)
    else Go(Parser(pos, Bump(p.toks, p.sup) + [NewTok(m, typ, start, end, p.sup)],
                   if opens then |p.toks| else p.sup), 1)
  }

  function CloseAt(toks: seq<Tok>, i: nat, end: int): seq<Tok>
    requires i < |toks|
  {
    toks[i := toks[i].(end := end)]
  }

  /** A closing bracket, found by the backward scan. */
  function CloseScan(p: Parser, k: Kind): Step {
    var i := LastOpen(p.toks);
    if i < 0 || p.toks[i].typ != Container(k) then Stop(Inval)
    else Go(Parser(p.pos + 1, CloseAt(p.toks, i, p.pos + 1), OpenBelow(p.toks, i)), 0)
  }

  /** A closing bracket, found along the parent chain of the newest token. */
  function CloseLinks(p: Parser, k: Kind): Step {
    if p.toks == [] then Stop(Inval)
    else
      var i := ChainOpen(p.toks, |p.toks| - 1);
      if i < 0 then Go(p.(pos := p.pos + 1), 0)
      else if p.toks[i].typ != Container(k) then Stop(Inval)
      else Go(Parser(p.pos + 1, CloseAt(p.toks, i, p.pos + 1), p.toks[i].parent), 0)
  }

  /** The superior after a comma; with no superior the comma changes nothing. */
  function CommaSup(m: Mode, p: Parser): int {
    if m.pool.NoPool? || !(0 <= p.sup < |p.toks|) || p.toks[p.sup].typ.Container? then p.sup
    else if m.links then p.toks[p.sup].parent
    else
      var i := OpenContainerBelow(p.toks, |p.toks|);
      if i < 0 then p.sup else i
  }

  /** Strict builds refuse a primitive where an object key belongs. */
  predicate PrimitiveAsKey(m: Mode, p: Parser) {
    m.strict && m.pool.Cap? && 0 <= p.sup < |p.toks| &&
    var t := p.toks[p.sup];
    t.typ == Container(Object) || (t.typ == String && t.size != 0)
  }

  function DoStep(m: Mode, js: string, p: Parser): (s: Step)
    requires !AtEnd(js, p.pos)
    ensures s.Go? ==> p.pos < s.next.pos <= |js|
    ensures s.Go? ==> |p.toks| <= |s.next.toks|
    ensures s.Go? && m.pool.Cap? ==> |s.next.toks| == |p.toks| + s.made
  {
    match Classify(m.strict, js[p.pos])
    case Open(k) => Add(m, p, Container(k), p.pos, -1, p.pos + 1, true)
    case Close(k) =>
      if m.pool.NoPool? then Go(p.(pos := p.pos + 1), 0)
      else if m.links then CloseLinks(p, k)
      else CloseScan(p, k)
    case Quote =>
      (match ScanString(js, p.pos + 1)
       case Found(e) => Add(m, p, String, p.pos + 1, e, e + 1, false)
       case Bad => Stop(Inval)
       case Short => Stop(Part))
    case Blank => Go(p.(pos := p.pos + 1), 0)
    case Colon => Go(p.(pos := p.pos + 1, sup := |p.toks| - 1), 0)
    case Comma => Go(p.(pos := p.pos + 1, sup := CommaSup(m, p)), 0)
    case Bare =>
      if PrimitiveAsKey(m, p) then Stop(Inval)
      else
        (match ScanBare(m.strict, js, p.pos)
         case Found(e) => Add(m, p, Primitive, p.pos, e, e, false)
         case Bad => Stop(Inval)
         case Short => Stop(Part))
    case Illegal => Stop(Inval)
  }

  function Plus(r: Result, k: nat): Result {
    if r.Ok? then Ok(r.count + k) else r
  }

  function AddCount(f: Final, k: nat): Final {
    f.(result := Plus(f.result, k))
  }

  /** One call of the parser, from `p` to the end of the text or the first error. */
  function Run(m: Mode, js: string, p: Parser): (f: Final)
    decreases |js| - p.pos
  {
    if AtEnd(js, p.pos) then Final(p, if LastOpen(p.toks) >= 0 then Err(Part) else Ok(0))
    else
      match DoStep(m, js, p)
      case Stop(e) => Final(p, Err(e))
      case Go(q, made) =>
        AddCount(Run(m, js, q), made)
  }

  /** A run that can step is the run after the step. */
  lemma RunStep(m: Mode, js: string, p: Parser, q: Parser, made: nat)
    requires !AtEnd(js, p.pos) && DoStep(m, js, p) == Go(q, made)
    ensures Run(m, js, p) == AddCount(Run(m, js, q), made)
  {
  }

  // ----- What every state reached from a fresh parser keeps -----

  /** Parent indices strictly decrease, so a parent chain ends. */
  ghost predicate Parented(toks: seq<Tok>) {
    forall i :: 0 <= i < |toks| ==> -1 <= toks[i].parent < i
  }

  /** Only containers are ever open. */
  ghost predicate OpenAreContainers(toks: seq<Tok>) {
    forall i :: 0 <= i < |toks| && IsOpen(toks[i]) ==> toks[i].typ.Container?
  }

  /**
   The cursor names a token or nothing, nothing only while no container is
   open; every open token is a container; parent links are a forest.
   */
  ghost predicate Sane(m: Mode, p: Parser) {
    && -1 <= p.sup < |p.toks|
    && OpenAreContainers(p.toks)
    && (p.sup == -1 ==> LastOpen(p.toks) == -1)
    && (m.pool.NoPool? ==> p.toks == [])
    && (m.links ==> Parented(p.toks) && Threaded(p.toks, p.sup))
  }

  /** With parent links, every open token lies on the parent chains of the cursor and of the newest token. */
  ghost predicate Threaded(toks: seq<Tok>, sup: int) {
    AllAbove(toks, sup) && AllAbove(toks, |toks| - 1)
  }

  ghost predicate AllAbove(toks: seq<Tok>, j: int) {
    forall i :: 0 <= i < |toks| && IsOpen(toks[i]) ==> 0 <= j < |toks| && Above(toks, j, i)
  }

  /** `i` lies on the parent chain that starts at `j`. */
  predicate Above(toks: seq<Tok>, j: nat, i: nat)
    requires j < |toks|
  {
    i == j || (0 <= toks[j].parent < j && Above(toks, toks[j].parent, i))
  }

  lemma {:induction false} AboveLe(toks: seq<Tok>, j: nat, i: nat)
    requires j < |toks| && Above(toks, j, i)
    ensures i <= j
    decreases j
  {
    if i != j {
      AboveLe(toks, toks[j].parent, i);
    }
  }

  /** Chains depend on the parent fields alone. */
  lemma {:induction false} AboveSame(toks: seq<Tok>, later: seq<Tok>, j: nat, i: nat)
    requires j < |toks| <= |later|
    requires forall k :: 0 <= k < |toks| ==> later[k].parent == toks[k].parent
    ensures Above(later, j, i) == Above(toks, j, i)
    decreases j
  {
    if i != j && 0 <= toks[j].parent < j {
      AboveSame(toks, later, toks[j].parent, i);
    }
  }

  /** If every open token is above `j`, the chain walk finds what the backward scan finds. */
  lemma {:induction false} ChainMeetsLastOpen(toks: seq<Tok>, j: nat)
    requires j < |toks| && Parented(toks)
    requires AllAbove(toks, j)
    ensures ChainOpen(toks, j) == LastOpen(toks)
    decreases j
  {
    var l := LastOpen(toks);
    if l >= 0 {
      AboveLe(toks, j, l);
    }
    if !IsOpen(toks[j]) && toks[j].parent >= 0 {
      ChainMeetsLastOpen(toks, toks[j].parent);
    }
  }

  lemma LastOpenUnique(toks: seq<Tok>, i: int)
    requires -1 <= i < |toks|
    requires i >= 0 ==> IsOpen(toks[i])
    requires forall j :: i < j < |toks| ==> !IsOpen(toks[j])
    ensures LastOpen(toks) == i
  {
  }

  /** `later` keeps parents, types and openness of the tokens of `toks`. */
  ghost predicate Keeps(toks: seq<Tok>, later: seq<Tok>) {
    && |toks| <= |later|
    && forall i :: 0 <= i < |toks| ==>
         later[i].parent == toks[i].parent && IsOpen(later[i]) == IsOpen(toks[i]) && later[i].typ == toks[i].typ
  }

  /** A token stored under `sup` lies above what `sup` lies above, and itself if it is open. */
  lemma StoredAllAbove(toks: seq<Tok>, sup: int, t: seq<Tok>)
    requires -1 <= sup < |toks| && AllAbove(toks, sup)
    requires Keeps(toks, t) && |t| == |toks| + 1 && t[|toks|].parent == sup
    ensures AllAbove(t, |toks|)
    ensures !IsOpen(t[|toks|]) ==> AllAbove(t, sup)
  {
    forall i | 0 <= i < |toks| && IsOpen(t[i])
      ensures 0 <= sup && Above(t, sup, i) && Above(t, |toks|, i)
    {
      assert IsOpen(toks[i]);
      AboveSame(toks, t, sup, i);
    }
  }

  /** The backward scan looks at the tokens below `n` only. */
  lemma {:induction false} OpenBelowSame(toks: seq<Tok>, later: seq<Tok>, n: nat)
    requires n <= |toks| && n <= |later|
    requires forall i :: 0 <= i < n ==> IsOpen(later[i]) == IsOpen(toks[i])
    ensures OpenBelow(later, n) == OpenBelow(toks, n)
  {
  }

  lemma AddSane(m: Mode, p: Parser, typ: TokType, start: int, end: int, pos: nat, opens: bool)
    requires Sane(m, p)
    requires start >= 0 && opens == (end == -1) && (opens ==> typ.Container?)
    requires Add(m, p, typ, start, end, pos, opens).Go?
    ensures Sane(m, Add(m, p, typ, start, end, pos, opens).next)
  {
    if m.pool.Cap? {
      var q := Add(m, p, typ, start, end, pos, opens).next;
      StoredSane(m, p, q);
    }
  }

  /** A sane parser stays sane when a closed token, or an open container that becomes the superior, is stored. */
  lemma StoredSane(m: Mode, p: Parser, q: Parser)
    requires Sane(m, p) && m.pool.Cap?
    requires Keeps(p.toks, q.toks) && |q.toks| == |p.toks| + 1
    requires m.links ==> q.toks[|p.toks|].parent == p.sup
    requires if IsOpen(q.toks[|p.toks|]) then q.toks[|p.toks|].typ.Container? && q.sup == |p.toks| else q.sup == p.sup
    ensures Sane(m, q)
  {
    if !IsOpen(q.toks[|p.toks|]) {
      LastOpenUnique(q.toks, LastOpen(p.toks));
    }
    if m.links {
      StoredAllAbove(p.toks, p.sup, q.toks);
    }
  }

  lemma CloseThreadedAt(toks: seq<Tok>, t: seq<Tok>, i: nat, j: nat)
    requires j < i < |toks| == |t|
    requires forall k :: 0 <= k < |toks| ==> t[k].parent == toks[k].parent
    requires Above(toks, |toks| - 1, i) && Above(toks, |toks| - 1, j)
    ensures 0 <= t[i].parent < |t| && Above(t, t[i].parent, j) && Above(t, |t| - 1, j)
  {
    AboveSame(toks, t, |toks| - 1, i);
    AboveSame(toks, t, |toks| - 1, j);
    AboveThrough(t, |t| - 1, i, j);
  }

  lemma CloseThreaded(toks: seq<Tok>, t: seq<Tok>, i: nat)
    requires i < |toks| == |t| && IsOpen(toks[i]) && !IsOpen(t[i])
    requires forall k :: 0 <= k < |toks| ==> t[k].parent == toks[k].parent
    requires forall k :: 0 <= k < i ==> t[k] == toks[k]
    requires forall k :: i < k < |t| ==> !IsOpen(t[k])
    requires AllAbove(toks, |toks| - 1)
    ensures Threaded(t, t[i].parent)
  {
    forall j | 0 <= j < |t| && IsOpen(t[j])
      ensures 0 <= t[i].parent < |t| && Above(t, t[i].parent, j) && Above(t, |t| - 1, j)
    {
      assert IsOpen(toks[j]);
      CloseThreadedAt(toks, t, i, j);
    }
  }

  lemma CloseLinksSane(m: Mode, p: Parser, k: Kind)
    requires Sane(m, p) && m.links && CloseLinks(p, k).Go?
    ensures Sane(m, CloseLinks(p, k).next)
  {
    ChainMeetsLastOpen(p.toks, |p.toks| - 1);
    var i := ChainOpen(p.toks, |p.toks| - 1);
    var q := CloseLinks(p, k).next;
    if i >= 0 {
      CloseThreaded(p.toks, q.toks, i);
      if q.sup == -1 {
        LastOpenUnique(q.toks, -1);
      }
    }
  }

  /** Two tokens above the same one: the lower of them is above the higher. */
  lemma {:induction false} AboveThrough(toks: seq<Tok>, j: nat, i: nat, h: nat)
    requires j < |toks| && Above(toks, j, h) && h < i
    requires Above(toks, j, i)
    ensures i < |toks| && 0 <= toks[i].parent < i && Above(toks, toks[i].parent, h)
    decreases j
  {
    AboveLe(toks, j, i);
    if i != j {
      AboveThrough(toks, toks[j].parent, i, h);
    }
  }

  lemma CommaSane(m: Mode, p: Parser)
    requires Sane(m, p)
    ensures Sane(m, p.(pos := p.pos + 1, sup := CommaSup(m, p)))
  {
  }

  /** Every lexeme, on any text, keeps the parser sane; a fresh parser is sane. */
  lemma StepSane(m: Mode, js: string, p: Parser)
    requires Sane(m, p) && !AtEnd(js, p.pos) && DoStep(m, js, p).Go?
    ensures Sane(m, DoStep(m, js, p).next)
  {
    match Classify(m.strict, js[p.pos])
    case Open(k) => AddSane(m, p, Container(k), p.pos, -1, p.pos + 1, true);
    case Close(k) =>
      if m.pool.Cap? {
        if m.links { CloseLinksSane(m, p, k); }
      }
    case Quote =>
      var e := ScanString(js, p.pos + 1).end;
      AddSane(m, p, String, p.pos + 1, e, e + 1, false);
    case Blank =>
    case Colon =>
    case Comma => CommaSane(m, p);
    case Bare =>
      var e := ScanBare(m.strict, js, p.pos).end;
      AddSane(m, p, Primitive, p.pos, e, e, false);
  }

  /** Every exit of a run, errors included, leaves a sane parser, and a successful run returns the tokens it added. */
  lemma {:induction false} RunSane(m: Mode, js: string, p: Parser)
    requires Sane(m, p)
    ensures Sane(m, Run(m, js, p).parser)
    ensures p.pos <= Run(m, js, p).parser.pos
    ensures |p.toks| <= |Run(m, js, p).parser.toks|
    ensures m.pool.Cap? && Run(m, js, p).result.Ok? ==>
              Run(m, js, p).result.count == |Run(m, js, p).parser.toks| - |p.toks|
    decreases |js| - p.pos
  {
    if !AtEnd(js, p.pos) && DoStep(m, js, p).Go? {
      StepSane(m, js, p);
      RunSane(m, js, DoStep(m, js, p).next);
    }
  }
}
