/**
 Functional correctness of the tokenizer against JSON syntax trees: on every
 rendering of every document, with enough tokens, each build succeeds and
 produces exactly the pre-order nodes of the tree.
 */
module JsmnCorrect {
  import opened JsmnLexer
  import opened JsmnMachine
  import opened JsonGrammar
  import opened SeqFacts

  /**
   One build on one text, seen through a few facts only (`Follows`): a step leads
   to the run after it and keeps the parser sane; `value` and `elems` say that the
   text of a tree, or of its elements, lies at an offset; `fits` is `DenotesAll`.
   Passed as parameters these do not unfold in the proofs below.
   */
  datatype Behaviour = Behaviour(
    run: Parser -> Final,
    sane: Parser -> bool,
    value: (nat, Json) -> bool,
    elems: (nat, Kind, Elems, bool) -> bool,
    fits: (seq<Tok>, seq<Node>) -> bool)

  ghost predicate Follows(b: Behaviour, m: Mode, js: string) {
    && (forall p {:trigger DoStep(m, js, p)} :: b.sane(p) && !AtEnd(js, p.pos) && DoStep(m, js, p).Go? ==>
          Reaches(b, p, DoStep(m, js, p).next, DoStep(m, js, p).made))
    && (forall p {:trigger Sane(m, p)} :: b.sane(p) ==> Sane(m, p))
    && (forall o, d {:trigger Text(d), b.value(o, d)} :: b.value(o, d) == Occurs(js, o, Text(d)))
    && (forall o, k, es, first {:trigger ElemsText(k, es, first), b.elems(o, k, es, first)} ::
          b.elems(o, k, es, first) == Occurs(js, o, ElemsText(k, es, first)))
    && (forall t, n {:trigger DenotesAll(js, t, n)} :: b.fits(t, n) == DenotesAll(js, t, n))
  }

  /** A run from `p` is a run from `q` that counts `k` tokens more, and `q` is sane. */
  ghost predicate Reaches(b: Behaviour, p: Parser, q: Parser, k: nat) {
    b.sane(q) && b.run(p) == AddCount(b.run(q), k)
  }

  lemma Reach(b: Behaviour, p: Parser, q: Parser, r: Parser, j: nat, k: nat)
    requires Reaches(b, p, q, j) && Reaches(b, q, r, k)
    ensures Reaches(b, p, r, j + k)
  {
  }

  lemma StepReaches(b: Behaviour, m: Mode, js: string, p: Parser, q: Parser, made: nat)
    requires Follows(b, m, js) && b.sane(p) && !AtEnd(js, p.pos) && DoStep(m, js, p) == Go(q, made)
    ensures Reaches(b, p, q, made)
  {
  }

  // ----- Lexemes -----

  lemma {:induction false} BlanksRun(b: Behaviour, m: Mode, js: string, p: Parser, w: string, q: Parser)
    requires Follows(b, m, js) && b.sane(p) && Blanks(w) && Occurs(js, p.pos, w)
    requires q == p.(pos := p.pos + |w|)
    ensures Reaches(b, p, q, 0)
    decreases |w|
  {
    if w != "" {
      var r := p.(pos := p.pos + 1);
      OccursAt(js, p.pos, w, 0);
      HeadTail(w);
      OccursSplit(js, p.pos, [w[0]], w[1..]);
      StepReaches(b, m, js, p, r, 0);
      BlanksRun(b, m, js, r, w[1..], q);
      Reach(b, p, r, q, 0, 0);
    }
  }

  /** After storing a closed token. */
  function Stored(m: Mode, p: Parser, typ: TokType, start: nat, end: nat, pos: nat): Parser {
    Parser(pos, Bump(p.toks, p.sup) + [NewTok(m, typ, start, end, p.sup)], p.sup)
  }

  predicate Room(m: Mode, p: Parser, n: nat) {
    m.pool.Cap? && |p.toks| + n <= m.pool.n
  }

  lemma StringRun(b: Behaviour, m: Mode, js: string, p: Parser, body: seq<StringUnit>)
    requires Follows(b, m, js) && b.sane(p) && Room(m, p, 1) && Occurs(js, p.pos, Quoted(body))
    requires forall k :: 0 <= k < |body| ==> UnitOk(body[k])
    ensures var q := Stored(m, p, String, p.pos + 1, p.pos + 1 + |BodyText(body)|, p.pos + |BodyText(body)| + 2);
            Reaches(b, p, q, 1)
  {
    QuotedParts(js, p.pos, body);
    ScanStringAccepts(js, p.pos + 1, body);
    StepReaches(b, m, js, p, Stored(m, p, String, p.pos + 1, p.pos + 1 + |BodyText(body)|, p.pos + |BodyText(body)| + 2), 1);
  }

  /** The text behind an unquoted value ends it. */
  predicate EndsHere(strict: bool, js: string, e: nat) {
    if AtEnd(js, e) then !strict else EndsBare(strict, js[e])
  }

  lemma {:induction false} ScanLit(strict: bool, js: string, p: nat, e: nat)
    requires p <= e <= |js| && EndsHere(strict, js, e)
    requires forall k :: p <= k < e ==> IsPrintable(js[k]) && !EndsBare(false, js[k])
    ensures ScanBare(strict, js, p) == Found(e)
    decreases e - p
  {
    if p < e {
      ScanLit(strict, js, p + 1, e);
    }
  }

  lemma LitRun(b: Behaviour, m: Mode, js: string, p: Parser, t: string)
    requires Follows(b, m, js) && b.sane(p) && Room(m, p, 1) && LitOk(m.strict, t) && Occurs(js, p.pos, t)
    requires EndsHere(m.strict, js, p.pos + |t|) && !PrimitiveAsKey(m, p)
    ensures var q := Stored(m, p, Primitive, p.pos, p.pos + |t|, p.pos + |t|);
            Reaches(b, p, q, 1)
  {
    var e := p.pos + |t|;
    forall k | p.pos <= k < e
      ensures IsPrintable(js[k]) && !EndsBare(false, js[k])
    {
      OccursAt(js, p.pos, t, k - p.pos);
    }
    OccursAt(js, p.pos, t, 0);
    ScanLit(m.strict, js, p.pos, e);
    StepReaches(b, m, js, p, Stored(m, p, Primitive, p.pos, e, e), 1);
  }

  /** After an opening bracket. */
  function Opened(m: Mode, p: Parser, k: Kind): Parser {
    Parser(p.pos + 1, Bump(p.toks, p.sup) + [NewTok(m, Container(k), p.pos, -1, p.sup)], |p.toks|)
  }

  lemma OpenRun(b: Behaviour, m: Mode, js: string, p: Parser, k: Kind)
    requires Follows(b, m, js) && b.sane(p) && Room(m, p, 1) && p.pos < |js| && js[p.pos] == Opener(k)
    ensures Reaches(b, p, Opened(m, p, k), 1)
  {
    StepReaches(b, m, js, p, Opened(m, p, k), 1);
  }

  /** `base` is the innermost open container and has the given kind. */
  predicate InBox(p: Parser, k: Kind, base: nat) {
    LastOpen(p.toks) == base && p.toks[base].typ == Container(k)
  }

  /** The superior after the container at `i` is closed. */
  function Outer(m: Mode, toks: seq<Tok>, i: nat): int
    requires i < |toks|
  {
    if m.links then toks[i].parent else OpenBelow(toks, i)
  }

  lemma CloseRun(b: Behaviour, m: Mode, js: string, p: Parser, k: Kind, base: nat)
    requires Follows(b, m, js) && b.sane(p) && m.pool.Cap? && InBox(p, k, base)
    requires p.pos < |js| && js[p.pos] == Closer(k)
    ensures var q := Parser(p.pos + 1, CloseAt(p.toks, base, p.pos + 1), Outer(m, p.toks, base));
            Reaches(b, p, q, 0)
  {
    assert Sane(m, p);
    if m.links {
      ChainMeetsLastOpen(p.toks, |p.toks| - 1);
    }
    StepReaches(b, m, js, p, Parser(p.pos + 1, CloseAt(p.toks, base, p.pos + 1), Outer(m, p.toks, base)), 0);
  }

  /** Between elements the cursor is on the container, or on a key of it. */
  predicate SupOk(m: Mode, p: Parser, base: nat) {
    p.sup == base ||
    (0 <= p.sup < |p.toks| && p.toks[p.sup].typ == String && (m.links ==> p.toks[p.sup].parent == base))
  }

  lemma SepRun(b: Behaviour, m: Mode, js: string, p: Parser, first: bool, k: Kind, base: nat)
    requires Follows(b, m, js) && b.sane(p) && m.pool.Cap? && InBox(p, k, base) && SupOk(m, p, base) && (first ==> p.sup == base)
    requires Occurs(js, p.pos, Sep(first))
    ensures var q := Parser(p.pos + |Sep(first)|, p.toks, base);
            Reaches(b, p, q, 0)
  {
    if !first {
      OccursAt(js, p.pos, Sep(first), 0);
      StepReaches(b, m, js, p, Parser(p.pos + 1, p.toks, base), 0);
    }
  }

  /** After a key, its colon and the white space around it. */
  function Keyed(m: Mode, p: Parser, k: Key): Parser {
    if k.NoKey? then p
    else Stored(m, p, String, p.pos + 1, p.pos + 1 + |BodyText(k.body)|, p.pos + KeyWidth(k)).(sup := |p.toks|)
  }

  lemma KeyRun(b: Behaviour, m: Mode, js: string, p: Parser, kind: Kind, k: Key)
    requires Follows(b, m, js) && b.sane(p) && Room(m, p, KeyCount(k)) && KeyOk(kind, k) && Occurs(js, p.pos, KeyText(k))
    ensures Reaches(b, p, Keyed(m, p, k), KeyCount(k))
  {
    if k.Key? {
      KeyParts(js, k, p.pos);
      var c := p.pos + |BodyText(k.body)| + 2;
      var p1 := Stored(m, p, String, p.pos + 1, p.pos + 1 + |BodyText(k.body)|, c);
      var p2 := p1.(pos := c + |k.mid|);
      var p3 := p1.(pos := c + |k.mid| + 1, sup := |p.toks|);
      StringRun(b, m, js, p, k.body);
      BlanksRun(b, m, js, p1, k.mid, p2);
      StepReaches(b, m, js, p2, p3, 0);
      BlanksRun(b, m, js, p3, k.gap, Keyed(m, p, k));
      Reach(b, p, p1, p2, 1, 0);
      Reach(b, p, p2, p3, 1, 0);
      Reach(b, p, p3, Keyed(m, p, k), 1, 0);
    }
  }

  // ----- Tokens -----

  predicate AllClosed(toks: seq<Tok>) {
    forall k :: 0 <= k < |toks| ==> !IsOpen(toks[k])
  }

  /** The key token once its value has been counted. */
  function KeyToks(m: Mode, k: Key, o: nat, par: int): seq<Tok> {
    if k.NoKey? then [] else [NewTok(m, String, o + 1, o + 1 + |BodyText(k.body)|, par).(size := 1)]
  }

  lemma FitsConcat(b: Behaviour, m: Mode, js: string, t: seq<Tok>, u: seq<Tok>, x: seq<Node>, y: seq<Node>)
    requires Follows(b, m, js) && b.fits(t, x) && b.fits(u, y)
    ensures b.fits(t + u, x + y)
  {
    assert DenotesAll(js, t, x) && DenotesAll(js, u, y);
    DenotesConcat(js, t, u, x, y);
  }

  lemma FitsOne(b: Behaviour, m: Mode, js: string, t: Tok, n: Node)
    requires Follows(b, m, js) && Denotes(js, t, n)
    ensures b.fits([t], [n])
  {
    DenotesOne(js, t, n);
  }

  lemma FitsNone(b: Behaviour, m: Mode, js: string)
    requires Follows(b, m, js)
    ensures b.fits([], [])
  {
    assert DenotesAll(js, [], []);
  }

  lemma KeyDenotes(b: Behaviour, m: Mode, js: string, k: Key, o: nat, par: int)
    requires Follows(b, m, js) && Occurs(js, o, KeyText(k))
    ensures b.fits(KeyToks(m, k, o, par), KeyNodes(k, o))
  {
    if k.Key? {
      KeyParts(js, k, o);
      QuotedParts(js, o, k.body);
      FitsOne(b, m, js, KeyToks(m, k, o, par)[0], KeyNodes(k, o)[0]);
    } else {
      FitsNone(b, m, js);
    }
  }

  /** Storing a value counts it for its key, or for the container. */
  lemma KeyedTokens(m: Mode, p: Parser, k: Key, g: seq<Tok>)
    requires 0 <= p.sup < |p.toks|
    ensures var q := Keyed(m, p, k);
            Bump(q.toks, q.sup) + g == Bump(p.toks, p.sup) + (KeyToks(m, k, p.pos, p.sup) + g)
  {
  }

  /** The container at `base` with `n` more children and its end set. */
  function Grown(toks: seq<Tok>, base: nat, n: nat, end: nat): seq<Tok>
    requires base < |toks|
  {
    toks[base := toks[base].(size := toks[base].size + n, end := end)]
  }

  lemma GrownOnce(toks: seq<Tok>, base: nat, x: seq<Tok>, f: seq<Tok>, n: nat, e: nat)
    requires base < |toks|
    ensures Grown(Bump(toks, base) + x, base, n, e) + f == Grown(toks, base, n + 1, e) + (x + f)
  {
  }

  lemma StillInBox(p: Parser, q: Parser, k: Kind, base: nat, x: seq<Tok>)
    requires InBox(p, k, base) && q.toks == Bump(p.toks, base) + x && AllClosed(x)
    ensures InBox(q, k, base)
  {
    forall j | base < j < |q.toks|
      ensures !IsOpen(q.toks[j])
    {
      if j >= |p.toks| {
        assert q.toks[j] == x[j - |p.toks|];
      }
    }
    LastOpenUnique(q.toks, base);
  }

  lemma OpenedInBox(m: Mode, p: Parser, k: Kind)
    ensures InBox(Opened(m, p, k), k, |p.toks|)
    ensures OpenBelow(Opened(m, p, k).toks, |p.toks|) == LastOpen(p.toks)
  {
    var q := Opened(m, p, k);
    LastOpenUnique(q.toks, |p.toks|);
    OpenBelowSame(p.toks, q.toks, |p.toks|);
  }

  // ----- Values and elements -----

  /** White space, a comma or the closing bracket follows the value of an element. */
  lemma ElementEnds(js: string, strict: bool, k: Kind, es: Elems, e: nat)
    requires es.Elem? && ElemsOk(strict, k, es)
    requires Occurs(js, e, es.trail) && Occurs(js, e + |es.trail|, ElemsText(k, es.rest, false))
    ensures EndsHere(strict, js, e)
  {
    if es.trail != "" {
      OccursAt(js, e, es.trail, 0);
    } else {
      var t := ElemsText(k, es.rest, false);
      assert t[0] == if es.rest.NoElem? then Closer(k) else ',';
      OccursAt(js, e, t, 0);
    }
  }

  /** The parser behind a value: its tokens stored, and its first token counted for the superior. */
  function Behind(m: Mode, d: Json, p: Parser, f: seq<Tok>): Parser {
    Parser(p.pos + Width(d), Bump(p.toks, p.sup) + f, if d.Box? && !m.links then LastOpen(p.toks) else p.sup)
  }

  lemma LeafRun(b: Behaviour, m: Mode, js: string, d: Json, p: Parser) returns (f: seq<Tok>)
    requires Follows(b, m, js) && b.sane(p) && !d.Box? && JsonOk(m.strict, d) && Room(m, p, 1)
    requires b.value(p.pos, d) && !PrimitiveAsKey(m, p)
    requires d.Lit? ==> EndsHere(m.strict, js, p.pos + Width(d))
    ensures |f| == 1 && AllClosed(f) && b.fits(f, Preorder(d, p.pos))
    ensures Reaches(b, p, Behind(m, d, p, f), 1)
  {
    assert Occurs(js, p.pos, Text(d));
    if d.Lit? {
      f := [NewTok(m, Primitive, p.pos, p.pos + |d.text|, p.sup)];
      LitRun(b, m, js, p, d.text);
    } else {
      f := [NewTok(m, String, p.pos + 1, p.pos + 1 + |BodyText(d.body)|, p.sup)];
      StringRun(b, m, js, p, d.body);
      QuotedParts(js, p.pos, d.body);
    }
    FitsOne(b, m, js, f[0], Value(p.pos, d));
    AppendNil([Value(p.pos, d)]);
  }

  lemma {:induction false} ValueRun(b: Behaviour, m: Mode, js: string, d: Json, p: Parser) returns (f: seq<Tok>)
    requires Follows(b, m, js) && b.sane(p) && JsonOk(m.strict, d) && Room(m, p, Size(d))
    requires b.value(p.pos, d) && !PrimitiveAsKey(m, p)
    requires d.Lit? ==> EndsHere(m.strict, js, p.pos + Width(d))
    ensures |f| == Size(d) && AllClosed(f) && b.fits(f, Preorder(d, p.pos))
    ensures Reaches(b, p, Behind(m, d, p, f), Size(d))
    decreases d
  {
    if d.Box? {
      BoxReads(b, m, js, d, p.pos);
      var g := BoxRun(b, m, js, d, p);
      f := [HeadTok(m, d, p)] + g;
      BoxFits(b, m, js, d, p, g);
    } else {
      f := LeafRun(b, m, js, d, p);
    }
  }

  /** The token of a container once it is closed. */
  function HeadTok(m: Mode, d: Json, p: Parser): Tok
    requires d.Box?
  {
    NewTok(m, Container(d.kind), p.pos, p.pos + Width(d), p.sup).(size := Count(d.elems))
  }

  /** The parser behind the closing bracket of the container at `base`. */
  function Ended(m: Mode, es: Elems, first: bool, p: Parser, base: nat, f: seq<Tok>): Parser
    requires base < |p.toks|
  {
    var e := p.pos + ElemsWidth(es, first);
    Parser(e, Grown(p.toks, base, Count(es), e) + f, Outer(m, p.toks, base))
  }

  lemma BoxEnded(m: Mode, d: Json, p: Parser, p2: Parser, g: seq<Tok>)
    requires d.Box? && p2 == Opened(m, p, d.kind).(pos := p.pos + 1 + |d.pad|)
    ensures Ended(m, d.elems, true, p2, |p.toks|, g) == Behind(m, d, p, [HeadTok(m, d, p)] + g)
  {
    OpenedInBox(m, p, d.kind);
    UpdateLast(Bump(p.toks, p.sup), NewTok(m, Container(d.kind), p.pos, -1, p.sup), HeadTok(m, d, p), g);
  }

  lemma BoxFits(b: Behaviour, m: Mode, js: string, d: Json, p: Parser, g: seq<Tok>)
    requires Follows(b, m, js) && d.Box? && b.value(p.pos, d)
    requires b.fits(g, PreorderElems(d.elems, true, p.pos + 1 + |d.pad|))
    ensures b.fits([HeadTok(m, d, p)] + g, Preorder(d, p.pos))
  {
    assert Occurs(js, p.pos, Text(d));
    TextWidth(d);
    FitsOne(b, m, js, HeadTok(m, d, p), Value(p.pos, d));
    FitsConcat(b, m, js, [HeadTok(m, d, p)], g, [Value(p.pos, d)], PreorderElems(d.elems, true, p.pos + 1 + |d.pad|));
  }

  lemma BoxReads(b: Behaviour, m: Mode, js: string, d: Json, o: nat)
    requires Follows(b, m, js) && d.Box? && b.value(o, d)
    ensures o < |js| && js[o] == Opener(d.kind)
    ensures Occurs(js, o + 1, d.pad) && b.elems(o + 1 + |d.pad|, d.kind, d.elems, true)
  {
    assert Occurs(js, o, Text(d));
    BoxParts(js, d, o);
  }

  lemma ElemReads(b: Behaviour, m: Mode, js: string, k: Kind, es: Elems, first: bool, o: nat)
    requires Follows(b, m, js) && es.Elem? && ElemsOk(m.strict, k, es) && b.elems(o, k, es, first)
    ensures var v := ValueAt(es, first, o);
            && Occurs(js, o, Sep(first)) && Occurs(js, o + |Sep(first)|, es.lead)
            && Occurs(js, KeyAt(es, first, o), KeyText(es.key)) && b.value(v, es.value)
            && Occurs(js, v + Width(es.value), es.trail) && EndsHere(m.strict, js, v + Width(es.value))
            && b.elems(NextAt(es, first, o), k, es.rest, false)
  {
    assert Occurs(js, o, ElemsText(k, es, first));
    ElemParts(js, k, es, first, o);
    ElementEnds(js, m.strict, k, es, ValueAt(es, first, o) + Width(es.value));
  }

  lemma NoneReads(b: Behaviour, m: Mode, js: string, k: Kind, es: Elems, first: bool, o: nat)
    requires Follows(b, m, js) && es.NoElem? && b.elems(o, k, es, first)
    ensures o < |js| && js[o] == Closer(k)
  {
    assert Occurs(js, o, ElemsText(k, es, first));
    OccursAt(js, o, [Closer(k)], 0);
  }

  lemma OpenPad(b: Behaviour, m: Mode, js: string, p: Parser, k: Kind, pad: string, q: Parser)
    requires Follows(b, m, js) && b.sane(p) && Room(m, p, 1) && Blanks(pad)
    requires p.pos < |js| && js[p.pos] == Opener(k) && Occurs(js, p.pos + 1, pad)
    requires q == Opened(m, p, k).(pos := p.pos + 1 + |pad|)
    ensures Reaches(b, p, q, 1)
  {
    OpenRun(b, m, js, p, k);
    BlanksRun(b, m, js, Opened(m, p, k), pad, q);
    Reach(b, p, Opened(m, p, k), q, 1, 0);
  }

  lemma {:induction false} BoxRun(b: Behaviour, m: Mode, js: string, d: Json, p: Parser) returns (g: seq<Tok>)
    requires Follows(b, m, js) && b.sane(p) && d.Box? && Room(m, p, 1 + ElemsSize(d.elems))
    requires Blanks(d.pad) && ElemsOk(m.strict, d.kind, d.elems)
    requires p.pos < |js| && js[p.pos] == Opener(d.kind) && Occurs(js, p.pos + 1, d.pad)
    requires b.elems(p.pos + 1 + |d.pad|, d.kind, d.elems, true)
    ensures |g| == ElemsSize(d.elems) && AllClosed(g) && b.fits(g, PreorderElems(d.elems, true, p.pos + 1 + |d.pad|))
    ensures Reaches(b, p, Behind(m, d, p, [HeadTok(m, d, p)] + g), 1 + ElemsSize(d.elems))
    decreases d.elems, 2
  {
    var q := Opened(m, p, d.kind).(pos := p.pos + 1 + |d.pad|);
    OpenPad(b, m, js, p, d.kind, d.pad, q);
    OpenedInBox(m, p, d.kind);
    g := ElemsRun(b, m, js, d.kind, d.elems, true, q, |p.toks|);
    BoxEnded(m, d, p, q, g);
    Reach(b, p, q, Behind(m, d, p, [HeadTok(m, d, p)] + g), 1, ElemsSize(d.elems));
  }

  lemma NoneRun(b: Behaviour, m: Mode, js: string, k: Kind, es: Elems, first: bool, p: Parser, base: nat)
    requires Follows(b, m, js) && b.sane(p) && m.pool.Cap? && InBox(p, k, base)
    requires es.NoElem? && p.pos < |js| && js[p.pos] == Closer(k)
    ensures b.fits([], PreorderElems(es, first, p.pos))
    ensures Reaches(b, p, Ended(m, es, first, p, base, []), 0)
  {
    FitsNone(b, m, js);
    CloseRun(b, m, js, p, k, base);
    NoneEnded(m, es, first, p, base);
  }

  /** From before the elements to behind the closing bracket. */
  lemma {:induction false} ElemsRun(b: Behaviour, m: Mode, js: string, k: Kind, es: Elems, first: bool, p: Parser, base: nat)
    returns (f: seq<Tok>)
    requires Follows(b, m, js) && b.sane(p) && ElemsOk(m.strict, k, es) && Room(m, p, ElemsSize(es))
    requires InBox(p, k, base) && SupOk(m, p, base) && (first ==> p.sup == base)
    requires b.elems(p.pos, k, es, first)
    ensures |f| == ElemsSize(es) && AllClosed(f) && b.fits(f, PreorderElems(es, first, p.pos))
    ensures Reaches(b, p, Ended(m, es, first, p, base, f), ElemsSize(es))
    decreases es, 1
  {
    if es.NoElem? {
      f := [];
      NoneReads(b, m, js, k, es, first, p.pos);
      NoneRun(b, m, js, k, es, first, p, base);
    } else {
      ElemReads(b, m, js, k, es, first, p.pos);
      var x, s := ElemRun(b, m, js, k, es, first, p, base);
      var q := Parser(NextAt(es, first, p.pos), Bump(p.toks, base) + x, s);
      StillInBox(p, q, k, base, x);
      var g := ElemsRun(b, m, js, k, es.rest, false, q, base);
      f := x + g;
      ElemsJoin(b, m, js, es, first, p, base, x, q, g);
    }
  }

  lemma ElemsJoin(b: Behaviour, m: Mode, js: string, es: Elems, first: bool, p: Parser, base: nat, x: seq<Tok>, q: Parser, g: seq<Tok>)
    requires Follows(b, m, js) && es.Elem? && base < |p.toks|
    requires q.pos == NextAt(es, first, p.pos) && q.toks == Bump(p.toks, base) + x
    requires AllClosed(x) && AllClosed(g)
    requires b.fits(x, KeyNodes(es.key, KeyAt(es, first, p.pos)) + Preorder(es.value, ValueAt(es, first, p.pos)))
    requires b.fits(g, PreorderElems(es.rest, false, NextAt(es, first, p.pos)))
    requires Reaches(b, p, q, KeyCount(es.key) + Size(es.value))
    requires Reaches(b, q, Ended(m, es.rest, false, q, base, g), ElemsSize(es.rest))
    ensures AllClosed(x + g) && b.fits(x + g, PreorderElems(es, first, p.pos))
    ensures Reaches(b, p, Ended(m, es, first, p, base, x + g), ElemsSize(es))
  {
    ElemsGlue(b, m, js, es, first, p.pos, x, g);
    ElemsReach(b, m, js, es, first, p, base, x, q, g);
  }

  lemma ElemsReach(b: Behaviour, m: Mode, js: string, es: Elems, first: bool, p: Parser, base: nat, x: seq<Tok>, q: Parser, g: seq<Tok>)
    requires Follows(b, m, js) && es.Elem? && base < |p.toks|
    requires q.pos == NextAt(es, first, p.pos) && q.toks == Bump(p.toks, base) + x
    requires Reaches(b, p, q, KeyCount(es.key) + Size(es.value))
    requires Reaches(b, q, Ended(m, es.rest, false, q, base, g), ElemsSize(es.rest))
    ensures Reaches(b, p, Ended(m, es, first, p, base, x + g), ElemsSize(es))
  {
    ElemsEnded(m, es, first, p, q, base, x, g);
    Reach(b, p, q, Ended(m, es, first, p, base, x + g), KeyCount(es.key) + Size(es.value), ElemsSize(es.rest));
  }

  lemma NoneEnded(m: Mode, es: Elems, first: bool, p: Parser, base: nat)
    requires es.NoElem? && base < |p.toks|
    ensures Ended(m, es, first, p, base, []) == Parser(p.pos + 1, CloseAt(p.toks, base, p.pos + 1), Outer(m, p.toks, base))
  {
  }

  lemma ElemsEnded(m: Mode, es: Elems, first: bool, p: Parser, q: Parser, base: nat, x: seq<Tok>, g: seq<Tok>)
    requires es.Elem? && base < |p.toks|
    requires q.pos == NextAt(es, first, p.pos) && q.toks == Bump(p.toks, base) + x
    ensures Ended(m, es.rest, false, q, base, g) == Ended(m, es, first, p, base, x + g)
  {
    GrownOnce(p.toks, base, x, g, Count(es.rest), p.pos + ElemsWidth(es, first));
    OpenBelowSame(p.toks, q.toks, base);
  }

  lemma ElemsGlue(b: Behaviour, m: Mode, js: string, es: Elems, first: bool, o: nat, x: seq<Tok>, g: seq<Tok>)
    requires Follows(b, m, js) && es.Elem?
    requires b.fits(x, KeyNodes(es.key, KeyAt(es, first, o)) + Preorder(es.value, ValueAt(es, first, o)))
    requires b.fits(g, PreorderElems(es.rest, false, NextAt(es, first, o)))
    ensures b.fits(x + g, PreorderElems(es, first, o))
  {
    var a, c, d := KeyNodes(es.key, KeyAt(es, first, o)), Preorder(es.value, ValueAt(es, first, o)),
      PreorderElems(es.rest, false, NextAt(es, first, o));
    FitsConcat(b, m, js, x, g, a + c, d);
    Assoc(a, c, d);
  }

  /** The comma, the white space and the key before the value of an element. */
  lemma ElemPrefix(b: Behaviour, m: Mode, js: string, k: Kind, es: Elems, first: bool, p: Parser, base: nat, q: Parser)
    requires Follows(b, m, js) && b.sane(p) && es.Elem? && Room(m, p, KeyCount(es.key))
    requires Blanks(es.lead) && KeyOk(k, es.key)
    requires InBox(p, k, base) && SupOk(m, p, base) && (first ==> p.sup == base)
    requires Occurs(js, p.pos, Sep(first)) && Occurs(js, p.pos + |Sep(first)|, es.lead)
    requires q == Parser(KeyAt(es, first, p.pos), p.toks, base) && Occurs(js, q.pos, KeyText(es.key))
    ensures Reaches(b, p, Keyed(m, q, es.key), KeyCount(es.key))
  {
    var p1 := Parser(p.pos + |Sep(first)|, p.toks, base);
    SepRun(b, m, js, p, first, k, base);
    BlanksRun(b, m, js, p1, es.lead, q);
    KeyRun(b, m, js, q, k, es.key);
    Reach(b, p, p1, q, 0, 0);
    Reach(b, p, q, Keyed(m, q, es.key), 0, KeyCount(es.key));
  }

  /** One element, with its comma and its key, up to the white space behind it. */
  lemma {:induction false} ElemRun(b: Behaviour, m: Mode, js: string, k: Kind, es: Elems, first: bool, p: Parser, base: nat)
    returns (x: seq<Tok>, s: int)
    requires Follows(b, m, js) && b.sane(p) && es.Elem? && Room(m, p, KeyCount(es.key) + Size(es.value))
    requires Blanks(es.lead) && KeyOk(k, es.key) && JsonOk(m.strict, es.value) && Blanks(es.trail)
    requires InBox(p, k, base) && SupOk(m, p, base) && (first ==> p.sup == base)
    requires Occurs(js, p.pos, Sep(first)) && Occurs(js, p.pos + |Sep(first)|, es.lead)
    requires var v := ValueAt(es, first, p.pos);
             && Occurs(js, KeyAt(es, first, p.pos), KeyText(es.key)) && b.value(v, es.value)
             && Occurs(js, v + Width(es.value), es.trail) && EndsHere(m.strict, js, v + Width(es.value))
    ensures |x| == KeyCount(es.key) + Size(es.value) && AllClosed(x)
    ensures b.fits(x, KeyNodes(es.key, KeyAt(es, first, p.pos)) + Preorder(es.value, ValueAt(es, first, p.pos)))
    ensures var q := Parser(NextAt(es, first, p.pos), Bump(p.toks, base) + x, s);
            SupOk(m, q, base) && Reaches(b, p, q, KeyCount(es.key) + Size(es.value))
    decreases es, 0
  {
    var p2 := Parser(KeyAt(es, first, p.pos), p.toks, base);
    ElemPrefix(b, m, js, k, es, first, p, base, p2);
    var p3 := ElemKey(b, m, k, es, first, p, base, p2);
    var g := ValueRun(b, m, js, es.value, p3);
    x, s := ElemEnd(b, m, js, k, es, first, p, base, p2, p3, g);
  }

  /** The parser before the value. */
  lemma ElemKey(b: Behaviour, m: Mode, k: Kind, es: Elems, first: bool, p: Parser, base: nat, p2: Parser) returns (p3: Parser)
    requires es.Elem? && KeyOk(k, es.key) && InBox(p, k, base) && p2 == Parser(KeyAt(es, first, p.pos), p.toks, base)
    requires Room(m, p, KeyCount(es.key) + Size(es.value)) && Reaches(b, p, Keyed(m, p2, es.key), KeyCount(es.key))
    ensures p3 == Keyed(m, p2, es.key) && b.sane(p3) && p3.pos == ValueAt(es, first, p.pos)
    ensures Room(m, p3, Size(es.value)) && !PrimitiveAsKey(m, p3) && InBox(p3, k, base)
  {
    p3 := Keyed(m, p2, es.key);
    KeyedInBox(m, p2, k, es.key, base);
  }

  /** Behind the value. */
  lemma ElemEnd(b: Behaviour, m: Mode, js: string, k: Kind, es: Elems, first: bool, p: Parser, base: nat, p2: Parser, p3: Parser, g: seq<Tok>)
    returns (x: seq<Tok>, s: int)
    requires Follows(b, m, js) && es.Elem? && Blanks(es.trail) && KeyOk(k, es.key) && InBox(p, k, base)
    requires p2 == Parser(KeyAt(es, first, p.pos), p.toks, base) && p3 == Keyed(m, p2, es.key) && InBox(p3, k, base)
    requires Occurs(js, p2.pos, KeyText(es.key)) && Occurs(js, ValueAt(es, first, p.pos) + Width(es.value), es.trail)
    requires |g| == Size(es.value) && AllClosed(g) && b.fits(g, Preorder(es.value, p3.pos)) && p3.pos == ValueAt(es, first, p.pos)
    requires Reaches(b, p, p3, KeyCount(es.key)) && Reaches(b, p3, Behind(m, es.value, p3, g), Size(es.value))
    ensures |x| == KeyCount(es.key) + Size(es.value) && AllClosed(x)
    ensures b.fits(x, KeyNodes(es.key, KeyAt(es, first, p.pos)) + Preorder(es.value, ValueAt(es, first, p.pos)))
    ensures var q := Parser(NextAt(es, first, p.pos), Bump(p.toks, base) + x, s);
            SupOk(m, q, base) && Reaches(b, p, q, KeyCount(es.key) + Size(es.value))
  {
    x, s := KeyToks(m, es.key, p2.pos, base) + g, Behind(m, es.value, p3, g).sup;
    ElemJoin(b, m, js, es, first, p, p2, g, Parser(NextAt(es, first, p.pos), Bump(p.toks, base) + x, s));
  }

  lemma ElemJoin(b: Behaviour, m: Mode, js: string, es: Elems, first: bool, p: Parser, p2: Parser, g: seq<Tok>, q: Parser)
    requires Follows(b, m, js) && es.Elem? && Blanks(es.trail)
    requires p2.pos == KeyAt(es, first, p.pos) && 0 <= p2.sup < |p2.toks|
    requires Occurs(js, p2.pos, KeyText(es.key)) && Occurs(js, ValueAt(es, first, p.pos) + Width(es.value), es.trail)
    requires AllClosed(g) && b.fits(g, Preorder(es.value, ValueAt(es, first, p.pos)))
    requires Reaches(b, p, Keyed(m, p2, es.key), KeyCount(es.key))
    requires Reaches(b, Keyed(m, p2, es.key), Behind(m, es.value, Keyed(m, p2, es.key), g), Size(es.value))
    requires q == Parser(NextAt(es, first, p.pos), Bump(p2.toks, p2.sup) + (KeyToks(m, es.key, p2.pos, p2.sup) + g),
                         Behind(m, es.value, Keyed(m, p2, es.key), g).sup)
    ensures AllClosed(KeyToks(m, es.key, p2.pos, p2.sup) + g)
    ensures b.fits(KeyToks(m, es.key, p2.pos, p2.sup) + g, KeyNodes(es.key, p2.pos) + Preorder(es.value, ValueAt(es, first, p.pos)))
    ensures Reaches(b, p, q, KeyCount(es.key) + Size(es.value))
  {
    var p3 := Keyed(m, p2, es.key);
    var p4 := Behind(m, es.value, p3, g);
    ElemBehind(m, es, first, p.pos, p2, g, q);
    BlanksRun(b, m, js, p4, es.trail, q);
    Reach(b, p3, p4, q, Size(es.value), 0);
    Reach(b, p, p3, q, KeyCount(es.key), Size(es.value));
    KeyDenotes(b, m, js, es.key, p2.pos, p2.sup);
    FitsConcat(b, m, js, KeyToks(m, es.key, p2.pos, p2.sup), g, KeyNodes(es.key, p2.pos), Preorder(es.value, ValueAt(es, first, p.pos)));
  }

  lemma ElemBehind(m: Mode, es: Elems, first: bool, o: nat, p: Parser, g: seq<Tok>, q: Parser)
    requires es.Elem? && 0 <= p.sup < |p.toks| && p.pos == KeyAt(es, first, o)
    requires q == Parser(NextAt(es, first, o), Bump(p.toks, p.sup) + (KeyToks(m, es.key, p.pos, p.sup) + g),
                         Behind(m, es.value, Keyed(m, p, es.key), g).sup)
    ensures var r := Behind(m, es.value, Keyed(m, p, es.key), g);
            q == r.(pos := r.pos + |es.trail|)
  {
    KeyedTokens(m, p, es.key, g);
  }

  /** Behind a key a value may follow, and the container is still the innermost open token. */
  lemma KeyedInBox(m: Mode, p: Parser, k: Kind, key: Key, base: nat)
    requires InBox(p, k, base) && p.sup == base && KeyOk(k, key)
    ensures !PrimitiveAsKey(m, Keyed(m, p, key))
    ensures InBox(Keyed(m, p, key), k, base)
  {
    if key.Key? {
      var q := Keyed(m, p, key);
      StillInBox(p, q, k, base, [q.toks[|p.toks|]]);
    }
  }

  // ----- Documents -----

  /** A JSON text: a value with white space around it. */
  function Document(lead: string, d: Json, trail: string): string {
    lead + (Text(d) + trail)
  }

  ghost function TheBehaviour(m: Mode, js: string): Behaviour {
    Behaviour(p => Run(m, js, p), p => Sane(m, p), (o: nat, d) => Occurs(js, o, Text(d)),
              (o: nat, k, es, first) => Occurs(js, o, ElemsText(k, es, first)), (t, n) => DenotesAll(js, t, n))
  }

  lemma TheBehaviourFollows(m: Mode, js: string)
    ensures Follows(TheBehaviour(m, js), m, js)
  {
    var b := TheBehaviour(m, js);
    forall p | b.sane(p) && !AtEnd(js, p.pos) && DoStep(m, js, p).Go?
      ensures Reaches(b, p, DoStep(m, js, p).next, DoStep(m, js, p).made)
    {
      RunStep(m, js, p, DoStep(m, js, p).next, DoStep(m, js, p).made);
      StepSane(m, js, p);
    }
  }

  lemma DocumentRun(b: Behaviour, m: Mode, js: string, lead: string, d: Json, trail: string) returns (f: seq<Tok>)
    requires Follows(b, m, js) && b.sane(Fresh) && JsonOk(m.strict, d) && Room(m, Fresh, Size(d))
    requires Blanks(lead) && Blanks(trail) && Occurs(js, 0, lead) && b.value(|lead|, d) && Occurs(js, |lead| + Width(d), trail)
    requires |js| == |lead| + Width(d) + |trail| && (d.Lit? ==> EndsHere(m.strict, js, |lead| + Width(d)))
    ensures |f| == Size(d) && AllClosed(f) && b.fits(f, Preorder(d, |lead|))
    ensures Reaches(b, Fresh, Parser(|js|, f, -1), Size(d))
  {
    var p1 := Fresh.(pos := |lead|);
    BlanksRun(b, m, js, Fresh, lead, p1);
    f := ValueRun(b, m, js, d, p1);
    AppendNil(f);
    BlanksRun(b, m, js, Behind(m, d, p1, f), trail, Parser(|js|, f, -1));
    Reach(b, Fresh, p1, Behind(m, d, p1, f), 0, Size(d));
    Reach(b, Fresh, Behind(m, d, p1, f), Parser(|js|, f, -1), Size(d), 0);
  }

  lemma DocumentParts(lead: string, d: Json, trail: string)
    ensures var js := Document(lead, d, trail);
            && Occurs(js, 0, lead) && Occurs(js, |lead|, Text(d)) && Occurs(js, |lead| + Width(d), trail)
            && |js| == |lead| + Width(d) + |trail|
  {
    TextWidth(d);
    var js := Document(lead, d, trail);
    OccursSlice(js, 0, js);
    OccursSplit(js, 0, lead, Text(d) + trail);
    OccursSplit(js, |lead|, Text(d), trail);
  }

  /**
   The main theorem.  For every document, in every build, with at least as many
   tokens as the document has values and keys: the parse succeeds, returns that
   number, reads the whole text, and token by token gives the pre-order nodes:
   type, start, number of children, and a slice equal to the rendered text.  A
   strict build needs something behind a lone literal.
   */
  lemma ParseIsPreorder(m: Mode, lead: string, d: Json, trail: string)
    requires Blanks(lead) && Blanks(trail) && JsonOk(m.strict, d) && Room(m, Fresh, Size(d))
    requires m.strict && d.Lit? ==> trail != ""
    ensures var js := Document(lead, d, trail);
            var f := Run(m, js, Fresh);
            && f.result == Ok(Size(d)) && f.parser.pos == |js| && |f.parser.toks| == Size(d)
            && DenotesAll(js, f.parser.toks, Preorder(d, |lead|))
  {
    var js := Document(lead, d, trail);
    TheBehaviourFollows(m, js);
    DocumentParts(lead, d, trail);
    if d.Lit? && trail != "" {
      OccursAt(js, |lead| + Width(d), trail, 0);
    }
    var f := DocumentRun(TheBehaviour(m, js), m, js, lead, d, trail);
    LastOpenUnique(f, -1);
    assert Run(m, js, Parser(|js|, f, -1)) == Final(Parser(|js|, f, -1), Ok(0));
  }

  /** The same, index by index. */
  lemma ParseIndexByIndex(m: Mode, lead: string, d: Json, trail: string)
    requires Blanks(lead) && Blanks(trail) && JsonOk(m.strict, d) && Room(m, Fresh, Size(d))
    requires m.strict && d.Lit? ==> trail != ""
    ensures var js := Document(lead, d, trail);
            var toks, nodes := Run(m, js, Fresh).parser.toks, Preorder(d, |lead|);
            && |toks| == |nodes|
            && forall k :: 0 <= k < |toks| ==>
                 && toks[k].typ == NodeType(nodes[k]) && toks[k].size == NodeSize(nodes[k]) && toks[k].start == NodeStart(nodes[k])
                 && toks[k].start <= toks[k].end <= |js|
                 && js[toks[k].start..toks[k].end] == NodeText(nodes[k])
  {
    ParseIsPreorder(m, lead, d, trail);
    DenotesMeans(Document(lead, d, trail), Run(m, Document(lead, d, trail), Fresh).parser.toks, Preorder(d, |lead|));
  }

  /** A strict build asks for more text behind a lone literal, and only then does a document fail. */
  lemma StrictLoneLiteral(m: Mode, lead: string, t: string)
    requires m.strict && Blanks(lead) && LitOk(true, t) && Room(m, Fresh, 1)
    ensures Run(m, Document(lead, Lit(t), ""), Fresh).result == Err(Part)
  {
    var js := Document(lead, Lit(t), "");
    var b := TheBehaviour(m, js);
    TheBehaviourFollows(m, js);
    DocumentParts(lead, Lit(t), "");
    var p1 := Fresh.(pos := |lead|);
    BlanksRun(b, m, js, Fresh, lead, p1);
    forall k | |lead| <= k < |js|
      ensures IsPrintable(js[k]) && !EndsBare(false, js[k])
    {
      OccursAt(js, |lead|, t, k - |lead|);
    }
    OccursAt(js, |lead|, t, 0);
    ScanUnended(js, |lead|);
    assert DoStep(m, js, p1) == Stop(Part);
  }

  lemma {:induction false} ScanUnended(js: string, p: nat)
    requires p <= |js| && forall k :: p <= k < |js| ==> IsPrintable(js[k]) && !EndsBare(false, js[k])
    ensures ScanBare(true, js, p) == Short
    decreases |js| - p
  {
    if p < |js| {
      ScanUnended(js, p + 1);
    }
  }
}
