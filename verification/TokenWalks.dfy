/** What the two consumers of token arrays, `dump` and `raft_print_stats`, read of the tokens of a document. */
module TokenWalks {
  import opened JsmnLexer
  import opened JsmnMachine
  import opened JsonGrammar
  import opened JsmnCorrect
  import opened JsmnCounting

  predicate IsLeaf(n: Node) {
    n.Name? || !n.tree.Box?
  }

  /** The text of a key, a string or a literal. */
  function LeafText(n: Node): string {
    match n
    case Name(_, body) => BodyText(body)
    case Value(_, Lit(t)) => t
    case Value(_, Str(body)) => BodyText(body)
    case Value(_, Box(_, _, _)) => ""
  }

  /** What a walk reads of a token: its type, its size, and the slice of a leaf. */
  predicate Labels(js: string, t: Tok, n: Node) {
    && t.typ == NodeType(n) && t.size == NodeSize(n)
    && (IsLeaf(n) ==> 0 <= t.start <= t.end <= |js| && js[t.start..t.end] == LeafText(n) && t.start == NodeStart(n))
  }

  /** The tokens from a pointer on begin with those of the given nodes. */
  ghost predicate Starts(js: string, t: seq<Tok>, nodes: seq<Node>) {
    |nodes| <= |t| && forall k :: 0 <= k < |nodes| ==> Labels(js, t[k], nodes[k])
  }

  lemma {:induction false} DenotesStarts(js: string, t: seq<Tok>, nodes: seq<Node>)
    requires DenotesAll(js, t, nodes)
    ensures Starts(js, t, nodes)
    decreases |t|
  {
    if t != [] {
      DenotesStarts(js, t[1..], nodes[1..]);
      forall k | 0 <= k < |nodes|
        ensures Labels(js, t[k], nodes[k])
      {
        if k > 0 {
          assert Labels(js, t[1..][k - 1], nodes[1..][k - 1]);
        }
      }
    }
  }

  /** The nodes below and including `n`. */
  function Subtree(n: Node): (r: seq<Node>)
    ensures |r| == Tokens(n)
  {
    if n.Name? then [n] else Preorder(n.tree, n.at)
  }

  function Tokens(n: Node): (k: nat)
    ensures k > 0
  {
    if n.Name? then 1 else Size(n.tree)
  }

  /** Behind the first token of a container come its elements. */
  lemma StartsInside(js: string, t: seq<Tok>, d: Json, o: nat, at: nat)
    requires d.Box? && Starts(js, t, Preorder(d, o)) && at == o + 1 + |d.pad|
    ensures t != [] && Starts(js, t[1..], PreorderElems(d.elems, true, at))
  {
    StartsTail(js, t, Value(o, d), PreorderElems(d.elems, true, at));
  }

  lemma StartsTail(js: string, t: seq<Tok>, n: Node, rest: seq<Node>)
    requires Starts(js, t, [n] + rest)
    ensures t != [] && Starts(js, t[1..], rest)
  {
    forall k | 0 <= k < |rest|
      ensures Labels(js, t[1..][k], rest[k])
    {
      assert rest[k] == ([n] + rest)[k + 1];
    }
  }

  /** An element is its key, if any, its value, and then the rest. */
  lemma StartsElem(js: string, t: seq<Tok>, es: Elems, first: bool, o: nat)
    requires es.Elem? && Starts(js, t, PreorderElems(es, first, o))
    ensures var k := KeyCount(es.key);
            var e := k + Size(es.value);
            && Starts(js, t, KeyNodes(es.key, KeyAt(es, first, o)))
            && k <= |t| && Starts(js, t[k..], Preorder(es.value, ValueAt(es, first, o)))
            && e <= |t| && Starts(js, t[e..], PreorderElems(es.rest, false, NextAt(es, first, o)))
  {
    var k := KeyCount(es.key);
    var x, y, z := KeyNodes(es.key, KeyAt(es, first, o)), Preorder(es.value, ValueAt(es, first, o)),
      PreorderElems(es.rest, false, NextAt(es, first, o));
    StartsThree(js, t, x, y, z);
  }

  lemma StartsThree(js: string, t: seq<Tok>, x: seq<Node>, y: seq<Node>, z: seq<Node>)
    requires Starts(js, t, x + (y + z))
    ensures Starts(js, t, x) && Starts(js, t[|x|..], y) && Starts(js, t[|x| + |y|..], z)
  {
  }

  /** All tokens are closed, inside the text, as after a successful parse. */
  predicate Spans(js: string, t: seq<Tok>) {
    forall i :: 0 <= i < |t| ==> 0 <= t[i].start <= t[i].end <= |js|
  }

  // ----- The tokens of a document -----

  lemma ParseStarts(m: Mode, lead: string, d: Json, trail: string)
    requires Blanks(lead) && Blanks(trail) && JsonOk(m.strict, d) && Room(m, Fresh, Size(d))
    requires m.strict && d.Lit? ==> trail != ""
    ensures var js := Document(lead, d, trail);
            var f := Run(m, js, Fresh);
            f.result == Ok(Size(d)) && |f.parser.toks| == Size(d) && Starts(js, f.parser.toks, Preorder(d, |lead|))
  {
    ParseIsPreorder(m, lead, d, trail);
    DenotesStarts(Document(lead, d, trail), Run(m, Document(lead, d, trail), Fresh).parser.toks, Preorder(d, |lead|));
  }

  /** With too few tokens a document fails for lack of tokens and for no other reason. */
  lemma TooFewTokens(m: Mode, lead: string, d: Json, trail: string)
    requires Blanks(lead) && Blanks(trail) && JsonOk(m.strict, d) && m.pool.Cap? && m.pool.n < Size(d)
    requires m.strict && d.Lit? ==> trail != ""
    ensures Run(m, Document(lead, d, trail), Fresh).result == Err(NoMem)
  {
    var js := Document(lead, d, trail);
    var m2 := m.(pool := Cap(Size(d)));
    ParseIsPreorder(m2, lead, d, trail);
    OnlyNoMem(m, m2, js, Fresh);
    CountAgrees(m2, js, Fresh);
    CountIsTheNeed(m, js);
  }

  function DefaultBuild(n: nat): Mode {
    Mode(false, false, Cap(n))
  }

  /** A document that does not run out of tokens yields its nodes. */
  lemma DocumentStarts(js: string, n: nat, lead: string, d: Json, trail: string)
    requires Blanks(lead) && Blanks(trail) && JsonOk(false, d) && js == Document(lead, d, trail)
    requires Run(DefaultBuild(n), js, Fresh).result != Err(NoMem)
    ensures var f := Run(DefaultBuild(n), js, Fresh);
            f.result == Ok(Size(d)) && |f.parser.toks| == Size(d) && Starts(js, f.parser.toks, Preorder(d, |lead|))
  {
    if n < Size(d) {
      TooFewTokens(DefaultBuild(n), lead, d, trail);
    } else {
      ParseStarts(DefaultBuild(n), lead, d, trail);
    }
  }

  // ----- A text that is accepted and is no document -----

  const LoneKey := "{\"a\"}"

  const LoneKeyTokens := [Tok(Container(Object), 0, 5, 1, -1), Tok(String, 2, 3, 0, -1)]

  /** A key without a value is a success of the default build: two tokens, and the object has size one. */
  lemma LoneKeyRun(n: nat)
    requires n >= 2
    ensures Run(DefaultBuild(n), LoneKey, Fresh) == Final(Parser(5, LoneKeyTokens, -1), Ok(2))
  {
    var js, m := LoneKey, DefaultBuild(n);
    var o, k := LoneKeyTokens[0].(end := -1), LoneKeyTokens[1];
    var p1, p2, p3 := Parser(1, [o.(size := 0)], 0), Parser(4, [o, k], 0), Parser(5, LoneKeyTokens, -1);
    assert Classify(false, js[0]) == Open(Object) && DoStep(m, js, Fresh) == Go(p1, 1);
    assert ScanString(js, 2) == Found(3);
    assert Bump(p1.toks, 0) + [k] == p2.toks;
    assert Classify(false, js[1]) == Quote && DoStep(m, js, p1) == Go(p2, 1);
    assert IsOpen(p2.toks[0]) && !IsOpen(p2.toks[1]) && CloseAt(p2.toks, 0, 5) == p3.toks;
    assert Classify(false, js[4]) == Close(Object) && DoStep(m, js, p2) == Go(p3, 0);
    assert LastOpen(p3.toks) == -1 && AtEnd(js, 5);
    RunStep(m, js, Fresh, p1, 1);
    RunStep(m, js, p1, p2, 1);
    RunStep(m, js, p2, p3, 0);
  }
}
