/**
 JSON texts as syntax trees: section 2 of RFC 8259 (white space around the
 structural characters), section 4 (objects), section 5 (arrays), sections 3 and 6
 (literals and numbers) and section 7 (strings).  A tree records the white space
 too, so the trees of one value are all its renderings.
 */
module JsonGrammar {
  import opened JsmnLexer
  import opened JsmnMachine
  import opened SeqFacts

  /** An object or array is a `Box`: a bracket, white space, and its elements up to the closing bracket. */
  datatype Json =
    | Lit(text: string)
    | Str(body: seq<StringUnit>)
    | Box(kind: Kind, pad: string, elems: Elems)

  /** The key of an object member with the white space around its colon. */
  datatype Key = NoKey | Key(body: seq<StringUnit>, mid: string, gap: string)

  datatype Elems = NoElem | Elem(lead: string, key: Key, value: Json, trail: string, rest: Elems)

  // ----- Text -----

  function Sep(first: bool): string {
    if first then "" else ","
  }

  function Quoted(body: seq<StringUnit>): string {
    "\"" + (BodyText(body) + "\"")
  }

  function KeyText(k: Key): string {
    if k.NoKey? then "" else Quoted(k.body) + (k.mid + (":" + k.gap))
  }

  function Text(d: Json): string
    decreases d
  {
    match d
    case Lit(t) => t
    case Str(b) => Quoted(b)
    case Box(k, pad, es) => [Opener(k)] + (pad + ElemsText(k, es, true))
  }

  /** The elements and the closing bracket; a comma comes before every element but the first. */
  function ElemsText(k: Kind, es: Elems, first: bool): string
    decreases es
  {
    if es.NoElem? then [Closer(k)]
    else Sep(first) + (es.lead + (KeyText(es.key) + (Text(es.value) + (es.trail + ElemsText(k, es.rest, false)))))
  }

  function KeyWidth(k: Key): nat {
    if k.NoKey? then 0 else |BodyText(k.body)| + 2 + |k.mid| + 1 + |k.gap|
  }

  function Width(d: Json): nat {
    match d
    case Lit(t) => |t|
    case Str(b) => |BodyText(b)| + 2
    case Box(_, pad, es) => 1 + |pad| + ElemsWidth(es, true)
  }

  function ElemsWidth(es: Elems, first: bool): (n: nat)
    ensures n > 0
  {
    if es.NoElem? then 1
    else ValueAt(es, first, 0) + Width(es.value) + |es.trail| + ElemsWidth(es.rest, false)
  }

  /** The width is the length of the text. */
  lemma {:induction false} TextWidth(d: Json)
    ensures |Text(d)| == Width(d)
    decreases d
  {
    if d.Box? {
      ElemsTextWidth(d.kind, d.elems, true);
    }
  }

  lemma {:induction false} ElemsTextWidth(k: Kind, es: Elems, first: bool)
    ensures |ElemsText(k, es, first)| == ElemsWidth(es, first)
    decreases es
  {
    if es.Elem? {
      TextWidth(es.value);
      ElemsTextWidth(k, es.rest, false);
    }
  }

  /** Where the first element's key, or its value if it has none, starts when the elements start at `o`. */
  function KeyAt(es: Elems, first: bool, o: nat): nat
    requires es.Elem?
  {
    o + (if first then 0 else 1) + |es.lead|
  }

  /** Where the first element's value starts. */
  function ValueAt(es: Elems, first: bool, o: nat): nat
    requires es.Elem?
  {
    KeyAt(es, first, o) + KeyWidth(es.key)
  }

  // ----- Well-formedness -----

  predicate Blanks(w: string) {
    forall k :: 0 <= k < |w| ==> IsBlank(w[k])
  }

  /** An unquoted value: printable characters that end nothing and start no string or container. */
  predicate LitOk(strict: bool, t: string) {
    && t != ""
    && Classify(strict, t[0]) == Bare
    && forall k :: 0 <= k < |t| ==> IsPrintable(t[k]) && !EndsBare(false, t[k])
  }

  /** Objects have keys and arrays do not. */
  predicate KeyOk(kind: Kind, k: Key) {
    if kind == Array then k.NoKey?
    else k.Key? && (forall i :: 0 <= i < |k.body| ==> UnitOk(k.body[i])) && Blanks(k.mid) && Blanks(k.gap)
  }

  predicate JsonOk(strict: bool, d: Json)
    decreases d
  {
    match d
    case Lit(t) => LitOk(strict, t)
    case Str(b) => forall k :: 0 <= k < |b| ==> UnitOk(b[k])
    case Box(k, pad, es) => Blanks(pad) && ElemsOk(strict, k, es)
  }

  predicate ElemsOk(strict: bool, k: Kind, es: Elems)
    decreases es
  {
    es.Elem? ==>
      && Blanks(es.lead) && KeyOk(k, es.key) && JsonOk(strict, es.value) && Blanks(es.trail)
      && ElemsOk(strict, k, es.rest)
  }

  // ----- Tokens of a tree -----

  function KeyCount(k: Key): nat {
    if k.NoKey? then 0 else 1
  }

  function Size(d: Json): (n: nat)
    ensures n > 0
  {
    if d.Box? then 1 + ElemsSize(d.elems) else 1
  }

  function ElemsSize(es: Elems): nat {
    if es.NoElem? then 0 else KeyCount(es.key) + (Size(es.value) + ElemsSize(es.rest))
  }

  function Count(es: Elems): nat {
    if es.NoElem? then 0 else 1 + Count(es.rest)
  }

  /** What a reader of the document would call a token: a value, or the key of a member, whose text starts at `at`. */
  datatype Node = Value(at: nat, tree: Json) | Name(at: nat, body: seq<StringUnit>)

  function NodeType(n: Node): TokType {
    match n
    case Name(_, _) => String
    case Value(_, Lit(_)) => Primitive
    case Value(_, Str(_)) => String
    case Value(_, Box(k, _, _)) => Container(k)
  }

  /** A string is delimited inside its quotes. */
  function NodeStart(n: Node): nat {
    if NodeType(n) == String then n.at + 1 else n.at
  }

  function NodeText(n: Node): string {
    match n
    case Name(_, body) => BodyText(body)
    case Value(_, d) => if d.Str? then BodyText(d.body) else Text(d)
  }

  /** The number of elements or members; a key has one child, its value. */
  function NodeSize(n: Node): nat {
    match n
    case Name(_, _) => 1
    case Value(_, d) => if d.Box? then Count(d.elems) else 0
  }

  function KeyNodes(k: Key, o: nat): (r: seq<Node>)
    ensures |r| == KeyCount(k)
  {
    if k.NoKey? then [] else [Name(o, k.body)]
  }

  /** The nodes of a tree whose text starts at `o`, in pre-order. */
  function Preorder(d: Json, o: nat): (r: seq<Node>)
    ensures |r| == Size(d)
    decreases d
  {
    [Value(o, d)] + if d.Box? then PreorderElems(d.elems, true, o + 1 + |d.pad|) else []
  }

  function PreorderElems(es: Elems, first: bool, o: nat): (r: seq<Node>)
    ensures |r| == ElemsSize(es)
    decreases es
  {
    if es.NoElem? then []
    else
      KeyNodes(es.key, KeyAt(es, first, o))
      + (Preorder(es.value, ValueAt(es, first, o)) + PreorderElems(es.rest, false, NextAt(es, first, o)))
  }

  /** Where the text after the first element and its white space starts. */
  function NextAt(es: Elems, first: bool, o: nat): nat
    requires es.Elem?
  {
    ValueAt(es, first, o) + Width(es.value) + |es.trail|
  }

  /** Token `t` of the text `js` is the node `n`. */
  predicate Denotes(js: string, t: Tok, n: Node) {
    && t.typ == NodeType(n) && t.size == NodeSize(n)
    && t.start == NodeStart(n) && t.end == NodeStart(n) + |NodeText(n)|
    && Occurs(js, NodeStart(n), NodeText(n))
  }

  /** The tokens are the nodes, one by one. */
  predicate DenotesAll(js: string, toks: seq<Tok>, nodes: seq<Node>) {
    if toks == [] then nodes == []
    else nodes != [] && Denotes(js, toks[0], nodes[0]) && DenotesAll(js, toks[1..], nodes[1..])
  }

  lemma {:induction false} DenotesConcat(js: string, a: seq<Tok>, b: seq<Tok>, x: seq<Node>, y: seq<Node>)
    requires DenotesAll(js, a, x) && DenotesAll(js, b, y)
    ensures DenotesAll(js, a + b, x + y)
    decreases |a|
  {
    DropFirst(a, b);
    DropFirst(x, y);
    if a != [] {
      DenotesConcat(js, a[1..], b, x[1..], y);
    }
  }

  lemma {:induction false} DenotesSplit(js: string, t: seq<Tok>, x: seq<Node>, y: seq<Node>)
    requires DenotesAll(js, t, x + y)
    ensures |t| == |x| + |y| && DenotesAll(js, t[..|x|], x) && DenotesAll(js, t[|x|..], y)
    decreases |x|
  {
    DropFirst(x, y);
    if x == [] {
      DenotesLength(js, t, y);
      TakeAll(t);
    } else {
      DenotesSplit(js, t[1..], x[1..], y);
      TakeTail(t, |x|);
    }
  }

  lemma {:induction false} DenotesLength(js: string, t: seq<Tok>, x: seq<Node>)
    requires DenotesAll(js, t, x)
    ensures |t| == |x|
    decreases |x|
  {
    if t != [] {
      DenotesLength(js, t[1..], x[1..]);
    }
  }

  lemma DenotesOne(js: string, t: Tok, n: Node)
    requires Denotes(js, t, n)
    ensures DenotesAll(js, [t], [n])
  {
  }

  /** Read index by index: same length, same types, starts and sizes, and each slice is the node's text. */
  lemma {:induction false} DenotesMeans(js: string, toks: seq<Tok>, nodes: seq<Node>)
    requires DenotesAll(js, toks, nodes)
    ensures |toks| == |nodes|
    ensures forall k :: 0 <= k < |toks| ==>
              && toks[k].typ == NodeType(nodes[k]) && toks[k].size == NodeSize(nodes[k]) && toks[k].start == NodeStart(nodes[k])
              && toks[k].start <= toks[k].end <= |js|
              && js[toks[k].start..toks[k].end] == NodeText(nodes[k])
    decreases |toks|
  {
    if toks != [] {
      OccursSlice(js, toks[0].start, NodeText(nodes[0]));
      DenotesMeans(js, toks[1..], nodes[1..]);
      forall k | 0 <= k < |toks|
        ensures && toks[k].typ == NodeType(nodes[k]) && toks[k].size == NodeSize(nodes[k]) && toks[k].start == NodeStart(nodes[k])
                && toks[k].start <= toks[k].end <= |js|
                && js[toks[k].start..toks[k].end] == NodeText(nodes[k])
      {
        if k > 0 {
          assert toks[k] == toks[1..][k - 1] && nodes[k] == nodes[1..][k - 1];
        }
      }
    }
  }

  // ----- Where the parts of a text lie -----

  /** The inside of a container. */
  lemma BoxParts(js: string, d: Json, o: nat)
    requires d.Box? && Occurs(js, o, Text(d))
    ensures o < |js| && js[o] == Opener(d.kind)
    ensures Occurs(js, o + 1, d.pad) && Occurs(js, o + 1 + |d.pad|, ElemsText(d.kind, d.elems, true))
  {
    OccursSplit(js, o, [Opener(d.kind)], d.pad + ElemsText(d.kind, d.elems, true));
    OccursSplit(js, o + 1, d.pad, ElemsText(d.kind, d.elems, true));
    OccursAt(js, o, [Opener(d.kind)], 0);
  }

  lemma SplitSix(js: string, o: nat, a: string, b: string, c: string, d: string, e: string, f: string,
                 ob: nat, oc: nat, od: nat, oe: nat, of: nat)
    requires Occurs(js, o, a + (b + (c + (d + (e + f)))))
    requires ob == o + |a| && oc == ob + |b| && od == oc + |c| && oe == od + |d| && of == oe + |e|
    ensures && Occurs(js, o, a) && Occurs(js, ob, b) && Occurs(js, oc, c)
            && Occurs(js, od, d) && Occurs(js, oe, e) && Occurs(js, of, f)
  {
    OccursSplit(js, o, a, b + (c + (d + (e + f))));
    OccursSplit(js, ob, b, c + (d + (e + f)));
    OccursSplit(js, oc, c, d + (e + f));
    OccursSplit(js, od, d, e + f);
    OccursSplit(js, oe, e, f);
  }

  lemma KeyTextWidth(k: Key)
    ensures |KeyText(k)| == KeyWidth(k)
  {
  }

  /** The first element and what follows it. */
  lemma ElemParts(js: string, k: Kind, es: Elems, first: bool, o: nat)
    requires es.Elem? && Occurs(js, o, ElemsText(k, es, first))
    ensures var v := ValueAt(es, first, o);
            && Occurs(js, o, Sep(first)) && Occurs(js, o + |Sep(first)|, es.lead)
            && Occurs(js, KeyAt(es, first, o), KeyText(es.key)) && Occurs(js, v, Text(es.value))
            && Occurs(js, v + Width(es.value), es.trail) && Occurs(js, NextAt(es, first, o), ElemsText(k, es.rest, false))
  {
    TextWidth(es.value);
    KeyTextWidth(es.key);
    SplitSix(js, o, Sep(first), es.lead, KeyText(es.key), Text(es.value), es.trail, ElemsText(k, es.rest, false),
             o + |Sep(first)|, KeyAt(es, first, o), ValueAt(es, first, o), ValueAt(es, first, o) + Width(es.value), NextAt(es, first, o));
  }

  /** A key, its colon and the white space around it. */
  lemma KeyParts(js: string, k: Key, o: nat)
    requires k.Key? && Occurs(js, o, KeyText(k))
    ensures var c := o + |BodyText(k.body)| + 2;
            && Occurs(js, o, Quoted(k.body)) && Occurs(js, c, k.mid)
            && c + |k.mid| < |js| && js[c + |k.mid|] == ':' && Occurs(js, c + |k.mid| + 1, k.gap)
  {
    var c := o + |BodyText(k.body)| + 2;
    OccursSplit(js, o, Quoted(k.body), k.mid + (":" + k.gap));
    OccursSplit(js, c, k.mid, ":" + k.gap);
    OccursSplit(js, c + |k.mid|, ":", k.gap);
    OccursAt(js, c + |k.mid|, ":", 0);
  }

  /** The body of a quoted string. */
  lemma QuotedParts(js: string, o: nat, body: seq<StringUnit>)
    requires Occurs(js, o, Quoted(body))
    ensures o + 1 + |BodyText(body)| < |js|
    ensures js[o] == '\"' && js[o + 1 + |BodyText(body)|] == '\"'
    ensures Occurs(js, o + 1, BodyText(body))
  {
    OccursSplit(js, o, "\"", BodyText(body) + "\"");
    OccursSplit(js, o + 1, BodyText(body), "\"");
    OccursAt(js, o, "\"", 0);
    OccursAt(js, o + 1 + |BodyText(body)|, "\"", 0);
  }

  // ----- The literals of the standard -----

  predicate Digits(t: string) {
    forall k :: 0 <= k < |t| ==> '0' <= t[k] <= '9'
  }

  /** Section 6: an optional minus, an integer without leading zeros, an optional fraction and exponent. */
  datatype Number = Number(minus: bool, whole: string, frac: string, exp: string)

  predicate NumberOk(n: Number) {
    && n.whole != "" && Digits(n.whole) && (n.whole[0] == '0' ==> |n.whole| == 1)
    && (n.frac != "" ==> |n.frac| > 1 && n.frac[0] == '.' && Digits(n.frac[1..]))
    && (n.exp != "" ==>
          && (n.exp[0] == 'e' || n.exp[0] == 'E')
          && |n.exp| > 1
          && (Digits(n.exp[1..]) || ((n.exp[1] == '+' || n.exp[1] == '-') && |n.exp| > 2 && Digits(n.exp[2..]))))
  }

  function NumberText(n: Number): string {
    (if n.minus then "-" else "") + n.whole + n.frac + n.exp
  }

  /** Every literal and number of the standard is an unquoted value in both kinds of build. */
  lemma StandardLiterals(strict: bool)
    ensures LitOk(strict, "true") && LitOk(strict, "false") && LitOk(strict, "null")
    ensures forall n :: NumberOk(n) ==> LitOk(strict, NumberText(n))
  {
    forall n | NumberOk(n)
      ensures LitOk(strict, NumberText(n))
    {
      NumberIsLit(strict, n);
    }
  }

  predicate NumberChar(c: char) {
    '0' <= c <= '9' || c == '-' || c == '+' || c == '.' || c == 'e' || c == 'E'
  }

  lemma NumberIsLit(strict: bool, n: Number)
    requires NumberOk(n)
    ensures LitOk(strict, NumberText(n))
  {
    assert forall k :: 0 <= k < |n.whole| ==> NumberChar(n.whole[k]);
    forall k | 0 <= k < |n.frac|
      ensures NumberChar(n.frac[k])
    {
      if k > 0 { assert n.frac[1..][k - 1] == n.frac[k]; }
    }
    forall k | 0 <= k < |n.exp|
      ensures NumberChar(n.exp[k])
    {
      if k > 0 { assert n.exp[1..][k - 1] == n.exp[k]; }
      if k > 1 { assert n.exp[2..][k - 2] == n.exp[k]; }
    }
    assert forall k :: 0 <= k < |NumberText(n)| ==> NumberChar(NumberText(n)[k]);
  }
}
