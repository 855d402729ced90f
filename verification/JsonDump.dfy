/**
 The recursive `dump` of jsondump.c, which rebuilds the tree from the flat token
 array by counting tokens, and its loop of growing arrays.  Printed text is returned.
 */
module JsonDump {
  import opened JsmnLexer
  import opened JsmnMachine
  import opened JsmnTokenizer
  import opened JsmnNesting
  import opened JsmnCounting
  import opened JsmnResume
  import opened JsonGrammar
  import opened JsmnCorrect
  import opened TokenWalks
  import opened SeqFacts

  /** How a walk ends: the tokens used and the text printed, or the text printed before a token that was never made. */
  datatype Walked = Walked(used: nat, out: string) | PastTokens(out: string)

  function Ahead(o: string, w: Walked): Walked {
    match w
    case Walked(used, out) => Walked(used, o + out)
    case PastTokens(out) => PastTokens(o + out)
  }

  function Spaces(n: nat): string {
    if n == 0 then "" else "  " + Spaces(n - 1)
  }

  function LeafOut(js: string, t: Tok): string
    requires 0 <= t.start <= t.end <= |js|
  {
    if t.typ == String then "'" + js[t.start..t.end] + "'" else js[t.start..t.end]
  }

  /** The walk from token `at` on. */
  function DumpOf(js: string, t: seq<Tok>, at: nat, indent: nat): (r: Walked)
    requires Spans(js, t) && at <= |t|
    ensures r.Walked? ==> 0 < r.used <= |t| - at
    decreases |t| - at, 1, 0
  {
    if at == |t| then PastTokens("")
    else if !t[at].typ.Container? then Walked(1, LeafOut(js, t[at]))
    else Ahead("\n", ItemsOf(js, t, at, 0, 0, indent))
  }

  /** The members or elements of container `at` from number `i` on, `j` tokens behind it. */
  function ItemsOf(js: string, t: seq<Tok>, at: nat, i: nat, j: nat, indent: nat): (r: Walked)
    requires Spans(js, t) && at < |t| && t[at].typ.Container? && i <= t[at].size && at + 1 + j <= |t|
    ensures r.Walked? ==> j < r.used <= |t| - at
    decreases |t| - at, 0, t[at].size - i
  {
    if i == t[at].size then Walked(j + 1, "")
    else
      match ItemOf(js, t, at + 1 + j, t[at].typ.kind, indent)
      case PastTokens(out) => PastTokens(out)
      case Walked(n, out) => Ahead(out, ItemsOf(js, t, at, i + 1, j + n, indent))
  }

  lemma ItemsStep(js: string, t: seq<Tok>, at: nat, i: nat, j: nat, indent: nat, n: nat, out: string)
    requires Spans(js, t) && at < |t| && t[at].typ.Container? && i < t[at].size && at + 1 + j <= |t|
    requires ItemOf(js, t, at + 1 + j, t[at].typ.kind, indent) == Walked(n, out)
    ensures at + 1 + j + n <= |t| && ItemsOf(js, t, at, i, j, indent) == Ahead(out, ItemsOf(js, t, at, i + 1, j + n, indent))
  {
  }

  /** One member, a key and a value, or one element. */
  function ItemOf(js: string, t: seq<Tok>, at: nat, k: Kind, indent: nat): (r: Walked)
    requires Spans(js, t) && at <= |t|
    ensures r.Walked? ==> 0 < r.used <= |t| - at
    decreases |t| - at, 2, 0
  {
    if k == Array then Ended(Spaces(if indent == 0 then 0 else indent - 1) + "   - ", DumpOf(js, t, at, indent + 1))
    else
      match DumpOf(js, t, at, indent + 1)
      case PastTokens(out) => PastTokens(Spaces(indent) + out)
      case Walked(n, key) =>
        match Ended(Spaces(indent) + key + ": ", DumpOf(js, t, at + n, indent + 1))
        case PastTokens(out) => PastTokens(out)
        case Walked(m, out) => Walked(n + m, out)
  }

  /** Between `o` and the end of the line. */
  function Ended(o: string, w: Walked): Walked {
    match w
    case Walked(used, out) => Walked(used, o + out + "\n")
    case PastTokens(out) => PastTokens(o + out)
  }

  method PrintSpaces(n: nat) returns (s: string)
    ensures s == Spaces(n) && |s| == 2 * n && forall i :: 0 <= i < |s| ==> s[i] == ' '
  {
    s := "";
    for k := 0 to n
      invariant s == Spaces(k) && |s| == 2 * k && forall i :: 0 <= i < |s| ==> s[i] == ' '
    {
      s := "  " + s;
    }
  }

  /**
   `dump` on any closed tokens, at token `at`.  With `count` it is told how many
   tokens there are from there on, or more; it looks at `count` only to see if it is zero.
   */
  method Dump(js: string, t: seq<Tok>, at: nat, count: nat, indent: nat) returns (r: Walked)
    requires Spans(js, t) && at <= |t| <= at + count
    ensures r == if count == 0 then Walked(0, "") else DumpOf(js, t, at, indent)
    decreases |t| - at, 1, 0
  {
    if count == 0 {
      return Walked(0, "");
    }
    if at == |t| {
      return PastTokens("");
    }
    match t[at].typ
    case Primitive => r := Walked(1, js[t[at].start..t[at].end]);
    case String => r := Walked(1, "'" + js[t[at].start..t[at].end] + "'");
    case Container(k) => r := DumpItems(js, t, at, count, k, indent);
  }

  /** The loops over the members of an object or the elements of an array. */
  method DumpItems(js: string, t: seq<Tok>, at: nat, count: nat, k: Kind, indent: nat) returns (r: Walked)
    requires Spans(js, t) && at < |t| <= at + count && t[at].typ == Container(k)
    ensures r == Ahead("\n", ItemsOf(js, t, at, 0, 0, indent))
    decreases |t| - at, 0, 0
  {
    var out := "\n";
    var i: nat, j: nat := 0, 0;
    ghost var all := Ahead("\n", ItemsOf(js, t, at, 0, 0, indent));
    while i < t[at].size
      invariant i <= t[at].size && at + 1 + j <= |t|
      invariant all == Ahead(out, ItemsOf(js, t, at, i, j, indent))
    {
      var item := DumpItem(js, t, at + 1 + j, count - j, k, indent);
      if item.PastTokens? {
        return PastTokens(out + item.out);
      }
      AheadAhead(out, item.out, ItemsOf(js, t, at, i + 1, j + item.used, indent));
      out := out + item.out;
      i, j := i + 1, j + item.used;
    }
    AppendNil(out);
    r := Walked(j + 1, out);
  }

  lemma AheadAhead(a: string, b: string, w: Walked)
    ensures Ahead(a, Ahead(b, w)) == Ahead(a + b, w)
  {
    Assoc(a, b, w.out);
  }

  /** One turn of those loops. */
  method DumpItem(js: string, t: seq<Tok>, at: nat, count: nat, k: Kind, indent: nat) returns (r: Walked)
    requires Spans(js, t) && at <= |t| < at + count
    ensures r == ItemOf(js, t, at, k, indent)
    decreases |t| - at, 2, 0
  {
    if k == Object {
      var out := PrintSpaces(indent);
      var key := Dump(js, t, at, count, indent + 1);
      if key.PastTokens? {
        return PastTokens(out + key.out);
      }
      out := out + key.out + ": ";
      var val := Dump(js, t, at + key.used, count - key.used, indent + 1);
      if val.PastTokens? {
        return PastTokens(out + val.out);
      }
      r := Walked(key.used + val.used, out + val.out + "\n");
    } else {
      var out := PrintSpaces(if indent == 0 then 0 else indent - 1);
      out := out + "   - ";
      var val := Dump(js, t, at, count, indent + 1);
      r := if val.PastTokens? then PastTokens(out + val.out) else Walked(val.used, out + val.out + "\n");
    }
  }

  // ----- On documents -----

  /** What the tree looks like in print. */
  function Printed(n: Node, indent: nat): string
    decreases n, 1
  {
    match n
    case Name(_, body) => PrintedString(body)
    case Value(_, d) => PrintedTree(d, indent)
  }

  function PrintedString(body: seq<StringUnit>): string {
    "'" + BodyText(body) + "'"
  }

  function PrintedTree(d: Json, indent: nat): string
    decreases d
  {
    match d
    case Lit(t) => t
    case Str(body) => PrintedString(body)
    case Box(k, _, es) => "\n" + PrintedElems(k, es, indent)
  }

  function PrintedElems(k: Kind, es: Elems, indent: nat): string
    decreases es
  {
    if es.NoElem? then "" else PrintedElem(k, es, indent) + PrintedElems(k, es.rest, indent)
  }

  function PrintedElem(k: Kind, es: Elems, indent: nat): string
    requires es.Elem?
    decreases es, 0
  {
    if k == Object && es.key.Key? then
      Spaces(indent) + PrintedString(es.key.body) + ": " + PrintedTree(es.value, indent + 1) + "\n"
    else
      Spaces(if indent == 0 then 0 else indent - 1) + "   - " + PrintedTree(es.value, indent + 1) + "\n"
  }

  /** The tokens from `at` on begin with those of the nodes. */
  ghost predicate StartsAt(js: string, t: seq<Tok>, at: nat, nodes: seq<Node>) {
    at <= |t| && Starts(js, t[at..], nodes)
  }

  lemma LeafFacts(js: string, t: seq<Tok>, at: nat, n: Node, indent: nat)
    requires Spans(js, t) && StartsAt(js, t, at, Subtree(n)) && IsLeaf(n)
    ensures DumpOf(js, t, at, indent) == Walked(Tokens(n), Printed(n, indent))
  {
    assert t[at] == t[at..][0];
  }

  /** The first token of a container, and where its members or elements start. */
  lemma BoxFacts(js: string, t: seq<Tok>, at: nat, d: Json, o: nat, inner: nat)
    requires StartsAt(js, t, at, Preorder(d, o)) && d.Box? && inner == o + 1 + |d.pad|
    ensures at < |t| && t[at].typ == Container(d.kind) && t[at].size == Count(d.elems)
    ensures StartsAt(js, t, at + 1, PreorderElems(d.elems, true, inner))
  {
    assert t[at] == t[at..][0];
    StartsInside(js, t[at..], d, o, inner);
    DropDrop(t, at, 1);
  }

  /** One member or element: its key, its value, and what comes behind. */
  lemma ElemFacts(js: string, t: seq<Tok>, at: nat, es: Elems, first: bool, o: nat, n: nat, next: nat)
    requires es.Elem? && StartsAt(js, t, at, PreorderElems(es, first, o))
    requires n == KeyCount(es.key) + Size(es.value) && next == NextAt(es, first, o)
    ensures StartsAt(js, t, at, KeyNodes(es.key, KeyAt(es, first, o)))
    ensures StartsAt(js, t, at + KeyCount(es.key), Preorder(es.value, ValueAt(es, first, o)))
    ensures StartsAt(js, t, at + n, PreorderElems(es.rest, false, next))
    ensures ElemsSize(es) == n + ElemsSize(es.rest) && Count(es) == 1 + Count(es.rest)
  {
    StartsElem(js, t[at..], es, first, o);
    PartsAt(js, t, at, KeyCount(es.key), n, KeyNodes(es.key, KeyAt(es, first, o)),
            Preorder(es.value, ValueAt(es, first, o)), PreorderElems(es.rest, false, next));
  }

  lemma PartsAt(js: string, t: seq<Tok>, at: nat, k: nat, n: nat, x: seq<Node>, y: seq<Node>, z: seq<Node>)
    requires at <= |t| && k <= n <= |t| - at && Starts(js, t[at..], x) && Starts(js, t[at..][k..], y) && Starts(js, t[at..][n..], z)
    ensures StartsAt(js, t, at, x) && StartsAt(js, t, at + k, y) && StartsAt(js, t, at + n, z)
  {
    DropDrop(t, at, k);
    DropDrop(t, at, n);
  }

  lemma {:induction false} DumpTree(js: string, t: seq<Tok>, at: nat, d: Json, o: nat, indent: nat)
    requires Spans(js, t) && StartsAt(js, t, at, Preorder(d, o)) && JsonOk(false, d)
    ensures DumpOf(js, t, at, indent) == Walked(Size(d), PrintedTree(d, indent))
    decreases d, 2
  {
    if d.Box? {
      var inner := o + 1 + |d.pad|;
      BoxFacts(js, t, at, d, o, inner);
      DumpElems(js, t, at + 1, d.kind, d.elems, true, inner, indent);
      ItemsPrinted(js, t, at, d.kind, 0, 0, d.elems, indent);
    } else {
      LeafFacts(js, t, at, Value(o, d), indent);
    }
  }

  /** From token `from` on, the walk prints the elements `es` one after the other. */
  ghost predicate Prints(js: string, t: seq<Tok>, from: nat, k: Kind, es: Elems, indent: nat)
    requires Spans(js, t)
    decreases es
  {
    from <= |t| && (es.Elem? ==>
      var n := KeyCount(es.key) + Size(es.value);
      ItemOf(js, t, from, k, indent) == Walked(n, PrintedElem(k, es, indent)) && Prints(js, t, from + n, k, es.rest, indent))
  }

  lemma {:induction false} DumpElems(js: string, t: seq<Tok>, from: nat, k: Kind, es: Elems, first: bool, o: nat, indent: nat)
    requires Spans(js, t) && ElemsOk(false, k, es) && StartsAt(js, t, from, PreorderElems(es, first, o))
    ensures Prints(js, t, from, k, es, indent)
    decreases es, 1
  {
    if es.Elem? {
      var n, next := KeyCount(es.key) + Size(es.value), NextAt(es, first, o);
      ElemFacts(js, t, from, es, first, o, n, next);
      DumpElem(js, t, from, k, es, first, o, indent);
      DumpElems(js, t, from + n, k, es.rest, false, next, indent);
    }
  }

  lemma {:induction false} ItemsPrinted(js: string, t: seq<Tok>, at: nat, k: Kind, i: nat, j: nat, es: Elems, indent: nat)
    requires Spans(js, t) && at < |t| && t[at].typ == Container(k) && i + Count(es) == t[at].size
    requires Prints(js, t, at + 1 + j, k, es, indent)
    ensures ItemsOf(js, t, at, i, j, indent) == Walked(j + ElemsSize(es) + 1, PrintedElems(k, es, indent))
    decreases es
  {
    if es.Elem? {
      ItemsPrinted(js, t, at, k, i + 1, j + (KeyCount(es.key) + Size(es.value)), es.rest, indent);
    }
  }

  lemma KeyFacts(js: string, t: seq<Tok>, at: nat, key: Key, o: nat, indent: nat)
    requires Spans(js, t) && key.Key? && StartsAt(js, t, at, KeyNodes(key, o))
    ensures at < |t| && DumpOf(js, t, at, indent) == Walked(1, PrintedString(key.body))
  {
    LeafFacts(js, t, at, Name(o, key.body), indent);
  }

  lemma {:induction false} DumpElem(js: string, t: seq<Tok>, at: nat, k: Kind, es: Elems, first: bool, o: nat, indent: nat)
    requires Spans(js, t) && es.Elem? && ElemsOk(false, k, es) && StartsAt(js, t, at, PreorderElems(es, first, o))
    ensures ItemOf(js, t, at, k, indent) == Walked(KeyCount(es.key) + Size(es.value), PrintedElem(k, es, indent))
    decreases es, 0
  {
    ElemFacts(js, t, at, es, first, o, KeyCount(es.key) + Size(es.value), NextAt(es, first, o));
    DumpTree(js, t, at + KeyCount(es.key), es.value, ValueAt(es, first, o), indent + 1);
    if k == Object {
      KeyFacts(js, t, at, es.key, KeyAt(es, first, o), indent + 1);
    }
    ElemPrinted(js, t, at, k, es, indent);
  }

  /** From the walks over key and value. */
  lemma ElemPrinted(js: string, t: seq<Tok>, at: nat, k: Kind, es: Elems, indent: nat)
    requires Spans(js, t) && es.Elem? && KeyOk(k, es.key) && at + KeyCount(es.key) <= |t|
    requires k == Object ==> DumpOf(js, t, at, indent + 1) == Walked(1, PrintedString(es.key.body))
    requires DumpOf(js, t, at + KeyCount(es.key), indent + 1) == Walked(Size(es.value), PrintedTree(es.value, indent + 1))
    ensures ItemOf(js, t, at, k, indent) == Walked(KeyCount(es.key) + Size(es.value), PrintedElem(k, es, indent))
  {
  }

  // ----- Exactly when a walk reads past the tokens -----

  /** How many tokens a walk wants behind this one: two a member, one an element. */
  function Wants(k: Kind, items: nat): nat {
    if k == Object then 2 * items else items
  }

  function Arity(t: Tok): nat {
    if t.typ.Container? then Wants(t.typ.kind, t.size) else 0
  }

  /** What the tokens from `a` up to `b` want, less what they are. */
  function Balance(t: seq<Tok>, a: nat, b: nat): int
    requires a <= b <= |t|
    decreases b - a
  {
    if a == b then 0 else Balance(t, a, b - 1) + Arity(t[b - 1]) - 1
  }

  lemma {:induction false} BalanceSplit(t: seq<Tok>, a: nat, b: nat, c: nat)
    requires a <= b <= c <= |t|
    ensures Balance(t, a, c) == Balance(t, a, b) + Balance(t, b, c)
    decreases c - b
  {
    if b < c {
      BalanceSplit(t, a, b, c - 1);
    }
  }

  /** The balance from `a` on, with `w` tokens wanted at `a`, stays above zero up to `b`. */
  ghost predicate Wanting(t: seq<Tok>, a: nat, w: nat, b: nat) {
    a <= b <= |t| + 1 && forall n :: a <= n < b ==> w + Balance(t, a, n) > 0
  }

  /** What a walk from `a` on does to the want `w`: it meets it at the end, or the tokens end first. */
  ghost predicate Meets(t: seq<Tok>, a: nat, w: nat, past: bool, end: nat) {
    if past then Wanting(t, a, w, |t| + 1)
    else a <= end <= |t| && Wanting(t, a, w, end) && w + Balance(t, a, end) == 0
  }

  /** Where a walk from `at` ended. */
  function EndOf(r: Walked, at: nat): nat {
    if r.Walked? then at + r.used else 0
  }

  /** Two walks in a row meet the sum of their wants. */
  lemma MeetsBoth(t: seq<Tok>, a: nat, v: nat, b: nat, w: nat, past: bool, end: nat)
    requires Meets(t, a, v, false, b) && Meets(t, b, w, past, end)
    ensures Meets(t, a, v + w, past, end)
  {
    forall n | a <= n <= |t|
      ensures b <= n ==> Balance(t, a, n) == Balance(t, b, n) - v
    {
      if b <= n {
        BalanceSplit(t, a, b, n);
      }
    }
  }

  /** The same for the items of a container, the first of `left` and the others. */
  lemma MeetsItems(t: seq<Tok>, from: nat, k: Kind, left: nat, n: nat, past: bool, end: nat)
    requires left > 0 && Meets(t, from, Wants(k, 1), false, from + n) && Meets(t, from + n, Wants(k, left - 1), past, end)
    ensures Meets(t, from, Wants(k, left), past, end)
  {
    MeetsBoth(t, from, Wants(k, 1), from + n, Wants(k, left - 1), past, end);
  }

  lemma {:induction false} DumpMeets(js: string, t: seq<Tok>, at: nat, indent: nat)
    requires Spans(js, t) && at <= |t|
    ensures var r := DumpOf(js, t, at, indent); Meets(t, at, 1, r.PastTokens?, EndOf(r, at))
    decreases |t| - at, 1, 0
  {
    if at < |t| && t[at].typ.Container? {
      ItemsMeet(js, t, at, 0, 0, indent);
      var r := DumpOf(js, t, at, indent);
      HeadMeets(t, at, r.PastTokens?, EndOf(r, at));
    }
  }

  /** A token that wants what follows it. */
  lemma HeadMeets(t: seq<Tok>, at: nat, past: bool, end: nat)
    requires at < |t| && Meets(t, at + 1, Arity(t[at]), past, end)
    ensures Meets(t, at, 1, past, end)
  {
    forall n | at + 1 <= n <= |t|
      ensures Balance(t, at, n) == Arity(t[at]) - 1 + Balance(t, at + 1, n)
    {
      BalanceSplit(t, at, at + 1, n);
    }
  }

  /** The items from `i` on meet what is left of the container's want. */
  ghost predicate ItemsOk(js: string, t: seq<Tok>, at: nat, i: nat, j: nat, indent: nat)
    requires Spans(js, t) && at < |t| && t[at].typ.Container? && i <= t[at].size && at + 1 + j <= |t|
  {
    var r := ItemsOf(js, t, at, i, j, indent);
    Meets(t, at + 1 + j, Wants(t[at].typ.kind, t[at].size - i), r.PastTokens?, EndOf(r, at))
  }

  lemma {:induction false} ItemsMeet(js: string, t: seq<Tok>, at: nat, i: nat, j: nat, indent: nat)
    requires Spans(js, t) && at < |t| && t[at].typ.Container? && i <= t[at].size && at + 1 + j <= |t|
    ensures ItemsOk(js, t, at, i, j, indent)
    decreases |t| - at, 0, t[at].size - i
  {
    if i < t[at].size {
      ItemMeets(js, t, at + 1 + j, t[at].typ.kind, indent);
      match ItemOf(js, t, at + 1 + j, t[at].typ.kind, indent) {
        case PastTokens(out) => ItemsPast(js, t, at, i, j, indent, out);
        case Walked(n, out) =>
          ItemsMeet(js, t, at, i + 1, j + n, indent);
          ItemsAhead(js, t, at, i, j, indent, n, out);
      }
    }
  }

  lemma ItemsAhead(js: string, t: seq<Tok>, at: nat, i: nat, j: nat, indent: nat, n: nat, out: string)
    requires Spans(js, t) && at < |t| && t[at].typ.Container? && i < t[at].size && at + 1 + j + n <= |t|
    requires ItemOf(js, t, at + 1 + j, t[at].typ.kind, indent) == Walked(n, out)
    requires Meets(t, at + 1 + j, Wants(t[at].typ.kind, 1), false, at + 1 + j + n) && ItemsOk(js, t, at, i + 1, j + n, indent)
    ensures ItemsOk(js, t, at, i, j, indent)
  {
    ItemsStep(js, t, at, i, j, indent, n, out);
    var r := ItemsOf(js, t, at, i + 1, j + n, indent);
    MeetsItems(t, at + 1 + j, t[at].typ.kind, t[at].size - i, n, r.PastTokens?, EndOf(r, at));
  }

  lemma ItemsPast(js: string, t: seq<Tok>, at: nat, i: nat, j: nat, indent: nat, out: string)
    requires Spans(js, t) && at < |t| && t[at].typ.Container? && i < t[at].size && at + 1 + j <= |t|
    requires ItemOf(js, t, at + 1 + j, t[at].typ.kind, indent) == PastTokens(out)
    requires Meets(t, at + 1 + j, Wants(t[at].typ.kind, 1), true, 0)
    ensures ItemsOk(js, t, at, i, j, indent)
  {
    MeetsMore(t, at + 1 + j, Wants(t[at].typ.kind, 1), Wants(t[at].typ.kind, t[at].size - i));
  }

  lemma MeetsMore(t: seq<Tok>, a: nat, v: nat, w: nat)
    requires Meets(t, a, v, true, 0) && v <= w
    ensures Meets(t, a, w, true, 0)
  {
  }

  lemma {:induction false} ItemMeets(js: string, t: seq<Tok>, at: nat, k: Kind, indent: nat)
    requires Spans(js, t) && at <= |t|
    ensures var r := ItemOf(js, t, at, k, indent); Meets(t, at, Wants(k, 1), r.PastTokens?, EndOf(r, at))
    decreases |t| - at, 2, 0
  {
    DumpMeets(js, t, at, indent + 1);
    if k == Object {
      var key := DumpOf(js, t, at, indent + 1);
      if key.PastTokens? {
      } else {
        DumpMeets(js, t, at + key.used, indent + 1);
        var val := DumpOf(js, t, at + key.used, indent + 1);
        MeetsBoth(t, at, 1, at + key.used, 1, val.PastTokens?, EndOf(val, at + key.used));
      }
    }
  }

  /**
   A walk reads past the tokens iff the tokens from its start on always want more
   than they are; otherwise it ends where that is first not so.
   */
  lemma DumpPastIff(js: string, t: seq<Tok>, at: nat, indent: nat)
    requires Spans(js, t) && at <= |t|
    ensures DumpOf(js, t, at, indent).PastTokens? <==> forall n :: at <= n <= |t| ==> Balance(t, at, n) >= 0
    ensures var r := DumpOf(js, t, at, indent);
            r.Walked? ==> Balance(t, at, at + r.used) == -1 && forall n :: at <= n < at + r.used ==> Balance(t, at, n) >= 0
  {
    DumpMeets(js, t, at, indent);
    var r := DumpOf(js, t, at, indent);
    assert r.Walked? ==> Balance(t, at, at + r.used) == -1;
  }

  // ----- From a text to its print -----

  /** The copy that realloc makes: the old tokens, and room for as many again. */
  method Doubled(tok: array<Tok>) returns (big: array<Tok>)
    ensures fresh(big) && big.Length == 2 * tok.Length && big[..tok.Length] == tok[..]
  {
    big := new Tok[2 * tok.Length](_ => Tok(Primitive, -1, -1, 0, -1));
    for i := 0 to tok.Length
      invariant big[..i] == tok[..i]
    {
      big[i] := tok[i];
      assert big[..i + 1] == big[..i] + [big[i]] && tok[..i + 1] == tok[..i] + [tok[i]];
    }
    TakeAll(big[..tok.Length]);
    assert tok[..tok.Length] == tok[..];
  }

  /** What the last call left is what one run with the present array leaves, and its verdict is that run's. */
  ghost predicate AsOneRun(v: Parser, r: Result, f: Final) {
    v == f.parser && (r.Err? || f.result.Err? ==> r == f.result)
  }

  lemma Regrown(m: Mode, m2: Mode, js: string, v: Parser, r: Result)
    requires Grows(m, m2) && AsOneRun(v, r, Run(m, js, Fresh))
    ensures AsOneRun(Run(m2, js, v).parser, Run(m2, js, v).result, Run(m2, js, Fresh))
  {
    GrowAfterNoMem(m, m2, js, Fresh);
  }

  /** The loop of jsondump.c on any text: parse, double the array for lack of tokens, try again. */
  method ParseGrowing(js: string) returns (toks: seq<Tok>, r: Result, ghost m: Mode)
    ensures m.pool.Cap? && m == DefaultBuild(m.pool.n)
    ensures r != Err(NoMem) && toks == Run(m, js, Fresh).parser.toks
    ensures r.Err? || Run(m, js, Fresh).result.Err? ==> r == Run(m, js, Fresh).result
  {
    var p := new Tokenizer(false, false);
    var tok := new Tok[2](_ => Tok(Primitive, -1, -1, 0, -1));
    assert p.View(tok) == Fresh by { assert tok[..0] == []; }
    r := p.Parse(js, tok, tok.Length);
    m := DefaultBuild(tok.Length);
    while r == Err(NoMem)
      invariant fresh(p) && fresh(tok) && tok.Length > 0 && p.Valid(tok, tok.Length) && !p.strict && !p.links
      invariant m == DefaultBuild(tok.Length) && AsOneRun(p.View(tok), r, Run(m, js, Fresh))
      decreases |js| + 1 - tok.Length
    {
      TextBoundsTokens(m, js);
      var big := Doubled(tok);
      ghost var m2 := DefaultBuild(big.Length);
      PrefixKept(tok[..], big[..], p.toknext);
      Regrown(m, m2, js, p.View(tok), r);
      tok := big;
      m := m2;
      r := p.Parse(js, tok, tok.Length);
    }
    toks := tok[..p.toknext];
  }

  /** The parse with more tokens than the text has characters, which never runs out of them. */
  ghost function Parsed(js: string): Final {
    Run(DefaultBuild(|js| + 1), js, Fresh)
  }

  lemma ParsedSpans(js: string)
    requires Parsed(js).result.Ok?
    ensures Spans(js, Parsed(js).parser.toks)
  {
    SuccessIsMatched(DefaultBuild(|js| + 1), js);
  }

  lemma AnyEnough(n: nat, js: string)
    requires Run(DefaultBuild(n), js, Fresh).result != Err(NoMem)
    ensures Run(DefaultBuild(n), js, Fresh) == Parsed(js)
  {
    TextBoundsTokens(DefaultBuild(|js| + 1), js);
    var big := DefaultBuild(n + |js| + 1);
    EnoughIsEnough(DefaultBuild(n), big, js, Fresh);
    EnoughIsEnough(DefaultBuild(|js| + 1), big, js, Fresh);
  }

  datatype Dumped = Refused(error: Error) | Dumped(walk: Walked)

  ghost function DumpedText(js: string): Dumped {
    var f := Parsed(js);
    if f.result.Err? then Refused(f.result.error)
    else
      ParsedSpans(js);
      Dumped(if f.parser.toks == [] then Walked(0, "") else DumpOf(js, f.parser.toks, 0, 0))
  }

  /** That loop and the dump of what it made, on any text. */
  method DumpText(js: string) returns (r: Dumped)
    ensures r == DumpedText(js)
  {
    ghost var m;
    var toks, parsed;
    toks, parsed, m := ParseGrowing(js);
    AnyEnough(m.pool.n, js);
    if parsed.Err? {
      return Refused(parsed.error);
    }
    ParsedSpans(js);
    var walk := Dump(js, toks, 0, |toks|, 0);
    r := Dumped(walk);
  }

  lemma ParsedDocument(js: string, lead: string, d: Json, trail: string)
    requires Blanks(lead) && Blanks(trail) && JsonOk(false, d) && js == Document(lead, d, trail)
    ensures var f := Parsed(js);
            f.result.Ok? && f.parser.toks != [] && Spans(js, f.parser.toks) && StartsAt(js, f.parser.toks, 0, Preorder(d, |lead|))
  {
    TextBoundsTokens(DefaultBuild(|js| + 1), js);
    DocumentStarts(js, |js| + 1, lead, d, trail);
    ParsedSpans(js);
    var t := Parsed(js).parser.toks;
    assert t[0..] == t;
  }

  /** A document is printed whole. */
  lemma DumpOfDocument(lead: string, d: Json, trail: string)
    requires Blanks(lead) && Blanks(trail) && JsonOk(false, d)
    ensures DumpedText(Document(lead, d, trail)) == Dumped(Walked(Size(d), PrintedTree(d, 0)))
  {
    var js := Document(lead, d, trail);
    ParsedDocument(js, lead, d, trail);
    DumpTree(js, Parsed(js).parser.toks, 0, d, |lead|, 0);
  }

  /** Exactly which texts make `dump` read a token that the parse has not made. */
  lemma DumpTextPastIff(js: string)
    ensures DumpedText(js).Dumped? && DumpedText(js).walk.PastTokens? <==>
            var f := Parsed(js);
            f.result.Ok? && f.parser.toks != [] && forall n :: 0 <= n <= |f.parser.toks| ==> Balance(f.parser.toks, 0, n) >= 0
  {
    if Parsed(js).result.Ok? {
      ParsedSpans(js);
      DumpPastIff(js, Parsed(js).parser.toks, 0, 0);
    }
  }

  /** Such a text: a key without a value. */
  lemma DumpPastExample(js: string)
    requires js == LoneKey
    ensures DumpedText(js).Dumped? && DumpedText(js).walk.PastTokens?
  {
    LoneKeyRun(|js| + 1);
    LoneKeyBalance();
    DumpTextPastIff(js);
  }

  lemma LoneKeyBalance()
    ensures forall n :: 0 <= n <= |LoneKeyTokens| ==> Balance(LoneKeyTokens, 0, n) >= 0
  {
    assert Balance(LoneKeyTokens, 0, 1) == 1 && Balance(LoneKeyTokens, 0, 2) == 0;
  }
}
