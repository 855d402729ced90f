/**
 `raft_print_stats`: parse the statistics text into a fixed array and read the
 members of the root object by index arithmetic.  Printed lines are returned.
 */
module StatsPrinter {
  import opened JsmnLexer
  import opened JsmnMachine
  import opened JsmnTokenizer
  import opened JsmnNesting
  import opened JsonGrammar
  import opened JsmnCorrect
  import opened TokenWalks
  import opened SeqFacts

  datatype CString = Null | Text(chars: string)

  /**
   What is printed or logged.  `Lines`: the pairs, and the position of the first
   member that is no pair of strings, or -1.  `PastTokens`: after these pairs the
   code reads a token that the parse has not made.
   */
  datatype Stats =
    | NoPointer
    | BadJson(parsed: Result)
    | NotAnObject
    | Lines(pairs: seq<(string, string)>, badNear: int)
    | PastTokens(pairs: seq<(string, string)>)

  function Behind(pairs: seq<(string, string)>, s: Stats): Stats {
    match s
    case Lines(more, bad) => Lines(pairs + more, bad)
    case PastTokens(more) => PastTokens(pairs + more)
    case _ => s
  }

  /** The members from number `key` on; a value is looked at only if its key is a string. */
  ghost function Walk(js: string, t: seq<Tok>, size: int, key: nat): Stats
    requires Spans(js, t)
    decreases size - key
  {
    if key >= size then Lines([], -1)
    else if 1 + 2 * key >= |t| then PastTokens([])
    else
      var k := t[1 + 2 * key];
      if k.typ != String then Lines([], k.start)
      else if 2 + 2 * key >= |t| then PastTokens([])
      else
        var v := t[2 + 2 * key];
        if v.typ != String then Lines([], k.start)
        else Behind([(js[k.start..k.end], js[v.start..v.end])], Walk(js, t, size, key + 1))
  }

  lemma BehindBehind(a: seq<(string, string)>, b: seq<(string, string)>, s: Stats)
    ensures Behind(a, Behind(b, s)) == Behind(a + b, s)
  {
  }

  /** The loop over the members of the root object, which steps by two tokens a member. */
  method PrintPairs(js: string, t: seq<Tok>) returns (r: Stats)
    requires t != [] && Spans(js, t)
    ensures r == Walk(js, t, t[0].size, 0)
  {
    var pairs := [];
    var key: nat := 0;
    ghost var all := Walk(js, t, t[0].size, 0);
    assert all == Behind([], all) by {
      if all.Lines? || all.PastTokens? { AppendNil(all.pairs); }
    }
    while key < t[0].size
      invariant all == Behind(pairs, Walk(js, t, t[0].size, key))
      decreases t[0].size - key
    {
      AppendNil(pairs);
      var i := 1 + 2 * key;
      if i >= |t| {
        return PastTokens(pairs);
      }
      var k := t[i];
      if k.typ != String {
        return Lines(pairs, k.start);
      }
      if i + 1 >= |t| {
        return PastTokens(pairs);
      }
      var v := t[i + 1];
      if v.typ != String {
        return Lines(pairs, k.start);
      }
      var line := [(js[k.start..k.end], js[v.start..v.end])];
      BehindBehind(pairs, line, Walk(js, t, t[0].size, key + 1));
      pairs := pairs + line;
      key := key + 1;
    }
    AppendNil(pairs);
    r := Lines(pairs, -1);
  }

  /** What the parse into 64 tokens gives. */
  ghost function Parsed(js: string): Final {
    Run(DefaultBuild(64), js, Fresh)
  }

  lemma ParsedSpans(js: string)
    requires Parsed(js).result.Ok?
    ensures Spans(js, Parsed(js).parser.toks) && |Parsed(js).parser.toks| == Parsed(js).result.count
  {
    SuccessIsMatched(DefaultBuild(64), js);
    RunSane(DefaultBuild(64), js, Fresh);
  }

  ghost function StatsOf(js: string): Stats {
    var f := Parsed(js);
    if f.result.Err? || f.result.count < 1 then BadJson(f.result)
    else
      ParsedSpans(js);
      if f.parser.toks[0].typ != Container(Object) then NotAnObject
      else Walk(js, f.parser.toks, f.parser.toks[0].size, 0)
  }

  method ParseStats(js: string) returns (r: Result, t: seq<Tok>)
    ensures Final(Parsed(js).parser, r) == Parsed(js) && t == Parsed(js).parser.toks
  {
    var p := new Tokenizer(false, false);
    var tokens := new Tok[64](_ => Tok(Primitive, -1, -1, 0, -1));
    assert p.View(tokens) == Fresh by { assert tokens[..0] == []; }
    r := p.Parse(js, tokens, tokens.Length);
    t := tokens[..p.toknext];
  }

  /** On any text. */
  method PrintStats(stats: CString) returns (r: Stats)
    ensures r == if stats == Null then NoPointer else StatsOf(stats.chars)
  {
    if stats == Null {
      return NoPointer;
    }
    var parsed, t := ParseStats(stats.chars);
    if parsed.Err? || parsed.count < 1 {
      return BadJson(parsed);
    }
    ParsedSpans(stats.chars);
    if t[0].typ != Container(Object) {
      return NotAnObject;
    }
    r := PrintPairs(stats.chars, t);
  }

  // ----- Exactly when a token is read that the parse has not made -----

  /** The tokens from number `a` on are all strings. */
  predicate StringsFrom(t: seq<Tok>, a: nat) {
    forall i :: a <= i < |t| ==> t[i].typ == String
  }

  lemma {:induction false} WalkPastIff(js: string, t: seq<Tok>, size: int, key: nat)
    requires Spans(js, t) && 1 + 2 * key <= |t|
    ensures Walk(js, t, size, key).PastTokens? <==> key < size && 2 * size >= |t| && StringsFrom(t, 1 + 2 * key)
    decreases size - key
  {
    if key < size && 2 + 2 * key < |t| && t[1 + 2 * key].typ == String && t[2 + 2 * key].typ == String {
      WalkPastIff(js, t, size, key + 1);
    }
  }

  /**
   The root is an object, all tokens behind it are strings, and it claims at least
   one member and at least half as many as there are tokens.
   */
  lemma StatsPastIff(js: string)
    ensures StatsOf(js).PastTokens? <==>
            var f := Parsed(js);
            && f.result.Ok? && f.result.count >= 1 && |f.parser.toks| == f.result.count
            && f.parser.toks[0].typ == Container(Object) && f.parser.toks[0].size > 0
            && 2 * f.parser.toks[0].size >= |f.parser.toks| && StringsFrom(f.parser.toks, 1)
  {
    var f := Parsed(js);
    if f.result.Ok? && f.result.count >= 1 {
      ParsedSpans(js);
      WalkPastIff(js, f.parser.toks, f.parser.toks[0].size, 0);
    }
  }

  /** Such a text: a key without a value. */
  lemma StatsPastExample()
    ensures StatsOf(LoneKey) == PastTokens([])
  {
    LoneKeyRun(64);
  }

  // ----- On documents -----

  /** The members up to the first whose value is no string. */
  function Pairs(es: Elems): seq<(string, string)> {
    if es.NoElem? || es.key.NoKey? || !es.value.Str? then []
    else [(BodyText(es.key.body), BodyText(es.value.body))] + Pairs(es.rest)
  }

  /** Where the key of the first member starts whose value is no string, -1 if all are strings. */
  function BadNear(es: Elems, first: bool, o: nat): int {
    if es.NoElem? then -1
    else if es.key.NoKey? || !es.value.Str? then KeyAt(es, first, o) + 1
    else BadNear(es.rest, false, NextAt(es, first, o))
  }

  /** What the index arithmetic finds at the next two tokens. */
  lemma StatsMember(js: string, t: seq<Tok>, es: Elems, first: bool, o: nat)
    requires es.Elem? && es.key.Key? && Starts(js, t, PreorderElems(es, first, o))
    ensures |t| >= 2 && t[0].typ == String && t[0].start == KeyAt(es, first, o) + 1
    ensures 0 <= t[0].start <= t[0].end <= |js| && js[t[0].start..t[0].end] == BodyText(es.key.body)
    ensures (t[1].typ == String) == es.value.Str?
    ensures es.value.Str? ==> 0 <= t[1].start <= t[1].end <= |js| && js[t[1].start..t[1].end] == BodyText(es.value.body)
    ensures es.value.Str? ==> Starts(js, t[2..], PreorderElems(es.rest, false, NextAt(es, first, o)))
  {
    StartsElem(js, t, es, first, o);
    assert KeyNodes(es.key, KeyAt(es, first, o))[0] == Name(KeyAt(es, first, o), es.key.body);
    assert t[1..][0] == t[1];
  }

  /** The tokens from member number `key` on are those of the members `es`. */
  ghost predicate Here(js: string, t: seq<Tok>, key: nat, es: Elems, first: bool, at: nat) {
    1 + 2 * key <= |t| && Starts(js, t[1 + 2 * key..], PreorderElems(es, first, at))
  }

  /** The same at member number `key` of the whole array. */
  lemma MemberAt(js: string, t: seq<Tok>, key: nat, es: Elems, first: bool, at: nat, next: nat)
    requires es.Elem? && es.key.Key? && next == NextAt(es, first, at) && Here(js, t, key, es, first, at)
    ensures 2 + 2 * key < |t|
    ensures var k, v := t[1 + 2 * key], t[2 + 2 * key];
            && k.typ == String && k.start == KeyAt(es, first, at) + 1 && (v.typ == String) == es.value.Str?
            && 0 <= k.start <= k.end <= |js| && js[k.start..k.end] == BodyText(es.key.body)
            && (es.value.Str? ==> 0 <= v.start <= v.end <= |js| && js[v.start..v.end] == BodyText(es.value.body))
    ensures es.value.Str? ==> Here(js, t, key + 1, es.rest, false, next)
  {
    var tail := t[1 + 2 * key..];
    StatsMember(js, tail, es, first, at);
    assert t[1 + 2 * key] == tail[0] && t[2 + 2 * key] == tail[1];
    DropDrop(t, 1 + 2 * key, 2);
  }

  /** One member of the walk, and what it leaves. */
  lemma WalkMember(js: string, t: seq<Tok>, size: int, key: nat, es: Elems, first: bool, at: nat, next: nat)
    requires Spans(js, t) && key < size && es.Elem? && es.key.Key? && next == NextAt(es, first, at) && Here(js, t, key, es, first, at)
    ensures !es.value.Str? ==> Walk(js, t, size, key) == Lines([], KeyAt(es, first, at) + 1)
    ensures es.value.Str? ==>
              && Walk(js, t, size, key) == Behind([(BodyText(es.key.body), BodyText(es.value.body))], Walk(js, t, size, key + 1))
              && Here(js, t, key + 1, es.rest, false, next)
  {
    MemberAt(js, t, key, es, first, at, next);
  }

  /** What the members amount to. */
  function Listed(es: Elems, first: bool, at: nat): Stats {
    Lines(Pairs(es), BadNear(es, first, at))
  }

  lemma {:induction false} WalkMembers(js: string, t: seq<Tok>, size: int, key: nat, es: Elems, first: bool, at: nat, w: Stats)
    requires Spans(js, t) && key + Count(es) == size && ElemsOk(false, Object, es) && Here(js, t, key, es, first, at)
    requires w == Listed(es, first, at)
    ensures Walk(js, t, size, key) == w
    decreases es
  {
    if es.Elem? {
      var next := NextAt(es, first, at);
      WalkMember(js, t, size, key, es, first, at, next);
      if es.value.Str? {
        WalkMembers(js, t, size, key + 1, es.rest, false, next, Listed(es.rest, false, next));
      }
    }
  }

  /** What the tokens say about the root and, for an object, where its members start. */
  lemma StatsRoot(js: string, t: seq<Tok>, d: Json, o: nat, at: nat)
    requires Starts(js, t, Preorder(d, o)) && JsonOk(false, d) && (d.Box? ==> at == o + 1 + |d.pad|)
    ensures t != [] && (t[0].typ == Container(Object) <==> d.Box? && d.kind == Object)
    ensures d.Box? ==> t[0].size == Count(d.elems) && ElemsOk(false, d.kind, d.elems)
    ensures d.Box? ==> Starts(js, t[1..], PreorderElems(d.elems, true, at))
  {
    if d.Box? {
      StartsInside(js, t, d, o, at);
    }
  }

  /**
   For every JSON document: too many tokens, no object at the root, or exactly the
   members in order up to the first that is no string; never a token too far.
   */
  lemma StatsOfDocument(lead: string, d: Json, trail: string)
    requires Blanks(lead) && Blanks(trail) && JsonOk(false, d)
    ensures StatsOf(Document(lead, d, trail)) ==
            if Size(d) > 64 then BadJson(Err(NoMem))
            else if !d.Box? || d.kind != Object then NotAnObject
            else Listed(d.elems, true, |lead| + 1 + |d.pad|)
  {
    var js := Document(lead, d, trail);
    if Size(d) > 64 {
      TooFewTokens(DefaultBuild(64), lead, d, trail);
    } else {
      ParseStarts(DefaultBuild(64), lead, d, trail);
      var t := Parsed(js).parser.toks;
      ParsedSpans(js);
      var at := if d.Box? then |lead| + 1 + |d.pad| else 0;
      StatsRoot(js, t, d, |lead|, at);
      if d.Box? && d.kind == Object {
        WalkMembers(js, t, t[0].size, 0, d.elems, true, at, Listed(d.elems, true, at));
      }
    }
  }

  predicate AllStrings(es: Elems) {
    es.Elem? ==> es.key.Key? && es.value.Str? && AllStrings(es.rest)
  }

  function MemberTexts(es: Elems): seq<(string, string)>
    requires AllStrings(es)
  {
    if es.NoElem? then [] else [(BodyText(es.key.body), BodyText(es.value.body))] + MemberTexts(es.rest)
  }

  /** For `k` string members: 64 tokens suffice exactly up to 31, and then every member is printed. */
  lemma {:induction false} StatsOfStrings(es: Elems, first: bool, o: nat)
    requires AllStrings(es)
    ensures ElemsSize(es) == 2 * Count(es) && (1 + ElemsSize(es) <= 64 <==> Count(es) <= 31)
    ensures Pairs(es) == MemberTexts(es) && BadNear(es, first, o) == -1 && |Pairs(es)| == Count(es)
    decreases es
  {
    if es.Elem? {
      StatsOfStrings(es.rest, false, NextAt(es, first, o));
    }
  }

  /** So an object of string members is printed whole if there are at most 31 of them, and else not at all. */
  lemma StatsOfStringObject(lead: string, pad: string, es: Elems, trail: string)
    requires Blanks(lead) && Blanks(trail) && JsonOk(false, Box(Object, pad, es)) && AllStrings(es)
    ensures StatsOf(Document(lead, Box(Object, pad, es), trail)) ==
            if Count(es) <= 31 then Lines(MemberTexts(es), -1) else BadJson(Err(NoMem))
  {
    StatsOfStrings(es, true, |lead| + 1 + |pad|);
    StatsOfDocument(lead, Box(Object, pad, es), trail);
  }
}
