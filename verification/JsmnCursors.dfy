/**
 When the two compiled algorithms agree on the sizes as well.  Their cursors
 (`toksuper`) can differ after a closing bracket or a comma: the backward scan
 goes to the innermost open container, the parent link to whatever the token was
 stored under.  That shows exactly if a token is stored before the cursors meet
 again, and then the sizes never become equal.
 */
module JsmnCursors {
  import opened JsmnLexer
  import opened JsmnMachine
  import opened JsmnResume
  import opened JsmnLinks
  import opened JsonGrammar
  import opened JsmnCorrect

  /** The same token but for its parent field. */
  predicate SameTok(a: Tok, b: Tok) {
    SameSpan(a, b) && a.size == b.size
  }

  predicate SameToks(a: seq<Tok>, b: seq<Tok>) {
    |a| == |b| && forall i :: 0 <= i < |a| ==> SameTok(a[i], b[i])
  }

  predicate SameEnd(f: Final, g: Final) {
    f.parser.pos == g.parser.pos && SameToks(f.parser.toks, g.parser.toks) && f.result == g.result
  }

  // ----- Both cursors, read off the text -----

  /** A token on the parent chain of the newest one: an open container, a closed one, or a string or primitive. */
  datatype Mark = Bracket(kind: Kind) | Shut | Leaf

  /**
   The chain of the newest token, outermost first; a cursor is the number of
   tokens up to and with the one it names, 0 for none.
   */
  datatype Track = Track(pos: nat, marks: seq<Mark>, scan: nat, link: nat, made: nat)

  datatype Move = On(next: Track) | Halts | Parts

  const START := Track(0, [], 0, 0, 0)

  /** The last open container among the first `n`, -1 if there is none. */
  function Top(marks: seq<Mark>, n: nat): (i: int)
    requires n <= |marks|
    ensures -1 <= i < n
    ensures i >= 0 ==> marks[i].Bracket?
    ensures forall j :: i < j < n ==> !marks[j].Bracket?
  {
    if n == 0 then -1 else if marks[n - 1].Bracket? then n - 1 else Top(marks, n - 1)
  }

  /** Each cursor is on the chain, not below the innermost open container. */
  predicate Fits(h: Track) {
    Top(h.marks, |h.marks|) < h.scan <= |h.marks| && Top(h.marks, |h.marks|) < h.link <= |h.marks|
  }

  /** A token is stored under the common cursor; under two cursors the algorithms part. */
  function Stored(h: Track, cap: nat, mark: Mark, pos: nat): (r: Move)
    requires Fits(h)
    ensures r.On? ==> Fits(r.next) && r.next.pos == pos
  {
    if cap <= h.made then Halts
    else if h.scan != h.link then Parts
    else
      var c := if mark.Bracket? then h.scan + 1 else h.scan;
      On(Track(pos, h.marks[..h.scan] + [mark], c, c, h.made + 1))
  }

  /** A closing bracket; one that nothing opened, after a token, parts them too. */
  function Closed(h: Track, k: Kind): (r: Move)
    requires Fits(h)
    ensures r.On? ==> Fits(r.next) && r.next.pos == h.pos + 1
  {
    var i := Top(h.marks, |h.marks|);
    if h.marks == [] then Halts
    else if i < 0 then Parts
    else if h.marks[i] != Bracket(k) then Halts
    else On(h.(pos := h.pos + 1, marks := h.marks[i := Shut], scan := Top(h.marks, i) + 1, link := i))
  }

  predicate OnLeaf(h: Track, c: nat)
    requires c <= |h.marks|
  {
    c > 0 && h.marks[c - 1].Leaf?
  }

  /** From a string or primitive, the scan goes to the innermost open container if there is one, the link one back. */
  function AtComma(h: Track): (n: Track)
    requires Fits(h)
    ensures Fits(n) && n.pos == h.pos + 1
  {
    var i := Top(h.marks, |h.marks|);
    h.(pos := h.pos + 1, scan := if OnLeaf(h, h.scan) && i >= 0 then i + 1 else h.scan,
       link := if OnLeaf(h, h.link) then h.link - 1 else h.link)
  }

  function TrackStep(js: string, cap: nat, h: Track): (r: Move)
    requires !AtEnd(js, h.pos) && Fits(h)
    ensures r.On? ==> Fits(r.next) && h.pos < r.next.pos <= |js|
  {
    match Classify(false, js[h.pos])
    case Open(k) => Stored(h, cap, Bracket(k), h.pos + 1)
    case Close(k) => Closed(h, k)
    case Quote =>
      var s := ScanString(js, h.pos + 1);
      if s.Found? then Stored(h, cap, Leaf, s.end + 1) else Halts
    case Bare =>
      var s := ScanBare(false, js, h.pos);
      if s.Found? then Stored(h, cap, Leaf, s.end) else Halts
    case Colon => On(h.(pos := h.pos + 1, scan := |h.marks|, link := |h.marks|))
    case Comma => On(AtComma(h))
    case Blank => On(h.(pos := h.pos + 1))
    case Illegal => Halts
  }

  /**
   Before the array of `cap` tokens is used up or the text is refused, it has a
   token while the cursors differ, or a closing bracket that nothing opened.
   */
  predicate Parting(js: string, cap: nat, h: Track)
    requires Fits(h)
    decreases |js| - h.pos
  {
    !AtEnd(js, h.pos) &&
    match TrackStep(js, cap, h)
    case On(n) => Parting(js, cap, n)
    case Halts => false
    case Parts => true
  }

  // ----- The chain and the two parsers -----

  function MarkOf(t: Tok): Mark {
    if !t.typ.Container? then Leaf else if IsOpen(t) then Bracket(t.typ.kind) else Shut
  }

  /** The token a cursor names. */
  function At(path: seq<nat>, c: nat): int
    requires c <= |path|
  {
    if c == 0 then -1 else path[c - 1]
  }

  /** Number `i` of the chain: its parent and its mark. */
  ghost predicate LinkAt(toks: seq<Tok>, path: seq<nat>, marks: seq<Mark>, i: nat)
    requires i < |path| == |marks|
  {
    path[i] < |toks| && toks[path[i]].parent == At(path, i) && MarkOf(toks[path[i]]) == marks[i]
  }

  ghost predicate Rising(path: seq<nat>) {
    forall i, j :: 0 <= i < j < |path| ==> path[i] < path[j]
  }

  ghost predicate Listed(toks: seq<Tok>, path: seq<nat>, k: nat)
    requires k < |toks|
  {
    IsOpen(toks[k]) ==> k in path
  }

  /** `path` is the parent chain of the newest token, and every open token is on it. */
  ghost predicate Chain(toks: seq<Tok>, path: seq<nat>, marks: seq<Mark>) {
    && |path| == |marks| && Rising(path) && At(path, |path|) == |toks| - 1
    && (forall i :: 0 <= i < |path| ==> LinkAt(toks, path, marks, i))
    && (forall k :: 0 <= k < |toks| ==> Listed(toks, path, k))
  }

  /** The scan's parser `p`, the links' parser `q`, and the track. */
  ghost predicate Tracks(p: Parser, q: Parser, path: seq<nat>, h: Track) {
    && Fits(h) && p.pos == q.pos == h.pos && SameToks(p.toks, q.toks) && |p.toks| == h.made
    && Chain(q.toks, path, h.marks)
    && p.sup == At(path, h.scan) && q.sup == At(path, h.link)
  }

  ghost predicate Builds(scan: Mode, link: Mode) {
    scan.pool.Cap? && !scan.strict && !scan.links && link == scan.(links := true)
  }

  lemma OnPath(toks: seq<Tok>, path: seq<nat>, marks: seq<Mark>, o: nat) returns (l: nat)
    requires Chain(toks, path, marks) && OpenAreContainers(toks) && o < |toks| && IsOpen(toks[o])
    ensures l < |path| && path[l] == o && marks[l].Bracket?
  {
    assert Listed(toks, path, o);
    l :| 0 <= l < |path| && path[l] == o;
    assert LinkAt(toks, path, marks, l);
  }

  lemma MarkAt(toks: seq<Tok>, path: seq<nat>, marks: seq<Mark>, i: nat)
    requires Chain(toks, path, marks) && i < |path|
    ensures path[i] < |toks| && toks[path[i]].parent == At(path, i) && MarkOf(toks[path[i]]) == marks[i]
  {
    assert LinkAt(toks, path, marks, i);
  }

  /** The backward scan, from the end or from a token of the chain, finds the last open mark before it. */
  lemma TopIsOpen(toks: seq<Tok>, path: seq<nat>, marks: seq<Mark>, k: nat, n: nat)
    requires Chain(toks, path, marks) && OpenAreContainers(toks) && k <= |path| && n == (if k == |path| then |toks| else path[k]) <= |toks|
    ensures OpenBelow(toks, n) == At(path, Top(marks, k) + 1)
  {
    var i, o := Top(marks, k), OpenBelow(toks, n);
    if o >= 0 {
      var l := OnPath(toks, path, marks, o);
      assert l <= i;
    }
    if i >= 0 {
      MarkAt(toks, path, marks, i);
    }
  }

  // ----- One step -----

  lemma BumpSame(a: seq<Tok>, b: seq<Tok>, sup: int, t: Tok, u: Tok)
    requires SameToks(a, b) && SameTok(t, u)
    ensures SameToks(Bump(a, sup) + [t], Bump(b, sup) + [u])
  {
  }

  /** All open tokens are among the first `c` of the chain. */
  ghost predicate OpenBefore(toks: seq<Tok>, path: seq<nat>, c: nat)
    requires c <= |path|
  {
    forall k :: 0 <= k < |toks| ==> Listed(toks, path[..c], k)
  }

  lemma TopBefore(toks: seq<Tok>, path: seq<nat>, marks: seq<Mark>, c: nat)
    requires Chain(toks, path, marks) && OpenAreContainers(toks) && Top(marks, |marks|) < c <= |path|
    ensures OpenBefore(toks, path, c)
  {
    forall k | 0 <= k < |toks|
      ensures Listed(toks, path[..c], k)
    {
      if IsOpen(toks[k]) {
        var l := OnPath(toks, path, marks, k);
        assert path[..c][l] == k;
      }
    }
  }

  lemma ChainStored(toks: seq<Tok>, path: seq<nat>, marks: seq<Mark>, c: nat, later: seq<Tok>, longer: seq<nat>, marks2: seq<Mark>)
    requires Chain(toks, path, marks) && c <= |path| && OpenBefore(toks, path, c)
    requires |later| == |toks| + 1 && Keeps(toks, later) && later[|toks|].parent == At(path, c)
    requires longer == path[..c] + [|toks|] && marks2 == marks[..c] + [MarkOf(later[|toks|])]
    ensures Chain(later, longer, marks2)
  {
    forall i | 0 <= i < |longer|
      ensures LinkAt(later, longer, marks2, i)
    {
      if i < c {
        MarkAt(toks, path, marks, i);
      }
    }
    RisingStored(toks, path, marks, c, longer);
    forall k | 0 <= k < |later|
      ensures Listed(later, longer, k)
    {
      if k < |toks| {
        assert Listed(toks, path[..c], k);
      } else {
        assert longer[c] == k;
      }
    }
  }

  lemma RisingStored(toks: seq<Tok>, path: seq<nat>, marks: seq<Mark>, c: nat, longer: seq<nat>)
    requires Chain(toks, path, marks) && c <= |path| && longer == path[..c] + [|toks|]
    ensures Rising(longer)
  {
    forall i, j | 0 <= i < j < |longer|
      ensures longer[i] < longer[j]
    {
      MarkAt(toks, path, marks, i);
    }
  }

  /** A token stored by both. */
  lemma AddTracks(scan: Mode, link: Mode, p: Parser, q: Parser, path: seq<nat>, h: Track, h2: Track, typ: TokType, start: nat, end: int, pos: nat, mark: Mark)
    returns (longer: seq<nat>)
    requires Builds(scan, link) && Sane(link, q) && Tracks(p, q, path, h) && Stored(h, scan.pool.n, mark, pos) == On(h2)
    requires mark == (if !typ.Container? then Leaf else Bracket(typ.kind)) && (end == -1 <==> typ.Container?)
    ensures var s, t := Add(scan, p, typ, start, end, pos, mark.Bracket?), Add(link, q, typ, start, end, pos, mark.Bracket?);
            s.Go? && t.Go? && s.made == t.made && Tracks(s.next, t.next, longer, h2)
  {
    var s, t := Add(scan, p, typ, start, end, pos, mark.Bracket?), Add(link, q, typ, start, end, pos, mark.Bracket?);
    longer := path[..h.scan] + [|q.toks|];
    var c, later := h.scan, t.next.toks;
    TopBefore(q.toks, path, h.marks, c);
    assert p.sup == q.sup;
    BumpSame(p.toks, q.toks, p.sup, NewTok(scan, typ, start, end, p.sup), NewTok(link, typ, start, end, q.sup));
    ChainStored(q.toks, path, h.marks, c, later, longer, h2.marks);
  }

  lemma ChainClosed(toks: seq<Tok>, path: seq<nat>, marks: seq<Mark>, i: nat, end: nat, later: seq<Tok>, marks2: seq<Mark>)
    requires Chain(toks, path, marks) && i < |path| && path[i] < |toks| && marks[i].Bracket?
    requires later == CloseAt(toks, path[i], end) && marks2 == marks[i := Shut]
    ensures Chain(later, path, marks2)
  {
    forall l | 0 <= l < |path|
      ensures LinkAt(later, path, marks2, l)
    {
      MarkAt(toks, path, marks, l);
    }
    forall k | 0 <= k < |later|
      ensures Listed(later, path, k)
    {
      assert Listed(toks, path, k);
    }
  }

  lemma CloseSame(a: seq<Tok>, b: seq<Tok>, i: nat, end: nat)
    requires SameToks(a, b) && i < |a|
    ensures SameToks(CloseAt(a, i, end), CloseAt(b, i, end))
  {
  }

  /** Both find the innermost open token, which is the last open one of the chain. */
  lemma BothFind(scan: Mode, link: Mode, p: Parser, q: Parser, path: seq<nat>, h: Track)
    requires Builds(scan, link) && Sane(scan, p) && Sane(link, q) && Tracks(p, q, path, h)
    ensures LastOpen(p.toks) == LastOpen(q.toks) == At(path, Top(h.marks, |h.marks|) + 1)
    ensures q.toks != [] ==> ChainOpen(q.toks, |q.toks| - 1) == LastOpen(q.toks)
  {
    TopIsOpen(q.toks, path, h.marks, |path|, |q.toks|);
    OpenBelowSame(q.toks, p.toks, |p.toks|);
    if q.toks != [] {
      ChainMeetsLastOpen(q.toks, |q.toks| - 1);
    }
  }

  /** What the two do at a closing bracket of the right kind. */
  lemma BothClose(scan: Mode, link: Mode, p: Parser, q: Parser, path: seq<nat>, h: Track, i: nat, k: Kind)
    requires Builds(scan, link) && Sane(scan, p) && Sane(link, q) && Tracks(p, q, path, h)
    requires i == Top(h.marks, |h.marks|) && h.marks[i] == Bracket(k)
    ensures path[i] < |p.toks| == |q.toks|
    ensures CloseScan(p, k) == Go(Parser(p.pos + 1, CloseAt(p.toks, path[i], p.pos + 1), At(path, Top(h.marks, i) + 1)), 0)
    ensures CloseLinks(q, k) == Go(Parser(q.pos + 1, CloseAt(q.toks, path[i], q.pos + 1), At(path, i)), 0)
  {
    MarkAt(q.toks, path, h.marks, i);
    BothFind(scan, link, p, q, path, h);
    TopIsOpen(q.toks, path, h.marks, i, path[i]);
    OpenBelowSame(q.toks, p.toks, path[i]);
    assert SameTok(p.toks[path[i]], q.toks[path[i]]);
  }

  lemma CloseTracks(scan: Mode, link: Mode, p: Parser, q: Parser, path: seq<nat>, h: Track, h2: Track, k: Kind)
    requires Builds(scan, link) && Sane(scan, p) && Sane(link, q) && Tracks(p, q, path, h) && Closed(h, k) == On(h2)
    ensures var s, t := CloseScan(p, k), CloseLinks(q, k); s.Go? && t.Go? && s.made == t.made && Tracks(s.next, t.next, path, h2)
  {
    var i := Top(h.marks, |h.marks|);
    BothClose(scan, link, p, q, path, h, i, k);
    ChainClosed(q.toks, path, h.marks, i, q.pos + 1, CloseAt(q.toks, path[i], q.pos + 1), h2.marks);
    CloseSame(p.toks, q.toks, path[i], p.pos + 1);
  }

  lemma CommaTracks(scan: Mode, link: Mode, p: Parser, q: Parser, path: seq<nat>, h: Track)
    requires Builds(scan, link) && Sane(scan, p) && Sane(link, q) && Tracks(p, q, path, h)
    ensures CommaSup(scan, p) == At(path, AtComma(h).scan) && CommaSup(link, q) == At(path, AtComma(h).link)
  {
    BothFind(scan, link, p, q, path, h);
    ScansAlike(scan, p);
    CursorAt(q.toks, path, h, h.scan);
    CursorAt(q.toks, path, h, h.link);
    ScanComma(scan, p, q, path, h);
  }

  lemma ScanComma(scan: Mode, p: Parser, q: Parser, path: seq<nat>, h: Track)
    requires scan.pool.Cap? && !scan.links && Fits(h) && |path| == |h.marks| && SameToks(p.toks, q.toks) && p.sup == At(path, h.scan)
    requires h.scan > 0 ==> 0 <= p.sup < |q.toks| && MarkOf(q.toks[p.sup]) == h.marks[h.scan - 1]
    requires OpenContainerBelow(p.toks, |p.toks|) == At(path, Top(h.marks, |h.marks|) + 1)
    ensures CommaSup(scan, p) == At(path, AtComma(h).scan)
  {
    if h.scan > 0 {
      assert SameTok(p.toks[p.sup], q.toks[p.sup]);
    }
  }

  /** Only containers are open, so the comma's scan finds the innermost open token. */
  lemma ScansAlike(m: Mode, p: Parser)
    requires Sane(m, p)
    ensures OpenContainerBelow(p.toks, |p.toks|) == LastOpen(p.toks)
  {
  }

  lemma CursorAt(toks: seq<Tok>, path: seq<nat>, h: Track, c: nat)
    requires Chain(toks, path, h.marks) && c <= |path|
    ensures if c == 0 then At(path, c) == -1
            else 0 <= At(path, c) < |toks| && toks[At(path, c)].parent == At(path, c - 1) && MarkOf(toks[At(path, c)]) == h.marks[c - 1]
  {
    if c > 0 {
      MarkAt(toks, path, h.marks, c - 1);
    }
  }

  lemma StoreTracks(scan: Mode, link: Mode, js: string, p: Parser, q: Parser, path: seq<nat>, h: Track, h2: Track) returns (longer: seq<nat>)
    requires Builds(scan, link) && Sane(link, q) && Tracks(p, q, path, h) && !AtEnd(js, h.pos) && TrackStep(js, scan.pool.n, h) == On(h2)
    requires var l := Classify(false, js[h.pos]); l.Open? || l.Quote? || l.Bare?
    ensures var s, t := DoStep(scan, js, p), DoStep(link, js, q);
            s.Go? && t.Go? && s.made == t.made && Tracks(s.next, t.next, longer, h2)
  {
    match Classify(false, js[h.pos])
    case Open(k) => longer := AddTracks(scan, link, p, q, path, h, h2, Container(k), p.pos, -1, p.pos + 1, Bracket(k));
    case Quote =>
      var e := ScanString(js, p.pos + 1).end;
      longer := AddTracks(scan, link, p, q, path, h, h2, String, p.pos + 1, e, e + 1, Leaf);
    case Bare =>
      var e := ScanBare(false, js, p.pos).end;
      longer := AddTracks(scan, link, p, q, path, h, h2, Primitive, p.pos, e, e, Leaf);
  }

  lemma StepTracks(scan: Mode, link: Mode, js: string, p: Parser, q: Parser, path: seq<nat>, h: Track, h2: Track) returns (longer: seq<nat>)
    requires Builds(scan, link) && Sane(scan, p) && Sane(link, q) && Tracks(p, q, path, h)
    requires !AtEnd(js, h.pos) && TrackStep(js, scan.pool.n, h) == On(h2)
    ensures var s, t := DoStep(scan, js, p), DoStep(link, js, q);
            s.Go? && t.Go? && s.made == t.made && Tracks(s.next, t.next, longer, h2)
  {
    longer := path;
    match Classify(false, js[h.pos])
    case Close(k) => CloseTracks(scan, link, p, q, path, h, h2, k);
    case Comma => CommaTracks(scan, link, p, q, path, h);
    case Colon =>
    case Blank =>
    case _ => longer := StoreTracks(scan, link, js, p, q, path, h, h2);
  }

  /** Where the track halts, both stop with the same error. */
  lemma HaltsBoth(scan: Mode, link: Mode, js: string, p: Parser, q: Parser, path: seq<nat>, h: Track)
    requires Builds(scan, link) && Sane(scan, p) && Sane(link, q) && Tracks(p, q, path, h)
    requires !AtEnd(js, h.pos) && TrackStep(js, scan.pool.n, h) == Halts
    ensures DoStep(scan, js, p).Stop? && DoStep(link, js, q) == DoStep(scan, js, p)
  {
    if Classify(false, js[h.pos]).Close? {
      BothFind(scan, link, p, q, path, h);
      if h.marks != [] {
        MarkAt(q.toks, path, h.marks, Top(h.marks, |h.marks|));
      }
    }
  }

  /** The text has a token here, and the cursors differ. */
  predicate Drifts(scan: Mode, link: Mode, js: string, p: Parser, q: Parser)
    requires !AtEnd(js, p.pos) && p.pos == q.pos
  {
    p.sup != q.sup && Adds(scan, js, p) && Adds(link, js, q)
  }

  /** A step that stores a token. */
  predicate Adds(m: Mode, js: string, p: Parser)
    requires !AtEnd(js, p.pos)
  {
    var s := DoStep(m, js, p);
    s.Go? && s.made == 1 && |s.next.toks| == |p.toks| + 1
  }

  lemma PartsWhere(scan: Mode, link: Mode, js: string, p: Parser, q: Parser, path: seq<nat>, h: Track)
    requires Builds(scan, link) && Sane(scan, p) && Sane(link, q) && Tracks(p, q, path, h)
    requires !AtEnd(js, h.pos) && TrackStep(js, scan.pool.n, h) == Parts
    ensures Unmatched(js, p) || Drifts(scan, link, js, p, q)
  {
    BothFind(scan, link, p, q, path, h);
  }

  // ----- Once they drift, the sizes stay different -----

  /** The scan will not come back to the closed token `b`. */
  predicate Spent(p: Parser, b: nat) {
    b < |p.toks| - 1 && !IsOpen(p.toks[b]) && p.sup != b
  }

  lemma SpentStep(scan: Mode, js: string, p: Parser, b: nat)
    requires scan.pool.Cap? && !scan.links && Spent(p, b) && !AtEnd(js, p.pos) && DoStep(scan, js, p).Go?
    ensures var n := DoStep(scan, js, p).next; Spent(n, b) && n.toks[b].size == p.toks[b].size
  {
  }

  lemma {:induction false} SpentRun(scan: Mode, js: string, p: Parser, b: nat)
    requires scan.pool.Cap? && !scan.links && Spent(p, b)
    ensures var f := Run(scan, js, p).parser; b < |f.toks| && f.toks[b].size == p.toks[b].size
    decreases |js| - p.pos
  {
    if !AtEnd(js, p.pos) && DoStep(scan, js, p).Go? {
      SpentStep(scan, js, p, b);
      SpentRun(scan, js, DoStep(scan, js, p).next, b);
    }
  }

  /** The chain walk will not come back to `a`: it is on no chain any more. */
  predicate OffChain(toks: seq<Tok>, sup: int, a: nat) {
    a < |toks| - 1 && sup < |toks| && (sup >= 0 ==> !Above(toks, sup, a)) && !Above(toks, |toks| - 1, a)
  }

  lemma {:induction false} ChainOpenAbove(toks: seq<Tok>, j: nat, a: nat)
    requires j < |toks| && !Above(toks, j, a)
    ensures var i := ChainOpen(toks, j); i >= 0 ==> i != a && (0 <= toks[i].parent < i ==> !Above(toks, toks[i].parent, a))
    decreases j
  {
    if !IsOpen(toks[j]) && 0 <= toks[j].parent < j {
      ChainOpenAbove(toks, toks[j].parent, a);
    }
  }

  lemma OffStored(toks: seq<Tok>, sup: int, a: nat, t: Tok)
    requires OffChain(toks, sup, a) && -1 <= sup && t.parent == sup
    ensures var later := Bump(toks, sup) + [t]; OffChain(later, sup, a) && OffChain(later, |toks|, a) && later[a].size == toks[a].size
  {
    var later := Bump(toks, sup) + [t];
    if sup >= 0 {
      AboveSame(toks, later, sup, a);
    }
  }

  lemma OffClosed(toks: seq<Tok>, sup: int, a: nat, i: nat, end: nat)
    requires OffChain(toks, sup, a) && Parented(toks) && i < |toks| && i == ChainOpen(toks, |toks| - 1)
    ensures var later := CloseAt(toks, i, end); OffChain(later, toks[i].parent, a) && later[a].size == toks[a].size
  {
    var later := CloseAt(toks, i, end);
    ChainOpenAbove(toks, |toks| - 1, a);
    AboveSame(toks, later, |toks| - 1, a);
    if toks[i].parent >= 0 {
      AboveSame(toks, later, toks[i].parent, a);
    }
  }

  /** What a step that stores a token does. */
  lemma AddsOne(m: Mode, js: string, p: Parser) returns (t: Tok)
    requires m.pool.Cap? && !AtEnd(js, p.pos) && Adds(m, js, p)
    ensures var n := DoStep(m, js, p).next;
            && n.toks == Bump(p.toks, p.sup) + [t] && (m.links ==> t.parent == p.sup) && (n.sup == p.sup || n.sup == |p.toks|)
  {
    t := DoStep(m, js, p).next.toks[|p.toks|];
  }

  lemma OffStep(link: Mode, js: string, q: Parser, a: nat)
    requires link.pool.Cap? && link.links && Sane(link, q) && OffChain(q.toks, q.sup, a) && !AtEnd(js, q.pos) && DoStep(link, js, q).Go?
    ensures var n := DoStep(link, js, q).next; OffChain(n.toks, n.sup, a) && n.toks[a].size == q.toks[a].size
  {
    if Adds(link, js, q) {
      var t := AddsOne(link, js, q);
      OffStored(q.toks, q.sup, a, t);
    } else if Classify(link.strict, js[q.pos]).Close? {
      var i := ChainOpen(q.toks, |q.toks| - 1);
      if i >= 0 {
        OffClosed(q.toks, q.sup, a, i, q.pos + 1);
      }
    }
  }

  lemma {:induction false} OffRun(link: Mode, js: string, q: Parser, a: nat)
    requires link.pool.Cap? && link.links && Sane(link, q) && OffChain(q.toks, q.sup, a)
    ensures var g := Run(link, js, q).parser; a < |g.toks| && g.toks[a].size == q.toks[a].size
    decreases |js| - q.pos
  {
    if !AtEnd(js, q.pos) && DoStep(link, js, q).Go? {
      OffStep(link, js, q, a);
      StepSane(link, js, q);
      OffRun(link, js, DoStep(link, js, q).next, a);
    }
  }

  lemma SizeStep(m: Mode, js: string, p: Parser, i: nat)
    requires i < |p.toks| && !AtEnd(js, p.pos) && DoStep(m, js, p).Go?
    ensures p.toks[i].size <= DoStep(m, js, p).next.toks[i].size
  {
  }

  lemma {:induction false} SizeRun(m: Mode, js: string, p: Parser, i: nat)
    requires i < |p.toks|
    ensures var f := Run(m, js, p).parser; i < |f.toks| && p.toks[i].size <= f.toks[i].size
    decreases |js| - p.pos
  {
    if !AtEnd(js, p.pos) && DoStep(m, js, p).Go? {
      SizeStep(m, js, p, i);
      SizeRun(m, js, DoStep(m, js, p).next, i);
    }
  }

  /** The step that stores a token under `p.sup` raises its size for good. */
  lemma Raises(m: Mode, js: string, p: Parser)
    requires m.pool.Cap? && 0 <= p.sup < |p.toks| && !AtEnd(js, p.pos) && Adds(m, js, p)
    ensures var f := Run(m, js, p).parser; p.sup < |f.toks| && p.toks[p.sup].size < f.toks[p.sup].size
  {
    var t := AddsOne(m, js, p);
    var n := DoStep(m, js, p).next;
    RunStep(m, js, p, n, 1);
    SizeRun(m, js, n, p.sup);
  }

  /** The scan stores under another token and never counts for the closed token `b` again. */
  lemma ScanLeaves(scan: Mode, js: string, p: Parser, b: nat)
    requires scan.pool.Cap? && !scan.links && !AtEnd(js, p.pos) && Adds(scan, js, p)
    requires b < |p.toks| && !IsOpen(p.toks[b]) && p.sup != b
    ensures var f := Run(scan, js, p).parser; b < |f.toks| && f.toks[b].size == p.toks[b].size
  {
    var t := AddsOne(scan, js, p);
    var n := DoStep(scan, js, p).next;
    RunStep(scan, js, p, n, 1);
    SpentRun(scan, js, n, b);
  }

  /** The chain walk stores under an earlier token and never counts for `a` again. */
  lemma LinkLeaves(link: Mode, js: string, q: Parser, a: nat)
    requires link.pool.Cap? && link.links && Sane(link, q) && !AtEnd(js, q.pos) && Adds(link, js, q)
    requires q.sup < a < |q.toks|
    ensures var g := Run(link, js, q).parser; a < |g.toks| && g.toks[a].size == q.toks[a].size
  {
    var t := AddsOne(link, js, q);
    var n := DoStep(link, js, q).next;
    OffNew(q.toks, q.sup, a, t, n.sup);
    StepSane(link, js, q);
    RunStep(link, js, q, n, 1);
    OffRun(link, js, n, a);
  }

  lemma OffNew(toks: seq<Tok>, sup: int, a: nat, t: Tok, next: int)
    requires Parented(toks) && -1 <= sup < a < |toks| && t.parent == sup && (next == sup || next == |toks|)
    ensures OffChain(Bump(toks, sup) + [t], next, a)
  {
    var later := Bump(toks, sup) + [t];
    if sup >= 0 && Above(later, sup, a) {
      AboveLe(later, sup, a);
    }
  }

  lemma DriftLasts(scan: Mode, link: Mode, js: string, p: Parser, q: Parser, path: seq<nat>, h: Track)
    requires Builds(scan, link) && Sane(scan, p) && Sane(link, q) && Tracks(p, q, path, h) && !AtEnd(js, p.pos) && Drifts(scan, link, js, p, q)
    ensures !SameToks(Run(scan, js, p).parser.toks, Run(link, js, q).parser.toks)
  {
    var a, b := p.sup, q.sup;
    if a < b {
      assert h.scan < h.link;
      MarkAt(q.toks, path, h.marks, h.link - 1);
      assert SameTok(p.toks[b], q.toks[b]);
      ScanLeaves(scan, js, p, b);
      Raises(link, js, q);
    } else {
      assert SameTok(p.toks[a], q.toks[a]);
      LinkLeaves(link, js, q, a);
      Raises(scan, js, p);
    }
  }

  // ----- The main result -----

  lemma {:induction false} TracksAgree(scan: Mode, link: Mode, js: string, p: Parser, q: Parser, path: seq<nat>, h: Track)
    requires Builds(scan, link) && Sane(scan, p) && Sane(link, q) && Tracks(p, q, path, h)
    ensures SameEnd(Run(scan, js, p), Run(link, js, q)) <==> !Parting(js, scan.pool.n, h)
    decreases |js| - p.pos
  {
    if AtEnd(js, p.pos) {
      BothFind(scan, link, p, q, path, h);
    } else {
      match TrackStep(js, scan.pool.n, h)
      case On(h2) =>
        var longer := StepTracks(scan, link, js, p, q, path, h, h2);
        var s, t := DoStep(scan, js, p), DoStep(link, js, q);
        StepSane(scan, js, p);
        StepSane(link, js, q);
        RunStep(scan, js, p, s.next, s.made);
        RunStep(link, js, q, t.next, t.made);
        TracksAgree(scan, link, js, s.next, t.next, longer, h2);
      case Halts => HaltsBoth(scan, link, js, p, q, path, h);
      case Parts =>
        PartsWhere(scan, link, js, p, q, path, h);
        if Unmatched(js, p) {
          UnmatchedDiffers(scan, link, js, p, q);
        } else {
          DriftLasts(scan, link, js, p, q, path, h);
        }
    }
  }

  /**
   For every text and every size of the array: the two algorithms of the default
   build give the same tokens, sizes included, and the same result if and only if
   the text does not part them.
   */
  lemma SizesAgreeOnText(scan: Mode, link: Mode, js: string)
    requires Builds(scan, link)
    ensures SameEnd(Run(scan, js, Fresh), Run(link, js, Fresh)) <==> !Parting(js, scan.pool.n, START)
  {
    TracksAgree(scan, link, js, Fresh, Fresh, [], START);
  }

  /** With a larger array a text parts them no later. */
  lemma {:induction false} PartingGrows(js: string, cap: nat, cap2: nat, h: Track)
    requires Fits(h) && cap <= cap2 && Parting(js, cap, h)
    ensures Parting(js, cap2, h)
    decreases |js| - h.pos
  {
    if TrackStep(js, cap, h).On? {
      PartingGrows(js, cap, cap2, TrackStep(js, cap, h).next);
    }
  }

  /** No document parts them, so they agree on it also if the array is too small. */
  lemma DocumentsDoNotPart(scan: Mode, link: Mode, lead: string, d: Json, trail: string)
    requires Builds(scan, link) && Blanks(lead) && Blanks(trail) && JsonOk(false, d)
    ensures !Parting(Document(lead, d, trail), scan.pool.n, START)
    ensures SameEnd(Run(scan, Document(lead, d, trail), Fresh), Run(link, Document(lead, d, trail), Fresh))
  {
    var js, n := Document(lead, d, trail), scan.pool.n + Size(d);
    LinksAgreeOnDocuments(scan.(pool := Cap(n)), link.(pool := Cap(n)), lead, d, trail);
    SizesAgreeOnText(scan.(pool := Cap(n)), link.(pool := Cap(n)), js);
    if Parting(js, scan.pool.n, START) {
      PartingGrows(js, scan.pool.n, n, START);
    }
    SizesAgreeOnText(scan, link, js);
  }

  // ----- A text that both accept, with different sizes -----

  const DRIFT := "{\"a\":[]\"b\"}"

  /** The tokens of that text; `parents` is what is kept with links. */
  function DriftTokens(links: bool, end: int, root: nat, key: nat): seq<Tok> {
    [Tok(Container(Object), 0, end, root, -1), Tok(String, 2, 3, key, if links then 0 else -1),
     Tok(Container(Array), 5, 7, 0, if links then 1 else -1)]
  }

  function DriftLast(links: bool): Tok {
    Tok(String, 8, 9, 0, if links then 1 else -1)
  }

  /** The opening bracket. */
  lemma DriftOpen(js: string, m: Mode, p: Parser)
    requires js == DRIFT && !m.strict && m.pool == Cap(4) && p == Parser(1, [Tok(Container(Object), 0, -1, 0, -1)], 0)
    ensures Run(m, js, Fresh) == AddCount(Run(m, js, p), 1)
  {
    RunStep(m, js, Fresh, p, 1);
  }

  /** The key and the colon. */
  lemma DriftKey(js: string, m: Mode, p: Parser, q: Parser)
    requires js == DRIFT && !m.strict && m.pool == Cap(4) && p == Parser(1, [Tok(Container(Object), 0, -1, 0, -1)], 0)
    requires q == Parser(5, DriftTokens(m.links, -1, 1, 0)[..2], 1)
    ensures Run(m, js, p) == AddCount(Run(m, js, q), 1)
  {
    var p1 := Parser(4, q.toks, 0);
    assert ScanString(js, 2) == Found(3);
    assert Bump(p.toks, 0) + [q.toks[1]] == q.toks;
    assert DoStep(m, js, p) == Go(p1, 1);
    RunStep(m, js, p, p1, 1);
    RunStep(m, js, p1, q, 0);
  }

  /** The array; behind it the cursors differ. */
  lemma DriftArray(js: string, m: Mode, p: Parser, q: Parser)
    requires js == DRIFT && !m.strict && m.pool == Cap(4) && p == Parser(5, DriftTokens(m.links, -1, 1, 0)[..2], 1)
    requires q == Parser(7, DriftTokens(m.links, -1, 1, 1), if m.links then 1 else 0)
    ensures Run(m, js, p) == AddCount(Run(m, js, q), 1)
  {
    var p1 := Parser(6, q.toks[2 := q.toks[2].(end := -1)], 2);
    assert Bump(p.toks, 1) + [p1.toks[2]] == p1.toks;
    assert DoStep(m, js, p) == Go(p1, 1);
    assert IsOpen(p1.toks[2]) && LastOpen(p1.toks) == ChainOpen(p1.toks, 2) == 2 && OpenBelow(p1.toks, 2) == 0;
    assert CloseAt(p1.toks, 2, 7) == q.toks;
    assert DoStep(m, js, p1) == Go(q, 0);
    RunStep(m, js, p, p1, 1);
    RunStep(m, js, p1, q, 0);
  }

  /** The last string, counted for the object or for the key. */
  lemma DriftString(js: string, m: Mode, p: Parser, root: nat, key: nat)
    requires js == DRIFT && !m.strict && m.pool == Cap(4)
    requires p == Parser(7, DriftTokens(m.links, -1, 1, 1), if m.links then 1 else 0)
    requires root == (if m.links then 1 else 2) && key == (if m.links then 2 else 1)
    ensures Run(m, js, p) == Final(Parser(11, DriftTokens(m.links, 11, root, key) + [DriftLast(m.links)], -1), Ok(1))
  {
    var p1 := Parser(10, DriftTokens(m.links, -1, root, key) + [DriftLast(m.links)], p.sup);
    var p2 := Parser(11, DriftTokens(m.links, 11, root, key) + [DriftLast(m.links)], -1);
    assert ScanString(js, 8) == Found(9);
    assert Bump(p.toks, p.sup) + [DriftLast(m.links)] == p1.toks;
    assert DoStep(m, js, p) == Go(p1, 1);
    RunStep(m, js, p, p1, 1);
    DriftEnd(js, m, p1, p2);
  }

  lemma DriftEnd(js: string, m: Mode, p: Parser, q: Parser)
    requires js == DRIFT && !m.strict && m.pool == Cap(4) && p.pos == 10 && |p.toks| == 4 && q == Parser(11, CloseAt(p.toks, 0, 11), -1)
    requires p.toks[0].typ == Container(Object) && IsOpen(p.toks[0]) && p.toks[0].parent == -1
    requires !IsOpen(p.toks[1]) && !IsOpen(p.toks[2]) && !IsOpen(p.toks[3])
    requires m.links ==> p.toks[3].parent == 1 && p.toks[1].parent == 0
    ensures Run(m, js, p) == Final(q, Ok(0))
  {
    assert LastOpen(p.toks) == 0 && (m.links ==> ChainOpen(p.toks, 1) == ChainOpen(p.toks, 3) == 0);
    assert DoStep(m, js, p) == Go(q, 0);
    assert LastOpen(q.toks) == -1;
    RunStep(m, js, p, q, 0);
  }

  /** Four tokens in either build; the object and the key have sizes 2 and 1 with the scan, 1 and 2 with links. */
  lemma SizesExample()
    ensures Run(Mode(false, false, Cap(4)), DRIFT, Fresh) == Final(Parser(11, DriftTokens(false, 11, 2, 1) + [DriftLast(false)], -1), Ok(4))
    ensures Run(Mode(false, true, Cap(4)), DRIFT, Fresh) == Final(Parser(11, DriftTokens(true, 11, 1, 2) + [DriftLast(true)], -1), Ok(4))
  {
    DriftRun(DRIFT, Mode(false, false, Cap(4)), 2, 1);
    DriftRun(DRIFT, Mode(false, true, Cap(4)), 1, 2);
  }

  lemma DriftRun(js: string, m: Mode, root: nat, key: nat)
    requires js == DRIFT && !m.strict && m.pool == Cap(4) && root == (if m.links then 1 else 2) && key == (if m.links then 2 else 1)
    ensures Run(m, js, Fresh) == Final(Parser(11, DriftTokens(m.links, 11, root, key) + [DriftLast(m.links)], -1), Ok(4))
  {
    var p := Parser(5, DriftTokens(m.links, -1, 1, 0)[..2], 1);
    var q := Parser(7, DriftTokens(m.links, -1, 1, 1), if m.links then 1 else 0);
    var o := Parser(1, [Tok(Container(Object), 0, -1, 0, -1)], 0);
    DriftOpen(js, m, o);
    DriftKey(js, m, o, p);
    DriftArray(js, m, p, q);
    DriftString(js, m, q, root, key);
  }
}
