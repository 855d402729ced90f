/** The example client of raft_client.c: a letter counter that can be saved to a text file and restored from it. */
module LetterCount {
  import opened SeqFacts
  import opened FsmProtocol
  import opened FsmSafety
  import opened FsmRuns

  const MODULUS := 0x1_0000_0000

  type uint32 = x: nat | x < MODULUS

  predicate IsAlpha(c: char) {
    'a' <= c <= 'z' || 'A' <= c <= 'Z'
  }

  /** The letters before the first NUL. */
  function Letters(buf: string): nat {
    if buf == "" || buf[0] == '\0' then 0 else One(IsAlpha(buf[0])) + Letters(buf[1..])
  }

  function Counted(count: uint32, buf: string): uint32 {
    (count + Letters(buf)) % MODULUS
  }

  // ----- What is counted -----

  /** The positions before the first NUL that hold a letter of the alphabet. */
  ghost function LetterPlaces(buf: string): set<nat> {
    set i: nat | i < |buf| && '\0' !in buf[..i + 1] && ('A' <= buf[i] <= 'Z' || 'a' <= buf[i] <= 'z')
  }

  lemma RemoveCount(a: set<nat>, x: nat)
    ensures |a| == |a - {x}| + One(x in a)
  {
    if x in a {
      assert a == (a - {x}) + {x};
    } else {
      assert a == a - {x};
    }
  }

  /** `b` is `a` moved up by one. */
  ghost predicate Shifted(a: set<nat>, b: set<nat>) {
    forall i: nat :: i in b <==> i > 0 && i - 1 in a
  }

  lemma {:induction false} ShiftedCount(a: set<nat>, b: set<nat>, n: nat)
    requires Shifted(a, b) && forall i: nat :: i in a ==> i < n
    ensures |b| == |a|
    decreases n
  {
    if n > 0 {
      ShiftedCount(a - {n - 1}, b - {n}, n - 1);
      RemoveCount(a, n - 1);
      RemoveCount(b, n);
    } else {
      assert a == {} && b == {};
    }
  }

  /** A position is a letter's behind the first character exactly if it is one in the rest. */
  lemma PlaceShifts(buf: string, i: nat)
    requires buf != "" && buf[0] != '\0'
    ensures i > 0 ==> (i in LetterPlaces(buf) <==> i - 1 in LetterPlaces(buf[1..]))
  {
    if 0 < i < |buf| {
      assert buf[..i + 1] == [buf[0]] + buf[1..][..i];
    }
  }

  lemma NoPlaces(buf: string)
    requires buf == "" || buf[0] == '\0'
    ensures LetterPlaces(buf) == {}
  {
    forall i: nat
      ensures i !in LetterPlaces(buf)
    {
      if i < |buf| {
        assert buf[..i + 1][0] == '\0';
      }
    }
  }

  lemma FirstPlace(buf: string)
    requires buf != "" && buf[0] != '\0'
    ensures 0 in LetterPlaces(buf) <==> IsAlpha(buf[0])
    ensures Shifted(LetterPlaces(buf[1..]), LetterPlaces(buf) - {0})
  {
    assert buf[..1] == [buf[0]];
    forall i: nat
      ensures i in LetterPlaces(buf) - {0} <==> i > 0 && i - 1 in LetterPlaces(buf[1..])
    {
      PlaceShifts(buf, i);
    }
  }

  /** The count is the number of letters before the first NUL. */
  lemma {:induction false} LettersCounted(buf: string)
    ensures Letters(buf) == |LetterPlaces(buf)|
    decreases |buf|
  {
    if buf == "" || buf[0] == '\0' {
      NoPlaces(buf);
    } else {
      FirstPlace(buf);
      LettersCounted(buf[1..]);
      ShiftedCount(LetterPlaces(buf[1..]), LetterPlaces(buf) - {0}, |buf|);
      RemoveCount(LetterPlaces(buf), 0);
    }
  }

  /** Counting goes on in the next command where the last one ended, and stops at a NUL. */
  lemma {:induction false} LettersJoin(a: string, b: string)
    ensures Letters(a + b) == if '\0' in a then Letters(a) else Letters(a) + Letters(b)
    decreases |a|
  {
    if a == "" {
      assert a + b == b;
    } else if a[0] != '\0' {
      LettersJoin(a[1..], b);
      DropFirst(a, b);
      HeadTail(a);
    }
  }

  /** The other case of a letter, any other character as it is. */
  function Swapped(c: char): char {
    if 'a' <= c <= 'z' then c - 'a' + 'A' else if 'A' <= c <= 'Z' then c - 'A' + 'a' else c
  }

  lemma {:induction false} CaseIsNothing(a: string, b: string)
    requires |a| == |b| && forall i :: 0 <= i < |a| ==> b[i] == a[i] || b[i] == Swapped(a[i])
    ensures Letters(b) == Letters(a)
    decreases |a|
  {
    if a != "" && a[0] != '\0' {
      CaseIsNothing(a[1..], b[1..]);
    }
  }

  // ----- The number as text -----

  function Digit(n: nat): char
    requires n < 10
  {
    ('0' as int + n) as char
  }

  predicate IsDigit(c: char) {
    '0' <= c <= '9'
  }

  predicate AllDigits(d: string) {
    forall i :: 0 <= i < |d| ==> IsDigit(d[i])
  }

  /** The conversion %u of fprintf. */
  function Decimal(n: nat): string {
    if n < 10 then [Digit(n)] else Decimal(n / 10) + [Digit(n % 10)]
  }

  function Value(d: string): nat
    requires AllDigits(d)
  {
    if d == "" then 0 else 10 * Value(d[..|d| - 1]) + (d[|d| - 1] as int - '0' as int)
  }

  function DigitRun(t: string): (d: string)
    ensures AllDigits(d)
  {
    if t == "" || !IsDigit(t[0]) then "" else [t[0]] + DigitRun(t[1..])
  }

  predicate IsSpace(c: char) {
    c == ' ' || '\t' <= c <= '\r'
  }

  function SkipSpace(t: string): string {
    if t != "" && IsSpace(t[0]) then SkipSpace(t[1..]) else t
  }

  /** The conversion %u of fscanf: white space, an optional sign, digits; None if there are no digits. */
  function ScanUnsigned(t: string): Option<uint32> {
    var u := SkipSpace(t);
    var sign := u != "" && (u[0] == '-' || u[0] == '+');
    var d := DigitRun(if sign then u[1..] else u);
    if d == "" then None
    else if sign && u[0] == '-' then Some((MODULUS - Value(d) % MODULUS) % MODULUS)
    else Some(Value(d) % MODULUS)
  }

  function SnapshotText(count: uint32): string {
    Decimal(count) + "\n"
  }

  lemma {:induction false} DecimalDigits(n: nat)
    ensures Decimal(n) != "" && AllDigits(Decimal(n)) && Value(Decimal(n)) == n
    decreases n
  {
    if n < 10 {
      assert Decimal(n)[..0] == "";
    } else {
      DecimalDigits(n / 10);
      assert Decimal(n)[..|Decimal(n)| - 1] == Decimal(n / 10);
    }
  }

  lemma {:induction false} RunOfDigits(d: string, rest: string)
    requires AllDigits(d) && (rest == "" || !IsDigit(rest[0]))
    ensures DigitRun(d + rest) == d
    decreases |d|
  {
    if d == "" {
      assert d + rest == rest;
    } else {
      RunOfDigits(d[1..], rest);
      HeadTail(d);
      assert (d + rest)[1..] == d[1..] + rest;
    }
  }

  /** What was saved, digits and a newline, is read back. */
  lemma SaveRestore(count: uint32)
    ensures ScanUnsigned(SnapshotText(count)) == Some(count)
    ensures var t := SnapshotText(count); |t| > 1 && t[|t| - 1] == '\n' && forall i :: 0 <= i < |t| - 1 ==> '0' <= t[i] <= '9'
  {
    DecimalDigits(count);
    RunOfDigits(Decimal(count), "\n");
    var t := SnapshotText(count);
    assert t[0] == Decimal(count)[0] && IsDigit(t[0]);
  }

  const SPACES := " \t\n\U{B}\U{C}\r"

  lemma {:induction false} SpaceSkipped(w: string, t: string)
    requires forall i :: 0 <= i < |w| ==> w[i] in SPACES
    requires t == "" || t[0] !in SPACES
    ensures SkipSpace(w + t) == t
    decreases |w|
  {
    if w == "" {
      assert w + t == t;
    } else {
      DropFirst(w, t);
      SpaceSkipped(w[1..], t);
    }
  }

  lemma {:induction false} ZerosAreNothing(zeros: string, d: string)
    requires AllDigits(d) && forall i :: 0 <= i < |zeros| ==> zeros[i] == '0'
    ensures AllDigits(zeros + d) && Value(zeros + d) == Value(d)
    decreases |zeros| + |d|
  {
    var t := zeros + d;
    if d != "" {
      ZerosAreNothing(zeros, d[..|d| - 1]);
      assert t[..|t| - 1] == zeros + d[..|d| - 1];
    } else if zeros != "" {
      ZerosAreNothing(zeros[..|zeros| - 1], "");
      assert t[..|t| - 1] == zeros[..|zeros| - 1] + "";
    }
  }

  /** What fscanf makes of any text: white space, a sign, leading zeros, a number, and whatever does not continue it. */
  lemma ScanReads(w: string, sign: string, zeros: string, n: nat, rest: string)
    requires (forall i :: 0 <= i < |w| ==> w[i] in SPACES) && (sign == "" || sign == "+" || sign == "-")
    requires (forall i :: 0 <= i < |zeros| ==> zeros[i] == '0') && (rest == "" || !('0' <= rest[0] <= '9'))
    ensures ScanUnsigned(w + (sign + (zeros + Decimal(n) + rest))) ==
            Some(if sign == "-" then (0x1_0000_0000 - n % 0x1_0000_0000) % 0x1_0000_0000 else n % 0x1_0000_0000)
  {
    var d := zeros + Decimal(n);
    DecimalDigits(n);
    ZerosAreNothing(zeros, Decimal(n));
    assert IsDigit(d[0]);
    SignTaken(sign, d + rest);
    SpaceSkipped(w, sign + (d + rest));
    ScanDigits(w + (sign + (d + rest)), sign, d, rest);
  }

  lemma ScanDigits(t: string, sign: string, d: string, rest: string)
    requires SkipSpace(t) == sign + (d + rest) && (sign == "" || sign == "+" || sign == "-")
    requires d != "" && AllDigits(d) && (rest == "" || !IsDigit(rest[0]))
    ensures ScanUnsigned(t) == Some(if sign == "-" then (MODULUS - Value(d) % MODULUS) % MODULUS else Value(d) % MODULUS)
  {
    RunOfDigits(d, rest);
    SignTaken(sign, d + rest);
  }

  lemma SignTaken(sign: string, t: string)
    requires (sign == "" || sign == "+" || sign == "-") && t != "" && IsDigit(t[0])
    ensures var u := sign + t; (sign != "" <==> u[0] == '-' || u[0] == '+') && (sign != "" ==> u[1..] == t) && (sign == "" ==> u == t)
    ensures (sign == "-" <==> (sign + t)[0] == '-') && (sign + t)[0] !in SPACES
  {
  }

  /** Without a digit behind the white space and the sign there is no number. */
  lemma ScanRefuses(w: string, sign: string, rest: string)
    requires (forall i :: 0 <= i < |w| ==> w[i] in SPACES) && (sign == "" || sign == "+" || sign == "-")
    requires rest != "" ==> !('0' <= rest[0] <= '9') && (sign == "" ==> rest[0] !in SPACES && rest[0] !in "+-")
    ensures ScanUnsigned(w + (sign + rest)) == None
  {
    SpaceSkipped(w, sign + rest);
    if sign == "" {
      assert sign + rest == rest;
    } else {
      assert (sign + rest)[1..] == rest;
    }
  }

  // ----- The state machine -----

  /** What fopen and fclose make of the path given to a restore. */
  datatype File = NoFile | File(text: string, closes: bool)

  /** The value a restore takes over, if it succeeds. */
  function Loaded(f: File): Option<uint32> {
    if f.NoFile? || !f.closes then None else ScanUnsigned(f.text)
  }

  class LetterCounter {
    var letterCount: uint32

    /** The loop of update_count over the command buffer. */
    method UpdateCount(buf: string) returns (result: uint32)
      modifies this
      ensures letterCount == Counted(old(letterCount), buf) && result == letterCount
      ensures letterCount == (old(letterCount) + |LetterPlaces(buf)|) % 0x1_0000_0000
    {
      LettersCounted(buf);
      var i := 0;
      ghost var seen := 0;
      TakeAll(buf);
      while i < |buf|
        invariant 0 <= i <= |buf| && seen + Letters(buf[i..]) == Letters(buf)
        invariant letterCount == (old(letterCount) + seen) % MODULUS
        decreases |buf| - i
      {
        var c := buf[i];
        assert buf[i..][1..] == buf[i + 1..];
        i := i + 1;
        if IsAlpha(c) {
          letterCount := if letterCount == MODULUS - 1 then 0 else letterCount + 1;
          seen := seen + 1;
        } else if c == '\0' {
          return letterCount;
        }
      }
      result := letterCount;
    }

    /**
     FSMBeginSnapshot, called in a state of the workers whose client state is this
     count: the copy is what the hand-over gives the snapshot worker, and a file
     written from it, whatever happens to the count meanwhile, restores this count.
     */
    method BeginSnapshot(ghost s: State<uint32>) returns (copy: uint32)
      requires Shape(s) && s.busy && s.reqs[s.taken - 1].worker == Begin(false) && s.fsm == letterCount
      ensures var o := Do(s, WorkerHandOver, Counted);
              o.Moved? && o.next.jobs == s.jobs + [s.taken - 1] && o.next.reqs[s.taken - 1].value == Some(copy)
      ensures Loaded(File(SnapshotText(copy), true)) == Some(letterCount)
    {
      copy := letterCount;
      SaveRestore(copy);
    }

    /** FSMRestore: on any failure the count stays. */
    method Restore(f: File) returns (rc: int)
      modifies this
      ensures rc == 0 <==> f.File? && f.closes && ScanUnsigned(f.text).Some?
      ensures letterCount == if rc == 0 then ScanUnsigned(f.text).value else old(letterCount)
      ensures Loaded(f) == if rc == 0 then Some(letterCount) else None
    {
      if f.NoFile? {
        return 1;
      }
      var scanned := ScanUnsigned(f.text);
      if !f.closes {
        return 1;
      }
      if scanned.None? {
        return 1;
      }
      letterCount := scanned.value;
      return 0;
    }
  }

  // ----- Runs with this client -----

  function Total(reqs: seq<Request<uint32>>, k: nat): nat
    requires k <= |reqs|
  {
    if k == 0 then 0 else Total(reqs, k - 1) + if reqs[k - 1].kind.Command? then Letters(reqs[k - 1].kind.data) else 0
  }

  lemma {:induction false} FoldIsTotal(reqs: seq<Request<uint32>>, k: nat, init: uint32)
    requires k <= |reqs| && forall i :: 0 <= i < k ==> !reqs[i].kind.Restore?
    ensures Fold(reqs, k, init, Counted) == (init + Total(reqs, k)) % MODULUS
    decreases k
  {
    if k > 0 {
      FoldIsTotal(reqs, k - 1, init);
    }
  }

  /** Without restores, the count is the number of letters in all commands so far, modulo 2^32, in every interleaving. */
  lemma CountIsTotal(run: seq<Step<uint32>>, e: State<uint32>, init: uint32)
    requires Reaches(Start(init), run, e, Counted) && CaughtUp(e)
    requires forall i :: 0 <= i < |e.reqs| ==> !e.reqs[i].kind.Restore?
    ensures e.fsm == (init + Total(e.reqs, |e.reqs|)) % MODULUS
  {
    ReachableOk(run, e, init, Counted);
    FoldIsTotal(e.reqs, |e.reqs|, init);
  }

  /** A snapshot file, restored elsewhere and followed by the later requests, gives the same count. */
  lemma FileCatchesUp(run: seq<Step<uint32>>, e: State<uint32>, id: Id, init: uint32,
                      run2: seq<Step<uint32>>, e2: State<uint32>, start: uint32)
    requires Reaches(Start(init), run, e, Counted) && Reaches(Start(start), run2, e2, Counted)
    requires id < |e.reqs| && e.reqs[id].written.Some? && |e2.reqs| == |e.reqs| - id
    requires e2.reqs[0].kind == Kind.Restore(Loaded(File(SnapshotText(e.reqs[id].written.value), true)))
    requires forall i :: id < i < |e.reqs| ==> e2.reqs[i - id].kind == e.reqs[i].kind
    requires CaughtUp(e) && CaughtUp(e2)
    ensures e2.fsm == e.fsm
  {
    SaveRestore(e.reqs[id].written.value);
    RestoredCatchesUp(run, e, id, init, run2, e2, start, Counted);
  }
}
