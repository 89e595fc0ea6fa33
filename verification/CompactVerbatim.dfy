/** Which texts the compactor leaves alone, exactly, and what that means for literals. */
module CompactVerbatim {
  import opened CompactSql
  import opened CompactProofs
  import opened Options

  // ---- What decides it ----

  /** The rune held back after `x`, or None when a comment opens in it. */
  function Pending(x: string): Option<char> {
    if x == [] then Some(NUL)
    else
      var c := x[|x| - 1];
      match Pending(x[..|x| - 1])
      case None => None
      case Some(h) =>
        if Opens(h, c) then None
        else if h == NUL && MayOpen(c) then Some(c)
        else Some(NUL)
  }

  /** The last rune written after `l` and `x`, while the last rune of `x` may be held back: the
      one that can protect a quote. */
  function LastIn(l: char, x: string): char {
    var n := if x == [] || Pending(x) == Some(NUL) then |x| else |x| - 1;
    if n > 0 then x[n - 1] else l
  }

  /** The quote that is open after `x`, when `q` is open before and `l` is the rune before. Every
      quote rune that no backslash protects closes its own kind and replaces the other. */
  function Open(q: char, l: char, x: string): char {
    if x == [] then q
    else
      var front, c := x[..|x| - 1], x[|x| - 1];
      var open := Open(q, l, front);
      if !IsQuote(c) || LastIn(l, front) == '\\' then open
      else if open == c then NUL
      else c
  }

  /** Rune `i` is white space outside literals. */
  predicate GapAt(q: char, l: char, x: string, i: nat)
    requires i < |x|
  {
    IsSpace(x[i]) && Open(q, l, x[..i]) == NUL
  }

  predicate GapAtEnd(q: char, l: char, x: string) {
    x != [] && GapAt(q, l, x, |x| - 1)
  }

  predicate Solid(c: char) {
    !IsPunct(c) && !IsSpace(c)
  }

  /** A gap that comes out as it went in: one blank between two runes that are neither
      punctuation nor white space, as far as the text goes. */
  predicate Fits(l: char, x: string, i: nat)
    requires i < |x|
  {
    x[i] == ' ' && Solid(if i > 0 then x[i - 1] else l) && (i + 1 < |x| ==> Solid(x[i + 1]))
  }

  /** No comment opens, and every gap fits. */
  predicate Neat(q: char, l: char, x: string) {
    Pending(x).Some? && forall i :: 0 <= i < |x| && GapAt(q, l, x, i) ==> Fits(l, x, i)
  }

  /** Moreover, nothing is pending at the end. */
  predicate Tidy(q: char, l: char, x: string) {
    Neat(q, l, x) && Pending(x).value == NUL && !GapAtEnd(q, l, x)
  }

  // ---- Neat texts ----

  /** The scanner with quote `q` open, after it wrote `p` and last `l`. */
  function Begin(p: string, q: char, l: char): Scan {
    Scan(p, l, NUL, false, q, NUL)
  }

  /** What is written of a neat text: all but a gap or a held rune at the end. */
  function Shown(q: char, l: char, x: string): string {
    if x != [] && (GapAtEnd(q, l, x) || Pending(x) != Some(NUL)) then x[..|x| - 1] else x
  }

  function Reached(p: string, q: char, l: char, x: string): Scan
    requires Pending(x).Some?
  {
    var w := Shown(q, l, x);
    Scan(p + w, if w == [] then l else w[|w| - 1], Pending(x).value, GapAtEnd(q, l, x), Open(q, l, x), NUL)
  }

  lemma {:induction false} NeatFront(q: char, l: char, x: string)
    requires Neat(q, l, x) && x != []
    ensures Neat(q, l, x[..|x| - 1])
    ensures GapAtEnd(q, l, x[..|x| - 1]) ==> Solid(x[|x| - 1])
  {
    var front := x[..|x| - 1];
    forall i | 0 <= i < |front| && GapAt(q, l, front, i)
      ensures Fits(l, front, i) && Solid(x[i + 1])
    {
      assert x[..i] == front[..i];
      assert GapAt(q, l, x, i);
    }
  }

  /** White space leaves quotes as they are. */
  lemma {:induction false} GapStays(q: char, l: char, x: string)
    requires GapAtEnd(q, l, x)
    ensures Open(q, l, x) == NUL
  {
  }

  lemma {:induction false} ShownLast(q: char, l: char, x: string)
    requires !GapAtEnd(q, l, x)
    ensures var w := Shown(q, l, x); LastIn(l, x) == if w == [] then l else w[|w| - 1]
  {
  }

  lemma {:induction false} PendingLast(x: string)
    requires Pending(x).Some? && Pending(x).value != NUL
    ensures x != [] && x[|x| - 1] == Pending(x).value && MayOpen(x[|x| - 1])
  {
  }

  /** After a gap comes a rune that has it written before itself. */
  lemma {:induction false} StepFromGap(p: string, q: char, l: char, front: string, c: char)
    requires Neat(q, l, front + [c]) && Neat(q, l, front) && GapAtEnd(q, l, front) && Solid(c)
    ensures Step(Reached(p, q, l, front), c) == Reached(p, q, l, front + [c])
  {
    var x, s, n := front + [c], Reached(p, q, l, front), |front| - 1;
    assert x[..|front|] == front;
    GapStays(q, l, front);
    assert GapAt(q, l, front, n) && Fits(l, front, n);
    assert s.out == p + front[..n] && s.hold == NUL && s.quote == NUL;
    assert Injects(s, c);
    assert Chunk(s, c) == [' '] + [c] && s.out + ([' '] + [c]) == p + x;
  }

  /** Elsewhere a rune is held back, or becomes a gap, or is written. */
  lemma {:induction false} StepFromText(p: string, q: char, l: char, front: string, c: char)
    requires Neat(q, l, front + [c]) && Neat(q, l, front) && !GapAtEnd(q, l, front)
    ensures Step(Reached(p, q, l, front), c) == Reached(p, q, l, front + [c])
  {
    var x, s := front + [c], Reached(p, q, l, front);
    assert x[..|front|] == front;
    ShownLast(q, l, front);
    if Suppressed(s, c) {
    } else if GapAtEnd(q, l, x) {
      assert GapAt(q, l, x, |front|) && Fits(l, x, |front|);
      if s.hold != NUL {
        PendingLast(front);
      }
    } else {
      assert Chunk(s, c) == (if s.hold != NUL then [s.hold] else []) + "" + [c];
      if s.hold != NUL {
        PendingLast(front);
        assert s.out + ([s.hold] + "" + [c]) == p + x;
      } else {
        assert s.out + ([] + "" + [c]) == p + x;
      }
    }
  }

  lemma {:induction false} NeatRun(p: string, q: char, l: char, x: string)
    requires Neat(q, l, x)
    ensures Run(Begin(p, q, l), x) == Reached(p, q, l, x)
  {
    if x == [] {
      assert p + "" == p;
    } else {
      var front, c := x[..|x| - 1], x[|x| - 1];
      assert x == front + [c];
      NeatFront(q, l, x);
      NeatRun(p, q, l, front);
      if GapAtEnd(q, l, front) {
        StepFromGap(p, q, l, front, c);
      } else {
        StepFromText(p, q, l, front, c);
      }
    }
  }

  // ---- Texts that are not ----

  /** A rune that was written is not the one that was read. */
  ghost predicate Differs(out: string, read: string) {
    exists i :: 0 <= i < |out| && i < |read| && out[i] != read[i]
  }

  /** The pending gap will not come out as it went in: it is next to punctuation or to an
      operator, or is not a blank. */
  predicate Clogged(s: Scan, read: string) {
    && s.comment == NUL && s.space && Weight(s) <= |read|
    && (s.hold != NUL || IsPunct(s.last) || (|s.out| < |read| && read[|s.out|] != ' '))
  }

  /** However it goes on, the output will not be the text that is read. */
  ghost predicate Doomed(s: Scan, read: string) {
    Weight(s) < |read| || Differs(s.out, read) || Clogged(s, read)
  }

  lemma {:induction false} StillDiffers(s: Scan, read: string, c: char)
    requires Differs(s.out, read)
    ensures Differs(Step(s, c).out, read + [c])
  {
    var i :| 0 <= i < |s.out| && i < |read| && s.out[i] != read[i];
    assert Step(s, c).out[i] == s.out[i] && (read + [c])[i] == read[i];
  }

  lemma {:induction false} CloggedStep(s: Scan, read: string, c: char)
    requires Clogged(s, read)
    ensures Doomed(Step(s, c), read + [c])
  {
    if !Suppressed(s, c) && (InLiteral(s, c) || !IsSpace(c)) && Injects(s, c) {
      var i := |s.out|;
      assert Step(s, c).out == s.out + ([] + " " + [c]);
      assert Step(s, c).out[i] == ' ' && (read + [c])[i] == read[i];
      assert Differs(Step(s, c).out, read + [c]);
    }
  }

  lemma {:induction false} DoomedStep(s: Scan, read: string, c: char)
    requires Doomed(s, read)
    ensures Doomed(Step(s, c), read + [c])
  {
    if Weight(s) < |read| {
      RunOne(s, c);
      RunWeight(s, [c]);
    } else if Differs(s.out, read) {
      StillDiffers(s, read, c);
    } else {
      CloggedStep(s, read, c);
    }
  }

  lemma {:induction false} DoomedEnd(s: Scan, read: string)
    requires Doomed(s, read)
    ensures s.out != read && s.out + (if s.hold != NUL then [s.hold] else "") != read
  {
  }

  lemma {:induction false} ReachedWeight(p: string, q: char, l: char, x: string)
    requires Pending(x).Some?
    ensures Weight(Reached(p, q, l, x)) == |p| + |x|
  {
    if GapAtEnd(q, l, x) && Pending(x).value != NUL {
      PendingLast(x);
    }
  }

  /** The first rune that makes the text untidy. */
  lemma {:induction false} FirstUntidy(p: string, q: char, l: char, front: string, c: char)
    requires Neat(q, l, front) && !Neat(q, l, front + [c]) && !IsSpace(l)
    ensures Doomed(Step(Reached(p, q, l, front), c), p + (front + [c]))
  {
    var x, s := front + [c], Reached(p, q, l, front);
    assert x[..|front|] == front;
    ReachedWeight(p, q, l, front);
    if Pending(x).None? {
    } else if GapAtEnd(q, l, front) && !Solid(c) {
      UntidyAfterGap(p, q, l, front, c);
    } else {
      UntidyGap(p, q, l, front, c);
    }
  }

  lemma {:induction false} UntidyAfterGap(p: string, q: char, l: char, front: string, c: char)
    requires Neat(q, l, front) && GapAtEnd(q, l, front) && !Solid(c)
    ensures Doomed(Step(Reached(p, q, l, front), c), p + (front + [c]))
  {
    ReachedWeight(p, q, l, front);
    GapStays(q, l, front);
  }

  /** Then the new rune is a gap that does not fit. */
  lemma {:induction false} LastUntidy(q: char, l: char, front: string, c: char)
    requires Neat(q, l, front) && !Neat(q, l, front + [c]) && Pending(front + [c]).Some?
    requires GapAtEnd(q, l, front) ==> Solid(c)
    ensures var x := front + [c]; GapAt(q, l, x, |front|) && !Fits(l, x, |front|)
    ensures IsSpace(c) && Open(q, l, front) == NUL
  {
    var x := front + [c];
    assert x[..|front|] == front;
    forall i | 0 <= i < |front| && GapAt(q, l, x, i)
      ensures Fits(l, x, i)
    {
      assert x[..i] == front[..i];
      assert GapAt(q, l, front, i);
    }
  }

  /** White space in code is a gap. */
  lemma {:induction false} ReadSpace(s: Scan, c: char)
    requires s.comment == NUL && s.quote == NUL && IsSpace(c)
    ensures Step(s, c) == s.(space := true)
  {
  }

  /** A gap that does not fit, after text, clogs the scanner. */
  lemma {:induction false} Clogs(s: Scan, read: string, c: char)
    requires s.comment == NUL && s.quote == NUL && !s.space && IsSpace(c) && Weight(s) == |read|
    requires s.hold != NUL || IsPunct(s.last) || (|s.out| == |read| && c != ' ')
    ensures Clogged(Step(s, c), read + [c])
  {
    ReadSpace(s, c);
    assert (read + [c])[|read|] == c;
  }

  lemma {:induction false} UntidyGap(p: string, q: char, l: char, front: string, c: char)
    requires Neat(q, l, front) && !Neat(q, l, front + [c]) && !IsSpace(l) && Pending(front + [c]).Some?
    requires GapAtEnd(q, l, front) ==> Solid(c)
    ensures Doomed(Step(Reached(p, q, l, front), c), p + (front + [c]))
  {
    var s := Reached(p, q, l, front);
    ReachedWeight(p, q, l, front);
    LastUntidy(q, l, front, c);
    assert !GapAtEnd(q, l, front);
    UnfitLast(q, l, front, c);
    Clogs(s, p + front, c);
    assert p + front + [c] == p + (front + [c]);
  }

  /** Why it does not fit. */
  lemma {:induction false} UnfitLast(q: char, l: char, front: string, c: char)
    requires Pending(front).Some? && !GapAtEnd(q, l, front) && !IsSpace(l)
    requires IsSpace(c) && Open(q, l, front) == NUL && !Fits(l, front + [c], |front|)
    ensures var s := Reached("", q, l, front);
      s.hold != NUL || IsPunct(s.last) || (s.out == front && c != ' ')
  {
    var n := |front|;
    assert (front + [c])[n] == c && (n > 0 ==> (front + [c])[n - 1] == front[n - 1]);
    assert "" + front == front;
  }

  lemma {:induction false} UntidyRun(p: string, q: char, l: char, x: string)
    requires !Neat(q, l, x) && !IsSpace(l)
    ensures Doomed(Run(Begin(p, q, l), x), p + x)
  {
    var front, c := x[..|x| - 1], x[|x| - 1];
    assert x == front + [c] && p + x == p + front + [c];
    if Neat(q, l, front) {
      NeatRun(p, q, l, front);
      FirstUntidy(p, q, l, front, c);
    } else {
      UntidyRun(p, q, l, front);
      DoomedStep(Run(Begin(p, q, l), front), p + front, c);
    }
  }

  // ---- The texts that are left alone ----

  lemma {:induction false} VerbatimFrom(p: string, q: char, l: char, x: string)
    requires !IsSpace(l)
    ensures Run(Begin(p, q, l), x).out == p + x <==> Tidy(q, l, x)
  {
    if Neat(q, l, x) {
      NeatRun(p, q, l, x);
      assert |p + Shown(q, l, x)| == |p + x| <==> Shown(q, l, x) == x;
    } else {
      UntidyRun(p, q, l, x);
      DoomedEnd(Run(Begin(p, q, l), x), p + x);
    }
  }

  /** The compactor leaves a text as it is exactly when no comment opens in it, all white space
      outside literals is single blanks between runes that are not punctuation, and it does not
      end in an operator that is held back. */
  lemma {:induction false} Verbatim(x: string)
    ensures Compact(x) == x <==> Tidy(NUL, NUL, x)
  {
    VerbatimFrom("", NUL, NUL, x);
    assert "" + x == x;
  }

  /** These are also exactly the texts that it puts out. */
  lemma {:induction false} Outputs(y: string)
    ensures (exists x :: Compact(x) == y) <==> Tidy(NUL, NUL, y)
  {
    Verbatim(y);
    if x :| Compact(x) == y {
      Idempotent(x);
    }
  }

  // ---- Literals ----

  /** What a literal has to be: no comment opens in its body, and white space in it is at places
      where a quote is open, or is single blanks between runes that are not punctuation. */
  predicate Survives(q: char, body: string) {
    Neat(q, q, body) && !GapAtEnd(q, q, body)
  }

  lemma {:induction false} OpenLiteral(q: char)
    requires IsQuote(q)
    ensures Run(INIT, [q]) == Begin([q], q, q)
  {
    RunOne(INIT, q);
    assert "" + ([] + "" + [q]) == [q];
  }

  /** The closing quote adds nothing but that no gap may come before it. */
  lemma {:induction false} ClosingQuote(open: char, q: char, body: string)
    requires IsQuote(q)
    ensures Tidy(open, q, body + [q]) <==> Neat(open, q, body) && !GapAtEnd(open, q, body)
    ensures Neat(open, q, body + [q]) ==> Tidy(open, q, body + [q])
  {
    var x := body + [q];
    assert x[..|body|] == body;
    if Neat(open, q, x) {
      NeatFront(open, q, x);
    }
    if Neat(open, q, body) && !GapAtEnd(open, q, body) {
      forall i | 0 <= i < |x| && GapAt(open, q, x, i)
        ensures Fits(q, x, i)
      {
        assert x[..i] == body[..i];
        assert GapAt(open, q, body, i) && Fits(q, body, i) && i + 1 < |body|;
      }
    }
  }

  lemma {:induction false} LiteralRun(q: char, body: string)
    requires IsQuote(q)
    ensures [q] + body + [q] == [q] + (body + [q])
    ensures Run(INIT, [q] + body + [q]) == Run(Begin([q], q, q), body + [q])
  {
    OpenLiteral(q);
    Grouped(q, body);
    RunConcat(INIT, [q], body + [q]);
  }

  lemma {:induction false} Grouped(q: char, body: string)
    ensures [q] + body + [q] == [q] + (body + [q])
  {
  }

  /** Any literal, whatever is in it, is copied verbatim exactly when it survives. */
  lemma {:induction false} LiteralVerbatim(q: char, body: string)
    requires IsQuote(q)
    ensures Compact([q] + body + [q]) == [q] + body + [q] <==> Survives(q, body)
  {
    LiteralRun(q, body);
    VerbatimFrom([q], q, q, body + [q]);
    ClosingQuote(q, q, body);
  }

  /** Every quote rune of either kind follows a backslash. */
  predicate Escaped(body: string) {
    forall i :: 0 <= i < |body| && IsQuote(body[i]) ==> i > 0 && body[i - 1] == '\\'
  }

  /** A quote rune that no backslash protects. */
  predicate Bare(l: char, x: string, i: nat)
    requires i < |x|
  {
    IsQuote(x[i]) && LastIn(l, x[..i]) != '\\'
  }

  predicate NoneBare(l: char, x: string) {
    forall i :: 0 <= i < |x| ==> !Bare(l, x, i)
  }

  lemma {:induction false} EscapedNoneBare(l: char, x: string)
    requires Escaped(x) && Pending(x).Some?
    ensures NoneBare(l, x)
  {
    forall i | 0 <= i < |x|
      ensures !Bare(l, x, i)
    {
      if IsQuote(x[i]) {
        PendingFront(x, i);
        assert x[..i][i - 1] == '\\';
        if Pending(x[..i]).value != NUL {
          PendingLast(x[..i]);
        }
      }
    }
  }

  lemma {:induction false} PendingFront(x: string, n: nat)
    requires Pending(x).Some? && n <= |x|
    ensures Pending(x[..n]).Some?
  {
    if n < |x| {
      PendingFront(x[..|x| - 1], n);
      assert x[..|x| - 1][..n] == x[..n];
    } else {
      assert x[..n] == x;
    }
  }

  /** Without a bare quote the open quote stays. */
  lemma {:induction false} StaysOpen(q: char, l: char, x: string)
    requires NoneBare(l, x)
    ensures Open(q, l, x) == q
    ensures q != NUL && Pending(x).Some? ==> Neat(q, l, x) && !GapAtEnd(q, l, x)
  {
    forall n: nat | n <= |x|
      ensures Open(q, l, x[..n]) == q
    {
      StaysOpenTo(q, l, x, n);
    }
    assert x[..|x|] == x;
  }

  lemma {:induction false} StaysOpenTo(q: char, l: char, x: string, n: nat)
    requires NoneBare(l, x) && n <= |x|
    ensures Open(q, l, x[..n]) == q
  {
    if n > 0 {
      StaysOpenTo(q, l, x, n - 1);
      assert x[..n][..n - 1] == x[..n - 1] && !Bare(l, x, n - 1);
    }
  }

  /** In particular, where quotes come only after backslashes, a literal is copied verbatim
      exactly when no comment opens in its body. */
  lemma {:induction false} EscapedVerbatim(q: char, body: string)
    requires IsQuote(q) && Escaped(body)
    ensures Compact([q] + body + [q]) == [q] + body + [q] <==> Pending(body).Some?
  {
    LiteralVerbatim(q, body);
    if Pending(body).Some? {
      EscapedNoneBare(q, body);
      StaysOpen(q, q, body);
    }
  }

  // ---- A quote of the other kind ----

  /** The body has no bare quote of the kind `q`, and does not protect the closing one. */
  predicate Encloses(q: char, body: string) {
    (forall i :: 0 <= i < |body| && Bare(q, body, i) ==> body[i] != q) && LastIn(q, body) != '\\'
  }

  /** Bare quotes of the other kind take turns to open and to close; the first replaces `q`. */
  lemma {:induction false} OthersReplace(q: char, x: string)
    requires IsQuote(q) && forall i :: 0 <= i < |x| && Bare(q, x, i) ==> x[i] != q
    ensures Open(q, q, x) == q <==> NoneBare(q, x)
  {
    if x != [] {
      var n := |x| - 1;
      var front := x[..n];
      forall i | 0 <= i < n
        ensures Bare(q, front, i) <==> Bare(q, x, i)
      {
        assert front[..i] == x[..i];
      }
      OthersReplace(q, front);
      assert NoneBare(q, x) <==> NoneBare(q, front) && !Bare(q, x, n);
    }
  }

  lemma {:induction false} TidyReached(p: string, q: char, l: char, x: string)
    requires Tidy(q, l, x) && x != []
    ensures Run(Begin(p, q, l), x) == Begin(p + x, Open(q, l, x), x[|x| - 1])
  {
    NeatRun(p, q, l, x);
  }

  lemma {:induction false} LiteralReached(q: char, body: string)
    requires IsQuote(q) && Survives(q, body)
    ensures Run(INIT, [q] + body + [q]) == Begin([q] + body + [q], Open(q, q, body + [q]), q)
  {
    LiteralRun(q, body);
    ClosingQuote(q, q, body);
    TidyReached([q], q, q, body + [q]);
  }

  /** A literal that is copied verbatim leaves the scanner inside a literal afterwards exactly
      when its body has a bare quote, which is one of the other kind. */
  lemma {:induction false} LeftOpen(q: char, body: string)
    requires IsQuote(q) && Encloses(q, body) && Survives(q, body)
    ensures Run(INIT, [q] + body + [q]).quote == if NoneBare(q, body) then NUL else q
  {
    LiteralReached(q, body);
    OthersReplace(q, body);
    assert (body + [q])[..|body|] == body;
  }

  /** What follows such a literal is then copied with all its white space, up to the next quote. */
  lemma {:induction false} SpillsOver(q: char, body: string, after: string)
    requires IsQuote(q) && Encloses(q, body) && Survives(q, body) && !NoneBare(q, body)
    requires Pending(after) == Some(NUL) && forall c <- after :: !IsQuote(c)
    ensures Compact([q] + body + [q] + after) == [q] + body + [q] + after
  {
    var read := [q] + body + [q];
    LeftOpen(q, body);
    LiteralReached(q, body);
    RunConcat(INIT, read, after);
    StaysOpen(q, q, after);
    VerbatimFrom(read, q, q, after);
  }

  // ---- Literals that are lost ----

  /** The literal '--' loses its end. */
  lemma {:induction false} LiteralLost()
    ensures Compact("'--'") == "'"
  {
    RunAppend(INIT, "", '\'');
    assert "" + ['\''] == "'";
    assert Run(INIT, "'") == Scan("'", '\'', NUL, false, '\'', NUL);
    RunAppend(INIT, "'", '-');
    RunAppend(INIT, "'" + ['-'], '-');
    RunAppend(INIT, "'" + ['-'] + ['-'], '\'');
    assert "'" + ['-'] + ['-'] + ['\''] == "'--'";
  }

  /** Reading a rune that is written at once, with nothing pending. */
  lemma {:induction false} ReadRune(out: string, quote: char, last: char, c: char, read: string)
    requires Run(INIT, read) == Begin(out, quote, last)
    requires !MayOpen(c) && (quote == NUL ==> !IsSpace(c))
    ensures Run(INIT, read + [c]) == Begin(out + [c], QuoteAfter(Begin(out, quote, last), c), c)
  {
    RunAppend(INIT, read, c);
    assert out + ([] + "" + [c]) == out + [c];
  }

  /** A gap after punctuation leaves no trace. */
  lemma {:induction false} ReadGap(out: string, last: char, c: char, read: string)
    requires Run(INIT, read) == Begin(out, NUL, last) && IsPunct(last) && Solid(c)
    ensures Run(INIT, read + [' '] + [c]) == Begin(out + [c], NUL, c)
  {
    var s := Scan(out, last, NUL, true, NUL, NUL);
    RunAppend(INIT, read, ' ');
    assert Step(Begin(out, NUL, last), ' ') == s;
    RunAppend(INIT, read + [' '], c);
    assert Chunk(s, c) == [] + "" + [c] == [c];
    assert !Suppressed(s, c) && !InLiteral(s, c);
  }

  /** After `q`, rune, `r`, rune, `r` no quote is open: the first `r` replaces `q`, and the
      second closes it. */
  lemma {:induction false} Closed(q: char, r: char, a: char, b: char)
    requires IsQuote(q) && IsQuote(r) && q != r && Solid(a) && Solid(b) && a != '\\' && b != '\\'
    ensures var x := [q] + [a] + [r] + [b] + [r]; Run(INIT, x) == Begin(x, NUL, r)
  {
    var x1 := [q] + [a];
    var x2 := x1 + [r];
    var x3 := x2 + [b];
    OpenLiteral(q);
    ReadRune([q], q, q, a, [q]);
    ReadRune(x1, q, a, r, x1);
    ReadRune(x2, r, r, b, x2);
    ReadRune(x3, r, b, r, x3);
  }

  /** A literal in which a blank comes after two quotes of the other kind loses the blank. */
  lemma {:induction false} Folded(q: char, r: char, a: char, b: char, c: char)
    requires IsQuote(q) && IsQuote(r) && q != r && Solid(a) && Solid(b) && Solid(c)
    requires a != '\\' && b != '\\'
    ensures var x := [q] + [a] + [r] + [b] + [r]; Compact(x + [' '] + [c] + [q]) == x + [c] + [q]
  {
    var x := [q] + [a] + [r] + [b] + [r];
    Closed(q, r, a, b);
    ReadGap(x, r, c, x);
    ReadRune(x + [c], NUL, c, q, x + [' '] + [c]);
  }

  /** The literal 'a"b" c' loses its blank. */
  lemma {:induction false} LiteralFolded()
    ensures Compact("'a\"b\" c'") == "'a\"b\"c'"
  {
    Folded('\'', '"', 'a', 'b', 'c');
    assert ['\''] + ['a'] + ['"'] + ['b'] + ['"'] + [' '] + ['c'] + ['\''] == "'a\"b\" c'";
    assert ['\''] + ['a'] + ['"'] + ['b'] + ['"'] + ['c'] + ['\''] == "'a\"b\"c'";
  }
}
