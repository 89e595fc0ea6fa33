/** What the compactor promises on every input: running it again changes nothing, it never
    lengthens its input, and apart from injected spaces it only deletes. */
module CompactProofs {
  import opened CompactSql

  lemma {:induction false} RunConcat(s: Scan, a: string, b: string)
    ensures Run(s, a + b) == Run(Run(s, a), b)
  {
    if b == [] {
      assert a + b == a;
    } else {
      var front := b[..|b| - 1];
      assert (a + b)[..|a + b| - 1] == a + front;
      RunConcat(s, a, front);
    }
  }

  lemma {:induction false} RunOne(s: Scan, c: char)
    ensures Run(s, [c]) == Step(s, c)
  {
    assert [c][..0] == [];
  }

  lemma {:induction false} RunAppend(s: Scan, a: string, c: char)
    ensures Run(s, a + [c]) == Step(Run(s, a), c)
  {
    RunConcat(s, a, [c]);
    RunOne(Run(s, a), c);
  }

  // ---- Idempotence ----

  /** The state without anything pending: what a second run over the output reaches. */
  function Settle(s: Scan): Scan {
    s.(hold := NUL, space := false, comment := NUL)
  }

  /** The step writes its rune, whatever else it writes. */
  predicate Writes(s: Scan, c: char) {
    !Suppressed(s, c) && (InLiteral(s, c) || !IsSpace(c))
  }

  /** The runes one step adds to the output. */
  function Written(s: Scan, c: char): string {
    if Writes(s, c) then Chunk(s, c) else ""
  }

  /** A held rune that is written after all opens no comment in the second run: it is held
      again, and the next rune releases it. */
  lemma {:induction false} ReplayHeld(s: Scan, c: char)
    requires Held(s) && Writes(s, c) && s.hold != NUL
    ensures Chunk(s, c) == [s.hold] + [c]
    ensures Step(Step(Settle(s), s.hold), c) == Settle(Emit(s, c))
  {
    var z := Settle(s);
    assert Step(z, s.hold) == z.(hold := s.hold);
    assert Step(z.(hold := s.hold), c) == Emit(z.(hold := s.hold), c);
  }

  /** An injected space is read as a gap, and injected again. */
  lemma {:induction false} ReplaySpaced(s: Scan, c: char)
    requires Held(s) && Writes(s, c) && Injects(s, c)
    ensures Chunk(s, c) == [' '] + [c]
    ensures Step(Step(Settle(s), ' '), c) == Settle(Emit(s, c))
  {
    var z := Settle(s);
    if s.quote == NUL {
      assert Step(z, ' ') == z.(space := true);
      assert Step(z.(space := true), c) == Emit(z.(space := true), c);
    } else {
      assert Step(z, ' ') == Emit(z, ' ');
    }
  }

  lemma {:induction false} ReplayPlain(s: Scan, c: char)
    requires Held(s) && Writes(s, c) && s.hold == NUL && !Injects(s, c)
    ensures Chunk(s, c) == [c]
    ensures Step(Settle(s), c) == Settle(Emit(s, c))
  {
    var z := Settle(s);
    assert Step(z, c) == Emit(z, c);
  }

  lemma {:induction false} RunTwo(s: Scan, b: char, c: char)
    ensures Run(s, [b] + [c]) == Step(Step(s, b), c)
  {
    RunOne(s, b);
    RunAppend(s, [b], c);
  }

  /** Reading the runes of one step's output moves a settled state as the step itself did. */
  lemma {:induction false} StepReplay(s: Scan, c: char)
    requires Held(s)
    ensures Step(s, c).out == s.out + Written(s, c)
    ensures Run(Settle(s), Written(s, c)) == Settle(Step(s, c))
  {
    var z := Settle(s);
    if !Writes(s, c) {
      assert Written(s, c) == "" && Step(s, c).out == s.out;
      assert Settle(Step(s, c)) == z;
    } else if s.hold != NUL {
      ReplayHeld(s, c);
      RunTwo(z, s.hold, c);
    } else if Injects(s, c) {
      ReplaySpaced(s, c);
      RunTwo(z, ' ', c);
    } else {
      ReplayPlain(s, c);
      RunOne(z, c);
    }
  }

  /** The second run simulates the first: after the first run has read `input`, the second,
      having read what the first wrote, has the same output, last rune and open quote. */
  lemma {:induction false} Replay(input: string)
    ensures Run(INIT, Compact(input)) == Settle(Run(INIT, input))
  {
    if input == [] {
    } else {
      var front, c := input[..|input| - 1], input[|input| - 1];
      var s := Run(INIT, front);
      Replay(front);
      RunHeld(front);
      StepReplay(s, c);
      RunConcat(INIT, s.out, Written(s, c));
    }
  }

  /** Compacting compacted text changes nothing, for every text. */
  lemma Idempotent(input: string)
    ensures Compact(Compact(input)) == Compact(input)
  {
    Replay(input);
  }

  // ---- Conservation ----

  function Bit(b: bool): nat {
    if b then 1 else 0
  }

  /** Runes written, plus a pending space, plus a pending held rune. */
  function Weight(s: Scan): nat {
    |s.out| + Bit(s.space) + Bit(s.hold != NUL)
  }

  lemma {:induction false} RunWeight(s: Scan, input: string)
    ensures Weight(Run(s, input)) <= Weight(s) + |input|
  {
    if input != [] {
      RunWeight(s, input[..|input| - 1]);
    }
  }

  /** At every step, runes written or pending never exceed runes read. */
  lemma Conservation(input: string, read: nat)
    requires read <= |input|
    ensures Weight(Run(INIT, input[..read])) <= read
    ensures |Compact(input)| <= |input|
  {
    RunWeight(INIT, input[..read]);
    RunWeight(INIT, input);
  }

  /** `a` is obtained from `b` by deleting runes. */
  predicate Subsequence(a: string, b: string) {
    || a == []
    || (b != [] && a[|a| - 1] == b[|b| - 1] && Subsequence(a[..|a| - 1], b[..|b| - 1]))
    || (b != [] && Subsequence(a, b[..|b| - 1]))
  }

  /** The output without the spaces that were injected. */
  function Kept(input: string): string {
    if input == [] then ""
    else
      var s, c := Run(INIT, input[..|input| - 1]), input[|input| - 1];
      Kept(input[..|input| - 1]) + Copied(s, c)
  }

  /** `b` is `a` with spaces inserted. */
  predicate SpacesInserted(a: string, b: string) {
    || (a == [] && b == [])
    || (a != [] && b != [] && a[|a| - 1] == b[|b| - 1] && SpacesInserted(a[..|a| - 1], b[..|b| - 1]))
    || (b != [] && b[|b| - 1] == ' ' && SpacesInserted(a, b[..|b| - 1]))
  }

  lemma {:induction false} InsertedAppend(a: string, b: string, c: char)
    requires SpacesInserted(a, b)
    ensures SpacesInserted(a + [c], b + [c])
    ensures SpacesInserted(a, b + " ")
  {
    assert (a + [c])[..|a|] == a && (b + [c])[..|b|] == b && (b + " ")[..|b|] == b;
  }

  lemma {:induction false} SubsequenceAppend(a: string, b: string, c: char)
    requires Subsequence(a, b)
    ensures Subsequence(a + [c], b + [c])
    ensures Subsequence(a, b + [c])
  {
    assert (a + [c])[..|a|] == a && (b + [c])[..|b|] == b;
  }

  function HeldBack(s: Scan): string {
    if s.comment == NUL && s.hold != NUL then [s.hold] else ""
  }

  /** The runes of `Written(s, c)` that come from the input. */
  function Copied(s: Scan, c: char): string {
    if Written(s, c) == "" then "" else HeldBack(s) + [c]
  }

  lemma {:induction false} InsertedPair(a: string, b: string, h: char, c: char)
    requires SpacesInserted(a, b)
    ensures SpacesInserted(a + [h, c], b + [h, c])
  {
    InsertedAppend(a, b, h);
    InsertedAppend(a + [h], b + [h], c);
    assert a + [h, c] == a + [h] + [c] && b + [h, c] == b + [h] + [c];
  }

  lemma {:induction false} InsertedSpaced(a: string, b: string, c: char)
    requires SpacesInserted(a, b)
    ensures SpacesInserted(a + [c], b + [' ', c])
  {
    InsertedAppend(a, b, c);
    InsertedAppend(a, b + " ", c);
    assert b + [' ', c] == b + " " + [c];
  }

  /** Each step adds the same to both, or a space more to the output. */
  lemma {:induction false} WrittenInserted(kept: string, s: Scan, c: char)
    requires Held(s) && SpacesInserted(kept, s.out)
    ensures SpacesInserted(kept + Copied(s, c), s.out + Written(s, c))
  {
    if !Writes(s, c) {
      assert kept + "" == kept && s.out + "" == s.out;
    } else if s.hold != NUL {
      ReplayHeld(s, c);
      assert Copied(s, c) == [s.hold, c] && Written(s, c) == [s.hold, c];
      InsertedPair(kept, s.out, s.hold, c);
    } else if Injects(s, c) {
      ReplaySpaced(s, c);
      assert Copied(s, c) == [c] && Written(s, c) == [' ', c];
      InsertedSpaced(kept, s.out, c);
    } else {
      ReplayPlain(s, c);
      assert Copied(s, c) == [c] && Written(s, c) == [c];
      InsertedAppend(kept, s.out, c);
    }
  }

  lemma {:induction false} CopiedDeletes(kept: string, s: Scan, read: string, c: char)
    requires Held(s)
    requires Subsequence(kept, read) && Subsequence(kept + HeldBack(s), read)
    ensures Subsequence(kept + Copied(s, c), read + [c])
    ensures Subsequence(kept + Copied(s, c) + HeldBack(Step(s, c)), read + [c])
  {
    SubsequenceAppend(kept, read, c);
    SubsequenceAppend(kept + HeldBack(s), read, c);
    HeldShape(s, c);
    assert kept + "" == kept;
    assert kept + HeldBack(s) + [c] + "" == kept + HeldBack(s) + [c] == kept + (HeldBack(s) + [c]);
  }

  lemma {:induction false} HeldShape(s: Scan, c: char)
    requires Held(s)
    ensures var held := HeldBack(Step(s, c));
      if Written(s, c) == "" then Copied(s, c) == "" && (held == "" || held == [c] || held == HeldBack(s))
      else Copied(s, c) == HeldBack(s) + [c] && held == ""
  {
  }

  /** The output is a subsequence of the input with spaces inserted, at every step. */
  lemma {:induction false} OnlyDeletes(input: string)
    ensures SpacesInserted(Kept(input), Compact(input))
    ensures Subsequence(Kept(input), input)
    ensures Subsequence(Kept(input) + HeldBack(Run(INIT, input)), input)
  {
    if input == [] {
    } else {
      var front, c := input[..|input| - 1], input[|input| - 1];
      var s := Run(INIT, front);
      assert input == front + [c];
      OnlyDeletes(front);
      RunHeld(front);
      StepReplay(s, c);
      WrittenInserted(Kept(front), s, c);
      CopiedDeletes(Kept(front), s, front, c);
    }
  }
}
