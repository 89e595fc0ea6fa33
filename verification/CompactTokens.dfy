/** What compacting means on SQL built from tokens: every visible token is kept verbatim and
    in order, every comment goes, and a gap becomes one space exactly where it separates two
    runes that are not punctuation. */
module CompactTokens {
  import opened CompactSql
  import opened CompactProofs
  import opened CompactVerbatim
  import opened CompactRunes

  datatype Token =
    | Word(text: string)
    | Punct(c: char)                      // any punctuation but quotes, '-' and '/'
    | Operator(c: char)                   // '-' or '/'
    | Literal(q: char, body: string)
    | Blank(text: string)                 // white space
    | LineComment(body: string)           // ended by a newline
    | BlockComment(body: string)
  {
    predicate Gap() {
      Blank? || LineComment? || BlockComment?
    }

    function Source(): string {
      match this
      case Word(text) => text
      case Punct(c) => [c]
      case Operator(c) => [c]
      case Literal(q, body) => [q] + body + [q]
      case Blank(text) => text
      case LineComment(body) => "--" + body + "\n"
      case BlockComment(body) => "/" + "*" + body + "*" + "/"
    }

    predicate Wellformed() {
      match this
      case Word(text) => text != "" && Plain(text)
      case Punct(c) => IsPunct(c) && !IsQuote(c) && !MayOpen(c)
      case Operator(c) => MayOpen(c)
      case Literal(q, _) => IsQuote(q)
      case Blank(text) => text != "" && forall c <- text :: IsSpace(c)
      case LineComment(body) => '\n' !in body
      case BlockComment(body) => !Closes(body)
    }
  }

  predicate AllWellformed(ts: seq<Token>) {
    forall i :: 0 <= i < |ts| ==> ts[i].Wellformed()
  }

  /** Neither white space nor punctuation. */
  predicate Plain(text: string) {
    forall c <- text :: !IsSpace(c) && !IsPunct(c)
  }

  /** Some '/' follows some '*': the source ends a block comment at the first such '/'. */
  predicate Closes(body: string) {
    exists i, j :: 0 <= i < j < |body| && body[i] == '*' && body[j] == '/'
  }

  function Source(ts: seq<Token>): string {
    if ts == [] then "" else ts[0].Source() + Source(ts[1..])
  }

  /** A literal comes out as it is and leaves no quote open behind. `shielded` says that the rune
      written last is a backslash, so that its first quote opens nothing. */
  predicate Lands(q: char, body: string, shielded: bool) {
    var open := if shielded then NUL else q;
    Tidy(open, q, body + [q]) && Open(open, q, body + [q]) == NUL
  }

  /** The token may follow an operator `held` back: white space may, and a visible token that
      does not make a comment opener of it. Where nothing is held, anything may but a literal
      that does not land. */
  predicate Follows(held: char, shielded: bool, t: Token) {
    && (held != NUL ==> t.Blank? || (!t.Gap() && t.Source() != "" && !Opens(held, t.Source()[0])))
    && (t.Literal? ==> Lands(t.q, t.body, shielded))
  }

  /** What is held back after the token, when it follows. */
  function HeldAfter(held: char, t: Token): char {
    if t.Blank? then held else if t.Operator? && held == NUL then t.c else NUL
  }

  /** Whether the rune written last is a backslash then. */
  predicate ShieldedAfter(held: char, shielded: bool, t: Token) {
    if t.Gap() || (t.Operator? && held == NUL) then shielded
    else t.Word? && t.text != "" && t.text[|t.text| - 1] == '\\'
  }

  /** Every token follows. */
  predicate Chained(ts: seq<Token>, held: char, shielded: bool) {
    if ts == [] then true
    else
      && Follows(held, shielded, ts[0])
      && Chained(ts[1..], HeldAfter(held, ts[0]), ShieldedAfter(held, shielded, ts[0]))
  }

  /** The operator still held back after the last token, or NUL. */
  function Dangling(ts: seq<Token>, held: char): char {
    if ts == [] then held
    else Dangling(ts[1..], HeldAfter(held, ts[0]))
  }

  /** The meaning: visible tokens verbatim, and one space where a gap separates two
      runes that are not punctuation. `last` is the rune before, `gap` that a gap precedes. */
  function Meaning(ts: seq<Token>, last: char, gap: bool): string
    requires AllWellformed(ts)
  {
    if ts == [] then ""
    else if ts[0].Gap() then Meaning(ts[1..], last, true)
    else
      var text := ts[0].Source();
      (if gap && !IsPunct(last) && !IsPunct(text[0]) then " " else "")
      + text + Meaning(ts[1..], text[|text| - 1], false)
  }

  // ---- One token at a time ----

  /** Outside comments and literals, with `hold` and `space` pending. */
  predicate InCode(s: Scan) {
    s.comment == NUL && s.quote == NUL && (s.hold == NUL || MayOpen(s.hold))
  }

  predicate Shielded(s: Scan) {
    s.last == '\\'
  }

  /** The last rune written, once the held one is. */
  function Last(s: Scan): char {
    if s.hold != NUL then s.hold else s.last
  }

  /** What is written, with the held rune. */
  function Out(s: Scan): string {
    s.out + (if s.hold != NUL then [s.hold] else "")
  }

  /** The space that separates pending text from `c`. */
  function Lead(s: Scan, c: char): string {
    if s.space && !IsPunct(Last(s)) && !IsPunct(c) then " " else ""
  }

  lemma {:induction false} EmitCode(s: Scan, c: char)
    requires InCode(s) && !Suppressed(s, c) && !IsSpace(c)
    ensures Step(s, c) == Scan(Out(s) + Lead(s, c) + [c], c, NUL, false, QuoteAfter(s, c), NUL)
  {
    assert s.out + Chunk(s, c) == Out(s) + Lead(s, c) + [c];
  }

  lemma {:induction false} RunWord(s: Scan, text: string)
    requires InCode(s) && text != "" && Plain(text)
    ensures Run(s, text) == Scan(Out(s) + Lead(s, text[0]) + text, text[|text| - 1], NUL, false, NUL, NUL)
  {
    var front, c := text[..|text| - 1], text[|text| - 1];
    assert c in text && forall r <- front :: r in text;
    if front == [] {
      EmitCode(s, c);
      assert text == [c];
    } else {
      RunWord(s, front);
      var t := Run(s, front);
      EmitCode(t, c);
      assert Out(s) + Lead(s, text[0]) + front + "" + [c] == Out(s) + Lead(s, text[0]) + text;
    }
  }

  lemma {:induction false} RunBlank(s: Scan, text: string)
    requires InCode(s) && Blank(text).Wellformed()
    ensures Run(s, text) == s.(space := true)
  {
    var front, c := text[..|text| - 1], text[|text| - 1];
    assert c in text && forall r <- front :: r in text;
    if front != [] {
      RunBlank(s, front);
    }
  }

  lemma {:induction false} Associate(a: string, b: string, c: string, d: string)
    ensures a + b + c + d == a + (b + c + d)
  {
  }

  /** A literal in code is read from the state that its first quote leads to. */
  lemma {:induction false} EnterLiteral(s: Scan, q: char, body: string)
    requires InCode(s) && IsQuote(q)
    ensures Run(s, [q] + body + [q]) == Run(Begin(Out(s) + [q], if Shielded(s) then NUL else q, q), body + [q])
    ensures Out(s) + ([q] + body + [q]) == Out(s) + [q] + (body + [q])
  {
    RunOne(s, q);
    EmitCode(s, q);
    assert Out(s) + "" + [q] == Out(s) + [q];
    Grouped(q, body);
    RunConcat(s, [q], body + [q]);
  }

  lemma {:induction false} RunLiteral(s: Scan, q: char, body: string)
    requires InCode(s) && IsQuote(q) && Lands(q, body, Shielded(s))
    ensures Run(s, [q] + body + [q]) == Scan(Out(s) + ([q] + body + [q]), q, NUL, false, NUL, NUL)
  {
    EnterLiteral(s, q, body);
    TidyReached(Out(s) + [q], if Shielded(s) then NUL else q, q, body + [q]);
  }

  /** A literal that does not land is changed, or leaves a quote open. */
  lemma {:induction false} LiteralStrays(s: Scan, q: char, body: string)
    requires InCode(s) && IsQuote(q) && !Lands(q, body, Shielded(s))
    ensures var t := Run(s, [q] + body + [q]);
      t.quote != NUL || Out(t) != Out(s) + ([q] + body + [q])
  {
    var open := if Shielded(s) then NUL else q;
    EnterLiteral(s, q, body);
    ClosingQuote(open, q, body);
    if Tidy(open, q, body + [q]) {
      TidyReached(Out(s) + [q], open, q, body + [q]);
    } else {
      UntidyRun(Out(s) + [q], open, q, body + [q]);
      DoomedEnd(Run(Begin(Out(s) + [q], open, q), body + [q]), Out(s) + [q] + (body + [q]));
    }
  }

  lemma {:induction false} RunLine(s: Scan, body: string)
    requires s.comment == '-' && '\n' !in body
    ensures Run(s, body) == s
  {
    if body != [] {
      var front := body[..|body| - 1];
      assert forall r <- front :: r in body;
      RunLine(s, front);
    }
  }

  lemma {:induction false} ClosesFront(body: string)
    requires body != []
    ensures Closes(body[..|body| - 1]) ==> Closes(body)
  {
    var front := body[..|body| - 1];
    if Closes(front) {
      var i, j :| 0 <= i < j < |front| && front[i] == '*' && front[j] == '/';
      assert body[i] == '*' && body[j] == '/';
    }
  }

  lemma {:induction false} RunBlock(s: Scan, body: string)
    requires s.comment == '*' && s.hold == NUL && !Closes(body)
    ensures Run(s, body) == s.(hold := if '*' in body then '*' else NUL)
  {
    if body != [] {
      var front, c := body[..|body| - 1], body[|body| - 1];
      assert body == front + [c];
      ClosesFront(body);
      RunBlock(s, front);
      if '*' in front {
        var i :| 0 <= i < |front| && front[i] == '*';
        assert body[i] == '*' && body[|front|] == c;
      }
    }
  }

  lemma {:induction false} RunComment(s: Scan, t: Token)
    requires InCode(s) && s.hold == NUL && (t.LineComment? || t.BlockComment?) && t.Wellformed()
    ensures Run(s, t.Source()) == s.(space := true)
  {
    var a, b := if t.LineComment? then '-' else '/', if t.LineComment? then '-' else '*';
    RunOne(s, a);
    RunAppend(s, [a], b);
    var inside := Run(s, [a] + [b]);
    RunConcat(s, [a] + [b], t.body);
    if t.LineComment? {
      RunLine(inside, t.body);
      RunAppend(s, [a] + [b] + t.body, '\n');
      assert t.Source() == [a] + [b] + t.body + ['\n'];
    } else {
      RunBlock(inside, t.body);
      RunAppend(s, [a] + [b] + t.body, '*');
      RunAppend(s, [a] + [b] + t.body + ['*'], '/');
      assert t.Source() == [a] + [b] + t.body + ['*'] + ['/'];
    }
  }

  // ---- The token list ----

  /** Next to punctuation a gap leaves no trace. */
  lemma {:induction false} GapAtPunct(ts: seq<Token>, last: char)
    requires AllWellformed(ts)
    requires IsPunct(last)
    ensures Meaning(ts, last, true) == Meaning(ts, last, false)
  {
    if ts != [] && ts[0].Gap() {
      GapAtPunct(ts[1..], last);
    }
  }

  lemma {:induction false} RunTokens(s: Scan, ts: seq<Token>)
    requires AllWellformed(ts)
    requires InCode(s) && Chained(ts, s.hold, Shielded(s))
    ensures Out(Run(s, Source(ts))) == Out(s) + Meaning(ts, Last(s), s.space)
    ensures Run(s, Source(ts)).hold == Dangling(ts, s.hold) && InCode(Run(s, Source(ts)))
    decreases ts
  {
    if ts == [] {
      assert Out(s) + "" == Out(s);
    } else {
      var t, rest := ts[0], ts[1..];
      RunConcat(s, t.Source(), Source(rest));
      RunToken(s, t);
      var next := Run(s, t.Source());
      RunTokens(next, rest);
      MeaningStep(s, t, next, ts);
    }
  }

  /** Once the first token is read, the meaning of the others is still to come. */
  lemma {:induction false} MeaningStep(s: Scan, t: Token, next: Scan, ts: seq<Token>)
    requires AllWellformed(ts) && ts != [] && ts[0] == t && Advances(s, t, next)
    ensures Out(s) + Meaning(ts, Last(s), s.space) == Out(next) + Meaning(ts[1..], Last(next), next.space)
  {
    var rest := ts[1..];
    if !t.Gap() {
      var lead, text := Lead(s, t.Source()[0]), t.Source();
      if next.space {
        GapAtPunct(rest, Last(next));
      }
      Associate(Out(s), lead, text, Meaning(rest, Last(next), false));
    }
  }

  /** What one token does: a gap leaves a pending space, an operator is held back, and any
      visible token is written with the space that the pending gap asks for. */
  predicate Advances(s: Scan, t: Token, next: Scan) {
    && InCode(next)
    && next.hold == HeldAfter(s.hold, t) && Shielded(next) == ShieldedAfter(s.hold, Shielded(s), t)
    && (t.Gap() ==> next == s.(space := true))
    && (!t.Gap() ==> |t.Source()| > 0 && Last(next) == t.Source()[|t.Source()| - 1]
                     && Out(next) == Out(s) + Lead(s, t.Source()[0]) + t.Source())
    && (!t.Gap() && !t.Operator? ==> !next.space)
  }

  lemma {:induction false} WrittenAdvances(s: Scan, t: Token, next: Scan)
    requires !t.Gap() && |t.Source()| > 0 && (t.Operator? ==> s.hold != NUL)
    requires var text := t.Source();
      next == Scan(Out(s) + Lead(s, text[0]) + text, text[|text| - 1], NUL, false, NUL, NUL)
    requires Shielded(next) == ShieldedAfter(s.hold, Shielded(s), t)
    ensures Advances(s, t, next)
  {
    assert next.out + "" == next.out;
  }

  lemma {:induction false} RunOperator(s: Scan, c: char)
    requires InCode(s) && MayOpen(c) && !Opens(s.hold, c)
    ensures Advances(s, Operator(c), Run(s, [c]))
  {
    RunOne(s, c);
    if s.hold != NUL {
      EmitCode(s, c);
      WrittenAdvances(s, Operator(c), Step(s, c));
    } else {
      assert Out(s) + "" + [c] == s.out + [c];
    }
  }

  lemma {:induction false} WordAdvances(s: Scan, text: string)
    requires InCode(s) && Word(text).Wellformed()
    ensures Advances(s, Word(text), Run(s, text))
  {
    RunWord(s, text);
    WrittenAdvances(s, Word(text), Run(s, text));
  }

  lemma {:induction false} PunctAdvances(s: Scan, c: char)
    requires InCode(s) && Punct(c).Wellformed() && !Opens(s.hold, c)
    ensures Advances(s, Punct(c), Run(s, [c]))
  {
    RunOne(s, c);
    EmitCode(s, c);
    WrittenAdvances(s, Punct(c), Run(s, [c]));
  }

  lemma {:induction false} LiteralAdvances(s: Scan, q: char, body: string)
    requires InCode(s) && IsQuote(q) && Lands(q, body, Shielded(s))
    ensures Advances(s, Literal(q, body), Run(s, [q] + body + [q]))
  {
    RunLiteral(s, q, body);
    assert Out(s) + "" + ([q] + body + [q]) == Out(s) + ([q] + body + [q]);
    WrittenAdvances(s, Literal(q, body), Run(s, [q] + body + [q]));
  }

  lemma {:induction false} RunToken(s: Scan, t: Token)
    requires t.Wellformed() && InCode(s)
    requires Follows(s.hold, Shielded(s), t)
    ensures Advances(s, t, Run(s, t.Source()))
  {
    match t
    case Word(text) =>
      WordAdvances(s, text);
    case Punct(c) =>
      PunctAdvances(s, c);
    case Operator(c) =>
      RunOperator(s, c);
    case Literal(q, body) =>
      LiteralAdvances(s, q, body);
    case Blank(text) =>
      RunBlank(s, text);
    case _ =>
      RunComment(s, t);
  }

  /** Compacting a token list yields its meaning, exactly unless the list ends in an operator
      that is still held back: that operator, and nothing else, is lost. */
  lemma TokenMeaning(ts: seq<Token>)
    requires AllWellformed(ts) && Chained(ts, NUL, false)
    ensures Meaning(ts, NUL, false)
         == Compact(Source(ts)) + if Dangling(ts, NUL) != NUL then [Dangling(ts, NUL)] else ""
    ensures Compact(Source(ts)) == Meaning(ts, NUL, false) <==> Dangling(ts, NUL) == NUL
  {
    RunTokens(INIT, ts);
    assert Out(INIT) + Meaning(ts, NUL, false) == Meaning(ts, NUL, false);
  }

  // ---- When the meaning fails ----

  /** What is written stays written. */
  lemma {:induction false} OutGrows(s: Scan, input: string)
    ensures |s.out| <= |Run(s, input).out|
  {
    if input != [] {
      OutGrows(s, input[..|input| - 1]);
    }
  }

  /** A comment whose first rune opens nothing with the held operator: that rune is written. */
  lemma {:induction false} CommentWritten(s: Scan, t: Token)
    requires InCode(s) && s.hold != NUL && t.Wellformed() && t.Gap() && !t.Blank?
    requires !Opens(s.hold, t.Source()[0])
    ensures |Out(Run(s, t.Source()))| > |Out(s)|
  {
    var c, rest := t.Source()[0], t.Source()[1..];
    assert t.Source() == [c] + rest;
    RunOne(s, c);
    EmitCode(s, c);
    RunConcat(s, [c], rest);
    OutGrows(Step(s, c), rest);
  }

  /** A line comment after a held '-': the first two of the three runes make the opener. */
  lemma {:induction false} OperatorSwallowed(s: Scan, body: string)
    requires InCode(s) && s.hold == '-' && '\n' !in body
    ensures Out(Run(s, LineComment(body).Source())) == s.out
  {
    var inside, line := s.(hold := NUL, comment := '-'), ['-'] + body;
    LineSource(body);
    RunOne(s, '-');
    assert Step(s, '-') == inside;
    RunLine(inside, line);
    RunConcat(s, ['-'], line);
    RunAppend(s, ['-'] + line, '\n');
    assert Step(inside, '\n').out == s.out && Step(inside, '\n').hold == NUL;
    assert s.out + "" == s.out;
  }

  lemma {:induction false} LineSource(body: string)
    ensures LineComment(body).Source() == ['-'] + (['-'] + body) + ['\n']
  {
  }

  /** Between two tokens, with the meaning so far written, a held operator included. */
  ghost predicate KeepsUp(ts: seq<Token>)
    requires AllWellformed(ts)
  {
    var s := Run(INIT, Source(ts));
    s.comment == NUL && s.quote == NUL && Out(s) == Meaning(ts, NUL, false)
  }

  /** Where the scanner does not follow, the written text is too short or too long; after a
      literal, it may be that a quote stays open instead. */
  lemma {:induction false} Strays(s: Scan, t: Token)
    requires InCode(s) && t.Wellformed() && !Follows(s.hold, Shielded(s), t)
    ensures Out(Run(s, t.Source())) != Out(s) + Meaning([t], Last(s), s.space)
            || (t.Literal? && Run(s, t.Source()).quote != NUL)
  {
    assert [t][1..] == [];
    if t.Literal? {
      LiteralStrays(s, t.q, t.body);
      assert Meaning([t], Last(s), s.space) == t.Source();
    } else if t.Gap() {
      GapStrays(s, t);
    } else {
      OpenerStrays(s, t);
    }
  }

  /** A gap after a held operator takes it away, or is written. */
  lemma {:induction false} GapStrays(s: Scan, t: Token)
    requires InCode(s) && t.Wellformed() && t.Gap() && !Follows(s.hold, Shielded(s), t)
    ensures Out(Run(s, t.Source())) != Out(s)
  {
    if t.LineComment? && s.hold == '-' {
      OperatorSwallowed(s, t.body);
      assert |Out(s) + ""| > |s.out|;
    } else {
      CommentWritten(s, t);
      assert |Out(s) + ""| == |Out(s)|;
    }
  }

  /** A visible token that opens a comment takes the held operator away. */
  lemma {:induction false} OpenerStrays(s: Scan, t: Token)
    requires InCode(s) && t.Wellformed() && !t.Literal? && !t.Gap() && !Follows(s.hold, Shielded(s), t)
    ensures |Out(Run(s, t.Source()))| < |Out(s)|
  {
    var c := t.Source()[0];
    assert Opens(s.hold, c) && IsPunct(c) && !IsQuote(c);
    assert c in t.Source();
    assert t.Source() == [c];
    RunOne(s, c);
    assert Out(Step(s, c)) == s.out + "" == s.out;
    assert |Out(s)| == |s.out| + 1;
  }

  lemma {:induction false} SourceStep(ts: seq<Token>, k: nat)
    requires 0 < k <= |ts|
    ensures ts[..k] == [ts[0]] + ts[1..][..k - 1] && ts[..k][1..] == ts[1..][..k - 1]
    ensures Source(ts[..k]) == ts[0].Source() + Source(ts[1..][..k - 1])
  {
    assert ts[..k][1..] == ts[1..][..k - 1];
  }

  /** Words that do not end in a backslash, and literals in which no comment opens, quotes come
      only after backslashes, and the closing quote is not protected. */
  predicate Strict(t: Token) {
    && (t.Word? ==> t.text != "" && t.text[|t.text| - 1] != '\\')
    && (t.Literal? ==> Escaped(t.body) && Pending(t.body).Some? && LastIn(t.q, t.body) != '\\')
  }

  lemma {:induction false} StrictLands(t: Token)
    requires t.Wellformed() && Strict(t) && t.Literal?
    ensures Lands(t.q, t.body, false)
  {
    EscapedNoneBare(t.q, t.body);
    StaysOpen(t.q, t.q, t.body);
    ClosingQuote(t.q, t.q, t.body);
    assert (t.body + [t.q])[..|t.body|] == t.body;
  }

  /** After `k` tokens the written text is not the meaning. */
  ghost predicate Misses(s: Scan, ts: seq<Token>, k: nat)
    requires AllWellformed(ts) && k <= |ts|
  {
    Out(Run(s, Source(ts[..k]))) != Out(s) + Meaning(ts[..k], Last(s), s.space)
  }

  /** Reading on after the first token: the same state is reached, and it misses or not alike. */
  lemma {:induction false} AfterFirst(s: Scan, ts: seq<Token>, j: nat)
    requires AllWellformed(ts) && ts != [] && InCode(s) && Follows(s.hold, Shielded(s), ts[0]) && j < |ts|
    ensures Run(s, Source(ts[..j + 1])) == Run(Run(s, ts[0].Source()), Source(ts[1..][..j]))
    ensures Misses(s, ts, j + 1) <==> Misses(Run(s, ts[0].Source()), ts[1..], j)
  {
    var t, rest := ts[0], ts[1..];
    RunToken(s, t);
    SourceStep(ts, j + 1);
    RunConcat(s, t.Source(), Source(rest[..j]));
    MeaningStep(s, t, Run(s, t.Source()), ts[..j + 1]);
  }

  /** The rest is not chained either. */
  lemma {:induction false} RestStrays(s: Scan, ts: seq<Token>)
    requires AllWellformed(ts) && ts != [] && InCode(s) && Follows(s.hold, Shielded(s), ts[0])
    requires !Chained(ts, s.hold, Shielded(s))
    ensures var next := Run(s, ts[0].Source());
      && InCode(next) && !Chained(ts[1..], next.hold, Shielded(next))
      && Shielded(next) == ShieldedAfter(s.hold, Shielded(s), ts[0])
  {
    RunToken(s, ts[0]);
  }

  lemma {:induction false} OnlyFirst(ts: seq<Token>)
    requires ts != []
    ensures ts[..1] == [ts[0]] && Source(ts[..1]) == ts[0].Source()
  {
    SourceStep(ts, 1);
    assert ts[1..][..0] == [] && ts[0].Source() + "" == ts[0].Source();
  }

  lemma {:induction false} StraysFirst(s: Scan, ts: seq<Token>)
    requires AllWellformed(ts) && ts != [] && InCode(s) && !Follows(s.hold, Shielded(s), ts[0])
    ensures Misses(s, ts, 1) || (ts[0].Literal? && Run(s, Source(ts[..1])).quote != NUL)
  {
    OnlyFirst(ts);
    Strays(s, ts[0]);
  }

  /** In a list that is not chained the scanner falls behind after some token: the meaning fails
      or a quote stays open. */
  lemma {:induction false} FirstStray(s: Scan, ts: seq<Token>) returns (k: nat)
    requires AllWellformed(ts) && InCode(s) && !Chained(ts, s.hold, Shielded(s))
    ensures k <= |ts| && (Misses(s, ts, k) || Run(s, Source(ts[..k])).quote != NUL)
    decreases |ts|
  {
    if Follows(s.hold, Shielded(s), ts[0]) {
      RestStrays(s, ts);
      var j := FirstStray(Run(s, ts[0].Source()), ts[1..]);
      AfterFirst(s, ts, j);
      k := j + 1;
    } else {
      StraysFirst(s, ts);
      k := 1;
    }
  }

  /** A strict literal never strays. */
  lemma {:induction false} StrictFirst(s: Scan, ts: seq<Token>)
    requires AllWellformed(ts) && ts != [] && InCode(s) && !Shielded(s)
    requires Strict(ts[0]) && !Follows(s.hold, false, ts[0])
    ensures Misses(s, ts, 1)
  {
    StraysFirst(s, ts);
    if ts[0].Literal? {
      StrictLands(ts[0]);
    }
  }

  /** Where the list is strict, it is the meaning that fails. */
  lemma {:induction false} StrictStray(s: Scan, ts: seq<Token>) returns (k: nat)
    requires AllWellformed(ts) && InCode(s) && !Shielded(s) && !Chained(ts, s.hold, false)
    requires forall i :: 0 <= i < |ts| ==> Strict(ts[i])
    ensures k <= |ts| && Misses(s, ts, k)
    decreases |ts|
  {
    assert Strict(ts[0]);
    if Follows(s.hold, false, ts[0]) {
      RestStrays(s, ts);
      var j := StrictStray(Run(s, ts[0].Source()), ts[1..]);
      AfterFirst(s, ts, j);
      k := j + 1;
    } else {
      StrictFirst(s, ts);
      k := 1;
    }
  }

  lemma {:induction false} ChainedFront(ts: seq<Token>, held: char, shielded: bool, k: nat)
    requires Chained(ts, held, shielded) && k <= |ts|
    ensures Chained(ts[..k], held, shielded)
    decreases ts
  {
    if k > 0 {
      assert ts[..k][1..] == ts[1..][..k - 1] && ts[..k][0] == ts[0];
      ChainedFront(ts[1..], HeldAfter(held, ts[0]), ShieldedAfter(held, shielded, ts[0]), k - 1);
    }
  }

  lemma {:induction false} ChainedKeepsUp(ts: seq<Token>)
    requires AllWellformed(ts) && Chained(ts, NUL, false)
    ensures KeepsUp(ts)
  {
    RunTokens(INIT, ts);
    assert Out(INIT) + Meaning(ts, NUL, false) == Meaning(ts, NUL, false);
  }

  /** The scanner keeps up with the tokens, one by one, exactly when the list is chained. */
  lemma {:induction false} TokenMeaningExactly(ts: seq<Token>)
    requires AllWellformed(ts)
    ensures Chained(ts, NUL, false) <==> forall k: nat :: k <= |ts| ==> KeepsUp(ts[..k])
  {
    if Chained(ts, NUL, false) {
      forall k: nat | k <= |ts|
        ensures KeepsUp(ts[..k])
      {
        ChainedFront(ts, NUL, false, k);
        ChainedKeepsUp(ts[..k]);
      }
    } else {
      var k := FirstStray(INIT, ts);
      assert Out(INIT) + Meaning(ts[..k], NUL, false) == Meaning(ts[..k], NUL, false);
      assert !KeepsUp(ts[..k]);
    }
  }

  /** In a strict list the written text alone tells: it is the meaning after every token exactly
      when the list is chained. */
  lemma {:induction false} StrictMeaningExactly(ts: seq<Token>)
    requires AllWellformed(ts) && forall i :: 0 <= i < |ts| ==> Strict(ts[i])
    ensures Chained(ts, NUL, false) <==>
            forall k: nat :: k <= |ts| ==> Out(Run(INIT, Source(ts[..k]))) == Meaning(ts[..k], NUL, false)
  {
    if Chained(ts, NUL, false) {
      forall k: nat | k <= |ts|
        ensures Out(Run(INIT, Source(ts[..k]))) == Meaning(ts[..k], NUL, false)
      {
        ChainedFront(ts, NUL, false, k);
        ChainedKeepsUp(ts[..k]);
      }
    } else {
      var k := StrictStray(INIT, ts);
      assert Out(INIT) + Meaning(ts[..k], NUL, false) == Meaning(ts[..k], NUL, false);
    }
  }

  // ---- After an operator ----

  /** Reading a rune, in code with nothing pending, that is written at once. */
  lemma {:induction false} ReadText(out: string, last: char, c: char, read: string)
    requires Run(INIT, read) == Code(out, last, NUL, false)
    requires !IsQuote(c) && !IsSpace(c) && !MayOpen(c)
    ensures Run(INIT, read + [c]) == Code(out + [c], c, NUL, false)
  {
    RunAppend(INIT, read, c);
    assert out + ([] + "" + [c]) == out + [c];
  }

  /** An operator that a solidus follows, after white space, is written with it, and the solidus
      is not held back. */
  lemma {:induction false} ReadOperator()
    ensures Run(INIT, "- /") == Code("-/", '/', NUL, false)
  {
    RunAppend(INIT, "", '-');
    RunAppend(INIT, "" + ['-'], ' ');
    RunAppend(INIT, "" + ['-'] + [' '], '/');
    assert Run(INIT, "" + ['-'] + [' ']) == Code("", NUL, '-', true);
    assert "" + ['-'] + [' '] + ['/'] == "- /" && "" + (['-'] + "" + ['/']) == "-/";
  }

  /** A comment after an operator that is still held back is written out as text, even though
      the operator opens nothing: the rune that would begin the comment is not held. */
  lemma {:induction false} OperatorBeforeComment()
    ensures Compact("- /*c*/") == "-/*c*"
  {
    ReadOperator();
    ReadText("-/", '/', '*', "- /");
    ReadText("-/" + ['*'], '*', 'c', "- /" + ['*']);
    ReadText("-/" + ['*'] + ['c'], 'c', '*', "- /" + ['*'] + ['c']);
    var read, out := "- /" + ['*'] + ['c'] + ['*'], "-/" + ['*'] + ['c'] + ['*'];
    RunAppend(INIT, read, '/');
    assert read + ['/'] == "- /*c*/" && out == "-/*c*";
  }
}
