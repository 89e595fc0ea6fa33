/** What the compactor does with each kind of rune, with the runes themselves spelled out. */
module CompactRunes {
  import opened CompactSql
  import opened CompactProofs

  const WHITE: string := "\t\n\U{0B}\U{0C}\r \U{85}\U{A0}"
  const MARKS: string := "\0,()[];+*<>=~!@#%^&|"
  const QUOTES: string := "'\""
  const OPERATORS: string := "-/"

  /** Neither white space, nor punctuation of any kind. */
  predicate Ordinary(c: char) {
    c !in WHITE && c !in MARKS && c !in QUOTES && c !in OPERATORS
  }

  /** Ordinary, or punctuation that is neither quote nor operator. */
  predicate Simple(c: char) {
    c !in WHITE && c !in QUOTES && c !in OPERATORS
  }

  lemma {:induction false} Kinds(c: char)
    ensures IsSpace(c) <==> c in WHITE
    ensures IsQuote(c) <==> c in QUOTES
    ensures MayOpen(c) <==> c in OPERATORS
    ensures IsPunct(c) <==> c in MARKS || c in QUOTES || c in OPERATORS
  {
    InWhite(c);
    InMarks(c);
  }

  lemma {:induction false} InWhite(c: char)
    ensures c in WHITE <==> c == '\t' || c == '\n' || c == '\U{0B}' || c == '\U{0C}' || c == '\r' || c == ' '
                            || c == '\U{85}' || c == '\U{A0}'
  {
    var w := WHITE;
    assert w[0] == '\t' && w[1] == '\n' && w[2] == '\U{0B}' && w[3] == '\U{0C}' && w[4] == '\r' && w[5] == ' ';
    assert w[6] == '\U{85}' && w[7] == '\U{A0}';
  }

  lemma {:induction false} InMarks(c: char)
    ensures c in MARKS <==>
            || c == '\0' || c == ',' || c == '(' || c == ')' || c == '[' || c == ']' || c == ';'
            || c == '+' || c == '*' || c == '<' || c == '>' || c == '=' || c == '~' || c == '!'
            || c == '@' || c == '#' || c == '%' || c == '^' || c == '&' || c == '|'
  {
    var m := MARKS;
    assert m[0] == '\0' && m[1] == ',' && m[2] == '(' && m[3] == ')' && m[4] == '[' && m[5] == ']' && m[6] == ';';
    assert m[7] == '+' && m[8] == '*' && m[9] == '<' && m[10] == '>' && m[11] == '=' && m[12] == '~' && m[13] == '!';
    assert m[14] == '@' && m[15] == '#' && m[16] == '%' && m[17] == '^' && m[18] == '&' && m[19] == '|';
  }

  // ---- Reading one rune in code ----

  function Code(out: string, last: char, hold: char, space: bool): Scan {
    Scan(out, last, hold, space, NUL, NUL)
  }

  /** A simple rune is written, after a blank if a gap is pending between ordinary runes. */
  lemma {:induction false} ReadSimple(read: string, out: string, last: char, space: bool, c: char)
    requires Run(INIT, read) == Code(out, last, NUL, space) && Simple(c)
    ensures Run(INIT, read + [c]) ==
            Code(out + (if space && Spaces(last, c) then [' ', c] else [c]), c, NUL, false)
  {
    RunAppend(INIT, read, c);
    Kinds(c);
    Kinds(last);
  }

  /** Neither rune is punctuation; the first may be anything else. */
  predicate Spaces(last: char, c: char) {
    last !in MARKS && last !in QUOTES && last !in OPERATORS && c !in MARKS
  }

  lemma {:induction false} ReadWhite(read: string, out: string, last: char, hold: char, space: bool, w: char)
    requires Run(INIT, read) == Code(out, last, hold, space) && w in WHITE
    ensures Run(INIT, read + [w]) == Code(out, last, hold, true)
  {
    RunAppend(INIT, read, w);
    Kinds(w);
    InWhite(w);
  }

  lemma {:induction false} HoldOperator(read: string, out: string, last: char, space: bool, p: char)
    requires Run(INIT, read) == Code(out, last, NUL, space) && p in OPERATORS
    ensures Run(INIT, read + [p]) == Code(out, last, p, space)
  {
    RunAppend(INIT, read, p);
    Kinds(p);
  }

  /** After an operator that it makes no comment of, a simple rune is written with it. */
  lemma {:induction false} ReadAfterOperator(read: string, out: string, last: char, p: char, space: bool, c: char)
    requires Run(INIT, read) == Code(out, last, p, space) && p in OPERATORS
    requires Simple(c) && (p == '/' ==> c != '*')
    ensures Run(INIT, read + [c]) == Code(out + [p, c], c, NUL, false)
  {
    RunAppend(INIT, read, c);
    Kinds(c);
    Kinds(p);
  }

  lemma {:induction false} ReadFirst(a: char)
    requires Simple(a)
    ensures Run(INIT, [a]) == Code([a], a, NUL, false)
  {
    ReadSimple([], [], NUL, false, a);
    assert [] + [a] == [a];
  }

  // ---- What comes out ----

  /** One white-space rune between two simple ones: a blank where neither is a mark, else nothing. */
  lemma {:induction false} WhiteBetween(a: char, w: char, b: char)
    requires Simple(a) && Simple(b) && w in WHITE
    ensures Compact([a, w, b]) == if a in MARKS || b in MARKS then [a, b] else [a, ' ', b]
  {
    ReadFirst(a);
    ReadWhite([a], [a], a, NUL, false, w);
    ReadSimple([a] + [w], [a], a, true, b);
    assert [a] + [w] + [b] == [a, w, b];
  }

  /** More white space makes no difference. */
  lemma {:induction false} WhitesBetween(a: char, v: char, w: char, b: char)
    requires Simple(a) && Simple(b) && v in WHITE && w in WHITE
    ensures Compact([a, v, w, b]) == if a in MARKS || b in MARKS then [a, b] else [a, ' ', b]
  {
    ReadFirst(a);
    ReadWhite([a], [a], a, NUL, false, v);
    ReadWhite([a] + [v], [a], a, NUL, true, w);
    ReadSimple([a] + [v] + [w], [a], a, true, b);
    assert [a] + [v] + [w] + [b] == [a, v, w, b];
  }

  /** Every other simple rune is copied. */
  lemma {:induction false} SimpleCopied(a: char, c: char, b: char)
    requires Simple(a) && Simple(c) && Simple(b)
    ensures Compact([a, c, b]) == [a, c, b]
  {
    ReadFirst(a);
    ReadSimple([a], [a], a, false, c);
    ReadSimple([a] + [c], [a] + [c], c, false, b);
    assert [a] + [c] + [b] == [a, c, b];
  }

  /** White space at either end goes. */
  lemma {:induction false} WhiteAtEnds(w: char, a: char)
    requires Simple(a) && w in WHITE
    ensures Compact([w, a]) == [a] && Compact([a, w]) == [a]
  {
    ReadWhite([], [], NUL, NUL, false, w);
    ReadSimple([w], [], NUL, true, a);
    assert [] + [w] == [w] && [w] + [a] == [w, a];
    InMarks(NUL);
    ReadFirst(a);
    ReadWhite([a], [a], a, NUL, false, w);
    assert [a] + [w] == [a, w];
  }

  /** White space around an operator goes. */
  lemma {:induction false} WhiteAtOperator(a: char, w: char, p: char, b: char)
    requires Simple(a) && Simple(b) && w in WHITE && p in OPERATORS && (p == '/' ==> b != '*')
    ensures Compact([a, w, p, b]) == [a, p, b] && Compact([a, p, w, b]) == [a, p, b]
  {
    ReadFirst(a);
    ReadWhite([a], [a], a, NUL, false, w);
    HoldOperator([a] + [w], [a], a, true, p);
    ReadAfterOperator([a] + [w] + [p], [a], a, p, true, b);
    assert [a] + [w] + [p] + [b] == [a, w, p, b] && [a] + [p, b] == [a, p, b];
    HoldOperator([a], [a], a, false, p);
    ReadWhite([a] + [p], [a], a, p, false, w);
    ReadAfterOperator([a] + [p] + [w], [a], a, p, true, b);
    assert [a] + [p] + [w] + [b] == [a, p, w, b];
  }

  /** White space between quotes of one kind stays. */
  lemma {:induction false} WhiteInQuotes(q: char, v: char, w: char)
    requires q in QUOTES && v in WHITE && w in WHITE
    ensures Compact([q] + [v] + [w] + [q]) == [q] + [v] + [w] + [q]
  {
    WhiteOnly(v);
    WhiteOnly(w);
    ReadQuote(q);
    ReadQuoted([q], q, q, v);
    ReadQuoted([q] + [v], q, v, w);
    CloseQuote([q] + [v] + [w], q, w);
  }

  lemma {:induction false} WhiteOnly(w: char)
    requires w in WHITE
    ensures w !in QUOTES && w !in OPERATORS && w != '\\'
  {
    InWhite(w);
  }

  lemma {:induction false} CloseQuote(read: string, q: char, last: char)
    requires Run(INIT, read) == Scan(read, last, NUL, false, q, NUL) && q in QUOTES
    ensures Compact(read + [q]) == read + [q]
  {
    RunAppend(INIT, read, q);
    Kinds(q);
    assert read + ([] + "" + [q]) == read + [q];
  }

  lemma {:induction false} ReadQuote(q: char)
    requires q in QUOTES
    ensures Run(INIT, [q]) == Scan([q], q, NUL, false, q, NUL)
  {
    RunOne(INIT, q);
    Kinds(q);
    assert "" + ([] + "" + [q]) == [q];
  }

  lemma {:induction false} ReadQuoted(read: string, q: char, last: char, c: char)
    requires Run(INIT, read) == Scan(read, last, NUL, false, q, NUL)
    requires q in QUOTES && c !in QUOTES && c !in OPERATORS
    ensures Run(INIT, read + [c]) == Scan(read + [c], c, NUL, false, q, NUL)
  {
    RunAppend(INIT, read, c);
    Kinds(c);
    Kinds(q);
    assert read + ([] + "" + [c]) == read + [c];
  }

  /** "t 1" keeps its blank, as in "limit 1". */
  lemma {:induction false} DigitKept()
    ensures Compact("t 1") == "t 1"
  {
    OrdinaryRune('t');
    OrdinaryRune('1');
    WhiteBetween('t', ' ', '1');
    assert ' ' in WHITE by {
      InWhite(' ');
    }
    assert ['t', ' ', '1'] == "t 1";
  }

  /** Letters, digits, and the runes '_', ':', '.', '$' are ordinary. */
  lemma {:induction false} OrdinaryRune(c: char)
    requires 'a' <= c <= 'z' || 'A' <= c <= 'Z' || '0' <= c <= '9' || c == '_' || c == ':' || c == '.' || c == '$'
    ensures Ordinary(c)
  {
    InWhite(c);
    InMarks(c);
  }
}
