/** The SQL compactor of infra/db/postgresx/util.go.

  Runes are Dafny characters: a Go string read rune by rune never yields a surrogate.
  The closures of `CompactSQL` share six variables and a string builder; here they are
  the fields of `Scanner`, and `Scan` is the value of those fields at one moment.
  `Step` says what reading one rune does; every method is proved against it.
 */
module CompactSql {

  /** The rune 0, which the source uses for "nothing held", "no quote", "no comment". */
  const NUL: char := '\0'

  datatype Scan = Scan(out: string, last: char, hold: char, space: bool, quote: char, comment: char)

  const INIT: Scan := Scan("", NUL, NUL, false, NUL, NUL)

  predicate IsSpace(c: char) {
    c == '\t' || c == '\n' || c == '\U{0B}' || c == '\U{0C}' || c == '\r' || c == ' '
    || c == '\U{85}' || c == '\U{A0}'
  }

  predicate IsQuote(c: char) {
    c == '\'' || c == '"'
  }

  predicate IsPunct(c: char) {
    || c == NUL
    || c == ',' || c == '(' || c == ')' || c == '[' || c == ']' || c == ';' || IsQuote(c)
    || c == '+' || c == '-' || c == '*' || c == '/' || c == '<' || c == '>' || c == '='
    || c == '~' || c == '!' || c == '@' || c == '#' || c == '%' || c == '^' || c == '&' || c == '|'
  }

  /** `c` completes a comment opener begun by `h`. */
  predicate Opens(h: char, c: char) {
    (h == '-' && c == '-') || (h == '/' && c == '*')
  }

  /** A rune that may begin a comment, so it is held back. */
  predicate MayOpen(c: char) {
    c == '-' || c == '/'
  }

  /** The rune is swallowed: it lies in a comment, opens one, or is held back. */
  predicate Suppressed(s: Scan, c: char) {
    s.comment == '-' || s.comment == '*' || Opens(s.hold, c) || (s.hold == NUL && MayOpen(c))
  }

  /** The state after a swallowed rune. */
  function Swallow(s: Scan, c: char): Scan
    requires Suppressed(s, c)
  {
    if s.comment == '-' then
      if c == '\n' then s.(space := true, comment := NUL, hold := NUL) else s
    else if s.comment == '*' then
      if s.hold == NUL && c == '*' then s.(hold := c)
      else if s.hold == '*' && c == '/' then s.(space := true, comment := NUL, hold := NUL)
      else s
    else if Opens(s.hold, c) then s.(hold := NUL, comment := c)
    else s.(hold := c)
  }

  /** The quote that is open after reading `c` outside comments. */
  function QuoteAfter(s: Scan, c: char): char {
    if !IsQuote(c) || s.last == '\\' then s.quote
    else if s.quote == c then NUL
    else c
  }

  /** `c` is copied as it is: it lies in a literal or delimits one. */
  predicate InLiteral(s: Scan, c: char) {
    s.quote != NUL || (IsQuote(c) && s.last != '\\')
  }

  /** A pending gap is rendered as one space only between two runes that are not punctuation. */
  predicate Injects(s: Scan, c: char) {
    s.space && s.hold == NUL && !IsPunct(s.last) && !IsPunct(c)
  }

  /** The runes that writing `c` adds to the output. */
  function Chunk(s: Scan, c: char): string {
    (if s.hold != NUL then [s.hold] else []) + (if Injects(s, c) then " " else "") + [c]
  }

  function Emit(s: Scan, c: char): Scan {
    s.(out := s.out + Chunk(s, c), last := c, hold := NUL, space := false, quote := QuoteAfter(s, c))
  }

  /** Reading one rune. */
  function Step(s: Scan, c: char): Scan {
    if Suppressed(s, c) then Swallow(s, c)
    else if !InLiteral(s, c) && IsSpace(c) then s.(space := true)
    else Emit(s, c)
  }

  /** Reading all of `input`, from state `s`. */
  function Run(s: Scan, input: string): Scan {
    if input == [] then s
    else Step(Run(s, input[..|input| - 1]), input[|input| - 1])
  }

  /** What `CompactSQL` returns: a rune still held at the end is not written. */
  function Compact(input: string): string {
    Run(INIT, input).out
  }

  /** A rune is held outside comments only to decide on a comment opener,
      in a block comment only to recognise its end, and in a line comment never. */
  predicate Held(s: Scan) {
    || (s.comment == NUL && (s.hold == NUL || MayOpen(s.hold)))
    || (s.comment == '-' && s.hold == NUL)
    || (s.comment == '*' && (s.hold == NUL || s.hold == '*'))
  }

  lemma {:induction false} RunHeld(input: string)
    ensures Held(Run(INIT, input))
  {
    if input != [] {
      RunHeld(input[..|input| - 1]);
    }
  }

  /** The variables that the closures of `CompactSQL` share. */
  class Scanner {
    var rune: char
    var last: char
    var hold: char
    var space: bool
    var quote: char
    var comment: char
    var w: string

    ghost function View(): Scan
      reads this
    {
      Scan(w, last, hold, space, quote, comment)
    }

    constructor ()
      ensures View() == INIT
    {
      rune, last, hold, space, quote, comment, w := NUL, NUL, NUL, false, NUL, NUL, "";
    }

    /** The comment test. It runs first and looks at neither `quote` nor `last`. */
    method IsComment() returns (yes: bool)
      requires Held(View())
      modifies this
      ensures rune == old(rune)
      ensures yes == Suppressed(old(View()), rune)
      ensures View() == if yes then Swallow(old(View()), rune) else old(View())
    {
      if comment == '-' {
        if rune == '\n' {
          space := true;
          comment := NUL;
          hold := NUL;
        }
        return true;
      }
      if comment == '*' {
        if hold == NUL && rune == '*' {
          hold := rune;
        } else if hold == '*' && rune == '/' {
          space := true;
          comment := NUL;
          hold := NUL;
        }
        return true;
      }
      if hold == '-' {
        if rune == hold {
          hold := NUL;
          comment := rune;
          return true;
        }
        return false;
      } else if hold == '/' {
        if rune == '*' {
          hold := NUL;
          comment := rune;
          return true;
        }
        return false;
      } else if hold == NUL {
        if rune != '-' && rune != '/' {
          return false;
        }
        hold := rune;
        return true;
      } else {
        return false;
      }
    }

    /** The literal test: a quote rune closes the literal it opened, and otherwise
        becomes the open quote, unless the last rune written is a backslash. */
    method IsLiteral() returns (yes: bool)
      modifies this
      ensures rune == old(rune)
      ensures yes == InLiteral(old(View()), rune)
      ensures View() == old(View()).(quote := QuoteAfter(old(View()), rune))
    {
      if !IsQuote(rune) || last == '\\' {
        return quote != NUL;
      }
      if quote == rune {
        quote := NUL;
        return true;
      }
      quote := rune;
      return true;
    }

    /** Writes the held rune, at most one space, and the current rune. */
    method Output()
      requires comment == NUL && Held(View())
      modifies this
      ensures rune == old(rune)
      ensures View() == Emit(old(View()), rune).(quote := old(quote))
    {
      if hold != NUL {
        w := w + [hold];
        last := hold;
        hold := NUL;
      }
      if space {
        space := false;
        if !IsPunct(last) && !IsPunct(rune) {
          w := w + " ";
        }
      }
      w := w + [rune];
      last := rune;
    }

    /** One turn of the main loop. */
    method Read(c: char)
      requires Held(View())
      modifies this
      ensures View() == Step(old(View()), c)
    {
      rune := c;
      var suppressed := IsComment();
      if suppressed {
        return;
      }
      var literal := IsLiteral();
      if literal {
        Output();
        return;
      }
      if IsSpace(rune) {
        space := true;
        return;
      }
      Output();
    }
  }

  method CompactSQL(s: string) returns (r: string)
    ensures r == Compact(s)
  {
    var scanner := new Scanner();
    for i := 0 to |s|
      invariant fresh(scanner)
      invariant scanner.View() == Run(INIT, s[..i])
    {
      RunHeld(s[..i]);
      assert s[..i + 1][..i] == s[..i];
      scanner.Read(s[i]);
    }
    assert s[..|s|] == s;
    r := scanner.w;
  }
}
