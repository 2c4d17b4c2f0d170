/** Splitting the value of a systemd `Environment=` line into assignments. */
module SystemdEnvironment {
  import opened Options
  import opened Text

  datatype Tokens = Tokens(words: seq<string>) | TrailingEscape | UnterminatedQuote

  /** The tokenizer's variables. */
  datatype State = State(words: seq<string>, builder: string, quote: Option<char>, escaped: bool)

  const INITIAL := State([], "", None, false)

  predicate QuoteChar(c: char) {
    c == '\'' || c == '"'
  }

  function Flush(s: State): State {
    if s.builder == "" then s else s.(words := s.words + [s.builder], builder := "")
  }

  function Step(s: State, c: char): State {
    if s.escaped then s.(builder := s.builder + [c], escaped := false)
    else if c == '\\' then s.(escaped := true)
    else if s.quote.Some? then
      if c == s.quote.value then s.(quote := None) else s.(builder := s.builder + [c])
    else if QuoteChar(c) then s.(quote := Some(c))
    else if GoSpace(c) then Flush(s)
    else s.(builder := s.builder + [c])
  }

  function Scan(s: State, text: string): State
    decreases |text|
  {
    if text == "" then s else Scan(Step(s, text[0]), text[1..])
  }

  function Finish(s: State): Tokens {
    if s.escaped then TrailingEscape
    else if s.quote.Some? then UnterminatedQuote
    else Tokens(Flush(s).words)
  }

  function Tokenize(text: string): Tokens {
    Finish(Scan(INITIAL, text))
  }

  method Assignments(text: string) returns (r: Tokens)
    ensures r == Tokenize(text)
  {
    var assignments: seq<string> := [];
    var builder := "";
    var quote: Option<char> := None;
    var escaped := false;
    for i := 0 to |text|
      invariant Scan(State(assignments, builder, quote, escaped), text[i..]) == Scan(INITIAL, text)
    {
      assert text[i..][0] == text[i] && text[i..][1..] == text[i + 1..];
      var c := text[i];
      if escaped {
        builder := builder + [c];
        escaped := false;
        continue;
      }
      if c == '\\' {
        escaped := true;
        continue;
      }
      if quote.Some? {
        if c == quote.value {
          quote := None;
          continue;
        }
        builder := builder + [c];
        continue;
      }
      if QuoteChar(c) {
        quote := Some(c);
      } else if GoSpace(c) {
        if builder != "" {
          assignments := assignments + [builder];
          builder := "";
        }
      } else {
        builder := builder + [c];
      }
    }
    if escaped {
      return TrailingEscape;
    }
    if quote.Some? {
      return UnterminatedQuote;
    }
    if builder != "" {
      assignments := assignments + [builder];
    }
    return Tokens(assignments);
  }

  lemma {:induction false} ScanAppend(s: State, a: string, b: string)
    ensures Scan(s, a + b) == Scan(Scan(s, a), b)
    decreases |a|
  {
    if a == "" {
      assert a + b == b;
    } else {
      assert (a + b)[0] == a[0] && (a + b)[1..] == a[1..] + b;
      ScanAppend(Step(s, a[0]), a[1..], b);
    }
  }

  // ------------------------------------------------------------------ when it fails

  /** How many backslashes the text ends with. */
  function TrailingBackslashes(text: string): nat {
    if text != "" && text[|text| - 1] == '\\' then 1 + TrailingBackslashes(text[..|text| - 1]) else 0
  }

  lemma {:induction false} EscapedIffOdd(text: string)
    ensures Scan(INITIAL, text).escaped <==> TrailingBackslashes(text) % 2 == 1
  {
    if text != "" {
      var front, last := text[..|text| - 1], text[|text| - 1];
      EscapedIffOdd(front);
      assert text == front + [last];
      ScanAppend(INITIAL, front, [last]);
      assert [last][1..] == "";
    }
  }

  /** The text outside escapes: every backslash is dropped together with the character after it. */
  function Bare(text: string): string {
    if text == "" then ""
    else if text[0] == '\\' then (if |text| == 1 then "" else Bare(text[2..]))
    else [text[0]] + Bare(text[1..])
  }

  /** The quote that is open after reading text without escapes, beginning inside `open`. */
  function OpenQuote(bare: string, open: Option<char>): Option<char>
    decreases |bare|
  {
    if bare == "" then open
    else
      OpenQuote(bare[1..],
                match open
                case Some(q) => if bare[0] == q then None else open
                case None => if QuoteChar(bare[0]) then Some(bare[0]) else None)
  }

  lemma {:induction false} QuoteIsOpen(s: State, text: string)
    requires !s.escaped
    ensures Scan(s, text).quote == OpenQuote(Bare(text), s.quote)
    decreases |text|
  {
    if text != "" && text[0] == '\\' {
      if |text| > 1 {
        assert text[1..][0] == text[1] && text[1..][1..] == text[2..];
        QuoteIsOpen(Step(Step(s, text[0]), text[1]), text[2..]);
      } else {
        assert text[1..] == "";
      }
    } else if text != "" {
      QuoteIsOpen(Step(s, text[0]), text[1..]);
      assert Bare(text)[1..] == Bare(text[1..]);
    }
  }

  /** The tokenizer fails exactly on text that ends in an odd number of backslashes, or that leaves a
      quote open. */
  lemma FailsExactly(text: string)
    ensures Tokenize(text).TrailingEscape? <==> TrailingBackslashes(text) % 2 == 1
    ensures Tokenize(text).UnterminatedQuote? <==>
      TrailingBackslashes(text) % 2 == 0 && OpenQuote(Bare(text), None).Some?
  {
    EscapedIffOdd(text);
    QuoteIsOpen(INITIAL, text);
  }

  // ------------------------------------------------------------------ round trip

  /** Four ways to write a piece of a word.  Plain text is written as it is. */
  datatype Style = Plain | Backslashed | InSingleQuotes | InDoubleQuotes

  /** A piece of a word as written; `Plain` needs text without white space, quotes and backslashes. */
  datatype Piece = Piece(text: string, style: Style)
  {
    predicate Ok() {
      style.Plain? ==> forall c <- text :: !GoSpace(c) && !QuoteChar(c) && c != '\\'
    }
  }

  function BackslashAll(w: string): string {
    if w == "" then "" else ['\\', w[0]] + BackslashAll(w[1..])
  }

  /** Escape the quote and the backslash only. */
  function EscapeFor(w: string, quote: char): string {
    if w == "" then ""
    else (if w[0] == quote || w[0] == '\\' then ['\\', w[0]] else [w[0]]) + EscapeFor(w[1..], quote)
  }

  function InQuotes(w: string, quote: char): string {
    [quote] + EscapeFor(w, quote) + [quote]
  }

  function RenderPiece(p: Piece): string {
    match p.style
    case Plain => p.text
    case Backslashed => BackslashAll(p.text)
    case InSingleQuotes => InQuotes(p.text, '\'')
    case InDoubleQuotes => InQuotes(p.text, '"')
  }

  /** A word is written piece by piece, as in `NAME="a b"c\ d`. */
  function Render(pieces: seq<Piece>): string {
    if pieces == [] then "" else Render(pieces[..|pieces| - 1]) + RenderPiece(pieces[|pieces| - 1])
  }

  /** What the pieces say. */
  function Word(pieces: seq<Piece>): string {
    if pieces == [] then "" else Word(pieces[..|pieces| - 1]) + pieces[|pieces| - 1].text
  }

  lemma {:induction false} ScanPlain(s: State, w: string)
    requires !s.escaped && s.quote.None? && Piece(w, Plain).Ok()
    ensures Scan(s, w) == s.(builder := s.builder + w)
    decreases |w|
  {
    if w == "" {
      assert s.builder + w == s.builder;
    } else {
      assert w[0] in w;
      var t := s.(builder := s.builder + [w[0]]);
      ScanPlain(t, w[1..]);
      assert t.builder + w[1..] == s.builder + w;
    }
  }

  lemma {:induction false} ScanBackslashed(s: State, w: string)
    requires !s.escaped && s.quote.None?
    ensures Scan(s, BackslashAll(w)) == s.(builder := s.builder + w)
    decreases |w|
  {
    if w != "" {
      var t := s.(builder := s.builder + [w[0]]);
      ScanAppend(s, ['\\', w[0]], BackslashAll(w[1..]));
      assert Scan(s, ['\\', w[0]]) == t by {
        var pair := ['\\', w[0]];
        assert pair[1..] == [w[0]] && [w[0]][1..] == "";
        assert Scan(s, pair) == Scan(s.(escaped := true), pair[1..]);
      }
      ScanBackslashed(t, w[1..]);
      assert t.builder + w[1..] == s.builder + w;
    } else {
      assert s.builder + w == s.builder;
    }
  }

  lemma EscapedStep(s: State, w: string, quote: char)
    requires !s.escaped && s.quote == Some(quote) && QuoteChar(quote) && w != ""
    ensures Scan(s, EscapeFor(w, quote)) == Scan(s.(builder := s.builder + [w[0]]), EscapeFor(w[1..], quote))
  {
    var text := EscapeFor(w, quote);
    if w[0] == quote || w[0] == '\\' {
      assert text[1..][1..] == EscapeFor(w[1..], quote);
    } else {
      assert text[1..] == EscapeFor(w[1..], quote);
    }
  }

  lemma {:induction false} ScanEscaped(s: State, w: string, quote: char)
    requires !s.escaped && s.quote == Some(quote) && QuoteChar(quote)
    ensures Scan(s, EscapeFor(w, quote)) == s.(builder := s.builder + w)
    decreases |w|
  {
    if w != "" {
      var t := s.(builder := s.builder + [w[0]]);
      EscapedStep(s, w, quote);
      ScanEscaped(t, w[1..], quote);
      assert t.builder + w[1..] == s.builder + w;
    } else {
      assert s.builder + w == s.builder;
    }
  }

  lemma ScanQuoted(s: State, w: string, quote: char)
    requires !s.escaped && s.quote.None? && QuoteChar(quote)
    ensures Scan(s, InQuotes(w, quote)) == s.(builder := s.builder + w)
  {
    var inside := s.(quote := Some(quote));
    ScanAppend(s, [quote], EscapeFor(w, quote));
    ScanAppend(s, [quote] + EscapeFor(w, quote), [quote]);
    assert [quote][1..] == "";
    assert Scan(s, [quote]) == inside;
    ScanEscaped(inside, w, quote);
  }

  lemma ScanPiece(s: State, p: Piece)
    requires !s.escaped && s.quote.None? && p.Ok()
    ensures Scan(s, RenderPiece(p)) == s.(builder := s.builder + p.text)
  {
    match p.style
    case Plain => ScanPlain(s, p.text);
    case Backslashed => ScanBackslashed(s, p.text);
    case InSingleQuotes => ScanQuoted(s, p.text, '\'');
    case InDoubleQuotes => ScanQuoted(s, p.text, '"');
  }

  /** The text has been read as the word. */
  predicate Says(s: State, text: string, word: string) {
    Scan(s, text) == s.(builder := s.builder + word)
  }

  lemma SaysMore(s: State, text: string, word: string, more: string, rest: string)
    requires Says(s, text, word) && Says(s.(builder := s.builder + word), more, rest)
    ensures Says(s, text + more, word + rest)
  {
    ScanAppend(s, text, more);
    assert s.builder + word + rest == s.builder + (word + rest);
  }

  lemma {:induction false} ScanRendered(s: State, pieces: seq<Piece>)
    requires !s.escaped && s.quote.None? && forall p <- pieces :: p.Ok()
    ensures Scan(s, Render(pieces)) == s.(builder := s.builder + Word(pieces))
  {
    if pieces == [] {
      assert s.builder + "" == s.builder;
    } else {
      var front, last := pieces[..|pieces| - 1], pieces[|pieces| - 1];
      ScanRendered(s, front);
      ScanPiece(s.(builder := s.builder + Word(front)), last);
      SaysMore(s, Render(front), Word(front), RenderPiece(last), last.text);
    }
  }

  /** A word as written: the white space before it, and its pieces. */
  datatype Item = Item(gap: string, pieces: seq<Piece>)

  /** Words are set apart by white space, and plain pieces are plain. */
  predicate WellWritten(items: seq<Item>) {
    forall i :: 0 <= i < |items| ==>
      Blank(items[i].gap) && (i > 0 ==> items[i].gap != "") && forall p <- items[i].pieces :: p.Ok()
  }

  predicate Blank(s: string) {
    forall c <- s :: GoSpace(c)
  }

  function Written(items: seq<Item>): string {
    if items == [] then ""
    else
      var last := items[|items| - 1];
      Written(items[..|items| - 1]) + last.gap + Render(last.pieces)
  }

  /** The words that are not empty. */
  function Words(items: seq<Item>): seq<string> {
    if items == [] then []
    else
      var word := Word(items[|items| - 1].pieces);
      Words(items[..|items| - 1]) + if word == "" then [] else [word]
  }

  lemma {:induction false} ScanBlank(s: State, gap: string)
    requires !s.escaped && s.quote.None? && Blank(gap)
    ensures Scan(s, gap) == if gap == "" then s else Flush(s)
    decreases |gap|
  {
    if gap != "" {
      assert gap[0] in gap && !QuoteChar(gap[0]) && gap[0] != '\\';
      ScanBlank(Flush(s), gap[1..]);
    }
  }

  lemma {:induction false} ScanWritten(items: seq<Item>)
    requires WellWritten(items)
    ensures var s := Scan(INITIAL, Written(items));
      !s.escaped && s.quote.None? && Flush(s).words == Words(items)
  {
    if items != [] {
      var front, last := items[..|items| - 1], items[|items| - 1];
      ScanWritten(front);
      var s := Scan(INITIAL, Written(front));
      ScanAppend(INITIAL, Written(front), last.gap);
      ScanAppend(INITIAL, Written(front) + last.gap, Render(last.pieces));
      ScanBlank(s, last.gap);
      var t := Scan(s, last.gap);
      assert t.builder == "" && t.words == Words(front) by {
        if last.gap == "" {
          assert front == [] && s == INITIAL;
        }
      }
      ScanRendered(t, last.pieces);
      assert t.builder + Word(last.pieces) == Word(last.pieces);
    }
  }

  /** However words are quoted and spaced, the tokenizer gives them back, except that it drops empty
      ones; so a list survives exactly when none of its words is empty. */
  lemma {:induction false} RoundTrip(items: seq<Item>, tail: string)
    requires WellWritten(items)
    requires Blank(tail)
    ensures Tokenize(Written(items) + tail) == Tokens(Words(items))
  {
    ScanWritten(items);
    ScanAppend(INITIAL, Written(items), tail);
    ScanBlank(Scan(INITIAL, Written(items)), tail);
  }

  /** All words, empty ones included. */
  function AllWords(items: seq<Item>): seq<string> {
    if items == [] then [] else AllWords(items[..|items| - 1]) + [Word(items[|items| - 1].pieces)]
  }

  lemma {:induction false} WordsLength(items: seq<Item>)
    ensures |Words(items)| <= |AllWords(items)| == |items|
    ensures Words(items) == AllWords(items) <==> forall i :: 0 <= i < |items| ==> Word(items[i].pieces) != ""
  {
    if items != [] {
      var front := items[..|items| - 1];
      WordsLength(front);
      if Word(items[|items| - 1].pieces) != "" {
        assert Words(items)[..|Words(items)| - 1] == Words(front);
        assert AllWords(items)[..|front|] == AllWords(front);
      }
    }
  }

  lemma {:induction false} RoundTripIff(items: seq<Item>, tail: string)
    requires WellWritten(items)
    requires Blank(tail)
    ensures Tokenize(Written(items) + tail) == Tokens(AllWords(items)) <==>
      forall i :: 0 <= i < |items| ==> Word(items[i].pieces) != ""
  {
    RoundTrip(items, tail);
    WordsLength(items);
  }
}
