/** What the tokens of a text are, in terms of its bytes. */
module SqlTokens {
  import opened Base
  import opened Sql

  // ---- single bytes and words -------------------------------------------------

  predicate Letter(b: byte) {
    65 <= b <= 90 || 97 <= b <= 122
  }

  /** A letter, digit or underscore. */
  predicate WordByte(b: byte) {
    Letter(b) || 48 <= b <= 57 || b == 95
  }

  lemma SpaceIsBlank(b: byte, rest: Bytes)
    requires b in {9, 10, 12, 13, 32}
    ensures NextToken([b] + rest) == Lexeme(Blank, rest)
  {
    assert ([b] + rest)[1..] == rest;
  }

  /** Every other byte stands alone: no letter or blank, no separator or quote, no start of a comment, and no
      dollar sign that word bytes and another one follow. */
  lemma OtherByteStandsAlone(b: byte, rest: Bytes)
    requires !Letter(b) && b !in {9, 10, 12, 13, 32, 34, 36, 39, 59}
    requires rest == [] || ((b, rest[0]) != (45, 45) && (b, rest[0]) != (47, 42))
    ensures NextToken([b] + rest) == Lexeme(Symbol, rest)
  {
  }

  lemma DollarStandsAlone(tag: Bytes, rest: Bytes)
    requires forall i :: 0 <= i < |tag| ==> WordByte(tag[i])
    requires rest == [] || (!WordByte(rest[0]) && rest[0] != 36)
    ensures NextToken([36] + (tag + rest)) == Lexeme(Symbol, tag + rest)
  {
    WordLengthOfWord(tag, rest);
  }

  lemma SemicolonSeparates(rest: Bytes)
    ensures NextToken([59] + rest) == Lexeme(Separator, rest)
  {
    assert ([59] + rest)[1..] == rest;
  }

  lemma {:induction false} WordLengthOfWord(word: Bytes, rest: Bytes)
    requires (forall i :: 0 <= i < |word| ==> WordByte(word[i])) && (rest == [] || !WordByte(rest[0]))
    ensures WordLength(word + rest) == |word|
  {
    if word == [] {
      assert word + rest == rest;
    } else {
      assert (word + rest)[1..] == word[1..] + rest;
      WordLengthOfWord(word[1..], rest);
    }
  }

  /** A word begins with a letter, takes all letters, digits and underscores, and is read in capitals. */
  lemma WordIsToken(word: Bytes, rest: Bytes)
    requires word != [] && Letter(word[0]) && (forall i :: 0 <= i < |word| ==> WordByte(word[i]))
    requires rest == [] || !WordByte(rest[0])
    ensures var x := NextToken(word + rest);
            && x.Lexeme? && x.rest == rest && x.token.Word? && |x.token.text| == |word|
            && forall i :: 0 <= i < |word| ==> x.token.text[i] == if 97 <= word[i] <= 122 then word[i] - 32 else word[i]
  {
    WordLengthOfWord(word, rest);
    assert (word + rest)[..|word|] == word && (word + rest)[|word|..] == rest;
  }

  // ---- comments -----------------------------------------------------------------

  lemma {:induction false} LineRestOfLine(line: Bytes, rest: Bytes)
    requires 10 !in line && (rest == [] || rest[0] == 10)
    ensures LineRest(line + rest) == rest
  {
    if line == [] {
      assert line + rest == rest;
    } else {
      assert (line + rest)[1..] == line[1..] + rest;
      LineRestOfLine(line[1..], rest);
    }
  }

  /** Two dashes hide the rest of the line. */
  lemma LineCommentIsBlank(line: Bytes, rest: Bytes)
    requires 10 !in line && (rest == [] || rest[0] == 10)
    ensures NextToken([45, 45] + line + rest) == Lexeme(Blank, rest)
  {
    assert [45, 45] + line + rest == ([45, 45] + line) + rest;
    LineRestOfLine([45, 45] + line, rest);
  }

  /** The inside of a block comment: text that neither opens nor closes one, and whole comments. */
  datatype Piece = Plain(text: Bytes) | Nested(body: seq<Piece>)

  function Render(ps: seq<Piece>): Bytes {
    if ps == [] then []
    else
      (match ps[0]
       case Plain(text) => text
       case Nested(body) => [47, 42] + Render(body) + [42, 47]) + Render(ps[1..])
  }

  /** No two bytes of it are an opening or a closing, and its last byte cannot begin one. */
  predicate Unmarked(text: Bytes) {
    && (forall i :: 0 <= i < |text| - 1 ==> (text[i], text[i + 1]) != (47, 42) && (text[i], text[i + 1]) != (42, 47))
    && (text != [] ==> text[|text| - 1] != 42 && text[|text| - 1] != 47)
  }

  predicate Proper(ps: seq<Piece>) {
    if ps == [] then true
    else
      (match ps[0]
       case Plain(text) => Unmarked(text)
       case Nested(body) => Proper(body)) && Proper(ps[1..])
  }

  lemma {:induction false} PlainIsSkipped(text: Bytes, rest: Bytes, depth: nat)
    requires Unmarked(text) && depth > 0
    ensures CommentRest(text + rest, depth) == CommentRest(rest, depth)
  {
    if text == [] {
      assert text + rest == rest;
    } else {
      assert (text + rest)[1..] == text[1..] + rest;
      assert |text| > 1 ==> (text + rest)[1] == text[1];
      assert Unmarked(text[1..]);
      PlainIsSkipped(text[1..], rest, depth);
    }
  }

  lemma OpeningDeepens(rest: Bytes, depth: nat)
    requires depth > 0
    ensures CommentRest([47, 42] + rest, depth) == CommentRest(rest, depth + 1)
    ensures CommentRest([42, 47] + rest, depth) == CommentRest(rest, depth - 1)
  {
    assert ([47, 42] + rest)[2..] == rest && ([42, 47] + rest)[2..] == rest;
  }

  lemma {:induction false} PiecesAreSkipped(ps: seq<Piece>, rest: Bytes, depth: nat)
    requires Proper(ps) && depth > 0
    ensures CommentRest(Render(ps) + rest, depth) == CommentRest(rest, depth)
    decreases ps
  {
    if ps == [] {
      assert Render(ps) + rest == rest;
    } else {
      var after := Render(ps[1..]) + rest;
      match ps[0] {
        case Plain(text) =>
          assert Render(ps) + rest == text + after;
          PlainIsSkipped(text, after, depth);
        case Nested(body) =>
          assert Render(ps) + rest == [47, 42] + (Render(body) + ([42, 47] + after));
          OpeningDeepens(Render(body) + ([42, 47] + after), depth);
          PiecesAreSkipped(body, [42, 47] + after, depth + 1);
          OpeningDeepens(after, depth + 1);
      }
      PiecesAreSkipped(ps[1..], rest, depth);
    }
  }

  lemma CommentStarts(s: Bytes)
    ensures NextToken([47, 42] + s) == Skip(Blank, CommentRest(s, 1))
  {
    assert ([47, 42] + s)[2..] == s;
  }

  /** A block comment with the comments nested in it is blank. */
  lemma BlockCommentIsBlank(ps: seq<Piece>, rest: Bytes)
    requires Proper(ps)
    ensures NextToken([47, 42] + (Render(ps) + ([42, 47] + rest))) == Lexeme(Blank, rest)
  {
    CommentStarts(Render(ps) + ([42, 47] + rest));
    PiecesAreSkipped(ps, [42, 47] + rest, 1);
    OpeningDeepens(rest, 1);
  }

  /** Unclosed, it is an error. */
  lemma OpenCommentIsUnterminated(ps: seq<Piece>)
    requires Proper(ps)
    ensures NextToken([47, 42] + Render(ps)) == Unterminated
  {
    CommentStarts(Render(ps));
    assert Render(ps) == Render(ps) + [];
    PiecesAreSkipped(ps, [], 1);
  }

  // ---- quotes -------------------------------------------------------------------

  /** The content of a quoted literal: a byte for itself, a byte after a backslash, or the quote doubled. */
  datatype Unit = Itself(b: byte) | Escaped(b: byte) | Doubled

  function Quoted(quote: byte, us: seq<Unit>): Bytes {
    if us == [] then []
    else
      (match us[0]
       case Itself(b) => [b]
       case Escaped(b) => [92, b]
       case Doubled => [quote, quote]) + Quoted(quote, us[1..])
  }

  predicate Unquoted(quote: byte, us: seq<Unit>) {
    forall i :: 0 <= i < |us| && us[i].Itself? ==> us[i].b != quote && us[i].b != 92
  }

  lemma UnitIsSkipped(quote: byte, u: Unit, rest: Bytes)
    requires quote in {34, 39} && (u.Itself? ==> u.b != quote && u.b != 92)
    ensures var unit := match u case Itself(b) => [b] case Escaped(b) => [92, b] case Doubled => [quote, quote];
            QuoteRest(unit + rest, quote) == QuoteRest(rest, quote)
  {
    var unit := match u case Itself(b) => [b] case Escaped(b) => [92, b] case Doubled => [quote, quote];
    assert (unit + rest)[|unit|..] == rest;
  }

  lemma {:induction false} UnitsAreContent(quote: byte, us: seq<Unit>, rest: Bytes)
    requires quote in {34, 39} && Unquoted(quote, us)
    ensures QuoteRest(Quoted(quote, us) + rest, quote) == QuoteRest(rest, quote)
    decreases |us|
  {
    if us == [] {
      assert Quoted(quote, us) + rest == rest;
    } else {
      var after := Quoted(quote, us[1..]) + rest;
      var unit := match us[0] case Itself(b) => [b] case Escaped(b) => [92, b] case Doubled => [quote, quote];
      assert Quoted(quote, us) + rest == unit + after;
      UnitIsSkipped(quote, us[0], after);
      UnitsAreContent(quote, us[1..], rest);
    }
  }

  /** Quoted text ends at the first quote that is neither doubled nor escaped; without one it is an error. */
  lemma QuotedIsLiteral(quote: byte, us: seq<Unit>, rest: Bytes)
    requires quote in {34, 39} && Unquoted(quote, us)
    ensures rest == [] || rest[0] != quote ==> NextToken([quote] + Quoted(quote, us) + [quote] + rest) == Lexeme(Literal, rest)
    ensures NextToken([quote] + Quoted(quote, us)) == Unterminated
    ensures NextToken([quote] + Quoted(quote, us) + [92]) == Unterminated
  {
    var s := [quote] + Quoted(quote, us) + [quote] + rest;
    assert s[1..] == Quoted(quote, us) + ([quote] + rest);
    UnitsAreContent(quote, us, [quote] + rest);
    assert ([quote] + rest)[1..] == rest;
    assert ([quote] + Quoted(quote, us))[1..] == Quoted(quote, us) + [];
    UnitsAreContent(quote, us, []);
    assert ([quote] + Quoted(quote, us) + [92])[1..] == Quoted(quote, us) + [92];
    UnitsAreContent(quote, us, [92]);
  }

  // ---- dollar quotes --------------------------------------------------------------

  /** Dollar-quoted text ends at the first repetition of its delimiter `d`. */
  lemma DollarQuotedIsLiteral(tag: Bytes, d: Bytes, body: Bytes, rest: Bytes)
    requires d == [36] + tag + [36] && forall i :: 0 <= i < |tag| ==> WordByte(tag[i])
    requires forall k :: 0 <= k < |body| ==> !HasPrefix((body + d + rest)[k..], d)
    ensures NextToken(d + (body + d + rest)) == Lexeme(Literal, rest)
  {
    DelimiterOf(tag, body + d + rest);
    FoundAfterBody(d, body, rest);
    RestAfterBody(d, body, rest);
    DollarToken(d, body + d + rest, |body|);
  }

  lemma DollarToken(d: Bytes, after: Bytes, n: nat)
    requires d != [] && d[0] == 36 && DelimiterLength(d + after) == Some(|d|) && Find(after, d) == Some(n)
    ensures NextToken(d + after) == Lexeme(Literal, (d + after)[|d| + n + |d|..])
  {
    SplitAt(d, after);
  }

  lemma FoundAfterBody(d: Bytes, body: Bytes, rest: Bytes)
    requires forall k :: 0 <= k < |body| ==> !HasPrefix((body + d + rest)[k..], d)
    ensures Find(body + d + rest, d) == Some(|body|)
  {
    assert (body + d + rest)[|body|..] == d + rest;
    FindIsFirst(body + d + rest, d, |body|);
  }

  lemma RestAfterBody(d: Bytes, body: Bytes, rest: Bytes)
    ensures (d + (body + d + rest))[|d| + |body| + |d|..] == rest
  {
  }

  /** Without one it is an error. */
  lemma OpenDollarIsUnterminated(tag: Bytes, d: Bytes, body: Bytes)
    requires d == [36] + tag + [36] && forall i :: 0 <= i < |tag| ==> WordByte(tag[i])
    requires forall k :: 0 <= k <= |body| ==> !HasPrefix(body[k..], d)
    ensures NextToken(d + body) == Unterminated
  {
    DelimiterOf(tag, body);
    FindIsFirst(body, d, |body|);
    SplitAt(d, body);
  }

  lemma SplitAt(a: Bytes, b: Bytes)
    ensures (a + b)[..|a|] == a && (a + b)[|a|..] == b
  {
  }

  lemma DelimiterOf(tag: Bytes, rest: Bytes)
    requires forall i :: 0 <= i < |tag| ==> WordByte(tag[i])
    ensures var s := [36] + tag + [36] + rest;
            s[0] == 36 && DelimiterLength(s) == Some(|tag| + 2)
  {
    var s := [36] + tag + [36] + rest;
    assert s[1..] == tag + ([36] + rest);
    WordLengthOfWord(tag, [36] + rest);
  }
}
