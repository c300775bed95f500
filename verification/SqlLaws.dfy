/** What the classifier promises beyond agreeing with its lexer. */
module SqlLaws {
  import opened Base
  import opened Sql

  // ---- one statement only -------------------------------------------------

  /** What follows the first separator outside comments and literals. */
  function AfterSeparator(s: Bytes): Option<Bytes>
    decreases |s|
  {
    if s == [] then None
    else
      match NextToken(s)
      case Unterminated => None
      case Lexeme(t, rest) => if t == Separator then Some(rest) else AfterSeparator(rest)
  }

  /** Whitespace and closed comments only. */
  predicate OnlyBlank(s: Bytes) {
    Tokens(s).Some? && !HasText(Tokens(s).value)
  }

  lemma {:induction false} TailRefusedAt(s: Bytes, words: seq<Bytes>)
    requires AfterSeparator(s).Some? && !OnlyBlank(AfterSeparator(s).value)
    ensures Resume(s, words, false) == Other
    decreases |s|
  {
    ResumeStep(s, words, false);
    var x := NextToken(s);
    if x.token != Separator {
      TailRefusedAt(x.rest, if x.token.Word? then words + [x.token.text] else words);
    }
  }

  /** Any text after the first separator makes the class Other, whatever came before. */
  lemma TextAfterSeparatorIsOther(sql: Bytes, rest: Bytes)
    requires AfterSeparator(sql) == Some(rest)
    ensures Classify(sql) != Other ==> OnlyBlank(rest)
  {
    ResumeStart(sql);
    if !OnlyBlank(rest) {
      TailRefusedAt(sql, []);
    }
  }

  // ---- leading blank space ------------------------------------------------

  /** A byte of whitespace, a line comment with its newline, or a whole block comment with the comments
      nested in it. */
  predicate BlankPiece(p: Bytes) {
    || (|p| == 1 && IsSpace(p[0]))
    || (|p| >= 3 && Pair(p, DASH, DASH) && p[|p| - 1] == NEWLINE && NEWLINE !in p[..|p| - 1])
    || (Pair(p, SLASH, STAR) && CommentRest(p[2..], 1) == Some([]))
  }

  lemma {:induction false} LineRestOfLine(line: Bytes, s: Bytes)
    requires NEWLINE !in line
    ensures LineRest(line + [NEWLINE] + s) == [NEWLINE] + s
  {
    if line != [] {
      assert line[0] in line;
      assert (line + [NEWLINE] + s)[1..] == line[1..] + [NEWLINE] + s;
      LineRestOfLine(line[1..], s);
    } else {
      assert line + [NEWLINE] + s == [NEWLINE] + s;
    }
  }

  lemma {:induction false} CommentRestExtends(c: Bytes, depth: nat, s: Bytes)
    requires CommentRest(c, depth) == Some([])
    ensures CommentRest(c + s, depth) == Some(s)
    decreases |c|
  {
    if depth == 0 {
      assert c + s == s;
    } else if Pair(c, SLASH, STAR) {
      assert (c + s)[2..] == c[2..] + s;
      CommentRestExtends(c[2..], depth + 1, s);
    } else if Pair(c, STAR, SLASH) {
      assert (c + s)[2..] == c[2..] + s;
      CommentRestExtends(c[2..], depth - 1, s);
    } else {
      assert CommentRest(c[1..], depth) == Some([]);
      assert c[1..] != [];
      assert (c + s)[1..] == c[1..] + s;
      CommentRestExtends(c[1..], depth, s);
    }
  }

  lemma BlankTokenIsDropped(s: Bytes, rest: Bytes)
    requires s != [] && NextToken(s) == Lexeme(Blank, rest)
    ensures Classify(s) == Classify(rest)
  {
    ResumeStart(s);
    ResumeStart(rest);
    ResumeStep(s, [], false);
  }

  lemma BlankPieceIsDropped(p: Bytes, s: Bytes)
    requires BlankPiece(p)
    ensures Classify(p + s) == Classify(s)
  {
    var all := p + s;
    if |p| == 1 {
      assert all[1..] == s;
      BlankTokenIsDropped(all, s);
    } else if Pair(p, DASH, DASH) {
      var line := p[..|p| - 1];
      assert all == line + [NEWLINE] + s;
      LineRestOfLine(line, s);
      BlankTokenIsDropped(all, [NEWLINE] + s);
      assert ([NEWLINE] + s)[1..] == s;
      BlankTokenIsDropped([NEWLINE] + s, s);
    } else {
      assert all[2..] == p[2..] + s;
      CommentRestExtends(p[2..], 1, s);
      BlankTokenIsDropped(all, s);
    }
  }

  function Joined(pieces: seq<Bytes>): Bytes {
    if pieces == [] then [] else pieces[0] + Joined(pieces[1..])
  }

  /** Leading whitespace, line comments and balanced block comments, in any number, never change the class. */
  lemma {:induction false} LeadingBlankIsIgnored(pieces: seq<Bytes>, s: Bytes)
    requires forall p :: p in pieces ==> BlankPiece(p)
    ensures Classify(Joined(pieces) + s) == Classify(s)
  {
    if pieces == [] {
      assert Joined(pieces) + s == s;
    } else {
      assert Joined(pieces) + s == pieces[0] + (Joined(pieces[1..]) + s);
      BlankPieceIsDropped(pieces[0], Joined(pieces[1..]) + s);
      LeadingBlankIsIgnored(pieces[1..], s);
    }
  }
}
