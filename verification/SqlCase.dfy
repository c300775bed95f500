/** When the class of a text depends on the case of its letters. */
module SqlCase {
  import opened Base
  import opened Sql

  predicate Suffix(r: Bytes, s: Bytes) {
    |r| <= |s| && r == s[|s| - |r|..]
  }

  lemma UpperDrop(s: Bytes, k: nat)
    requires k <= |s|
    ensures UpperAll(s)[k..] == UpperAll(s[k..])
    ensures UpperAll(s)[..k] == UpperAll(s[..k])
  {
  }

  /** A suffix of the rest is a suffix of the whole. */
  lemma SuffixDrop(r: Bytes, s: Bytes, k: nat)
    requires k <= |s| && Suffix(r, s[k..])
    ensures Suffix(r, s)
  {
  }

  // ---- comments, quotes and words look at no letter -------------------------

  lemma {:induction false} LineRestOfUpper(s: Bytes)
    ensures LineRest(UpperAll(s)) == UpperAll(LineRest(s)) && Suffix(LineRest(s), s)
  {
    if s != [] && s[0] != NEWLINE {
      UpperDrop(s, 1);
      LineRestOfUpper(s[1..]);
      SuffixDrop(LineRest(s), s, 1);
    }
  }

  lemma {:induction false} CommentRestOfUpper(s: Bytes, depth: nat)
    ensures match CommentRest(s, depth)
            case None => CommentRest(UpperAll(s), depth) == None
            case Some(r) => CommentRest(UpperAll(s), depth) == Some(UpperAll(r)) && Suffix(r, s)
    decreases |s|
  {
    var u := UpperAll(s);
    if depth > 0 && s != [] {
      var k := if Pair(s, SLASH, STAR) || Pair(s, STAR, SLASH) then 2 else 1;
      UpperDrop(s, k);
      assert Pair(u, SLASH, STAR) == Pair(s, SLASH, STAR) && Pair(u, STAR, SLASH) == Pair(s, STAR, SLASH);
      CommentRestOfUpper(s[k..], if Pair(s, SLASH, STAR) then depth + 1 else if Pair(s, STAR, SLASH) then depth - 1 else depth);
      if CommentRest(s, depth).Some? {
        SuffixDrop(CommentRest(s, depth).value, s, k);
      }
    }
  }

  lemma {:induction false} QuoteRestOfUpper(s: Bytes, quote: byte)
    requires quote == QUOTE || quote == DOUBLE_QUOTE
    ensures match QuoteRest(s, quote)
            case None => QuoteRest(UpperAll(s), quote) == None
            case Some(r) => QuoteRest(UpperAll(s), quote) == Some(UpperAll(r)) && Suffix(r, s)
    decreases |s|
  {
    var u := UpperAll(s);
    if s != [] {
      assert Pair(u, quote, quote) == Pair(s, quote, quote);
      UpperDrop(s, 1);
      if s[0] == BACKSLASH || Pair(s, quote, quote) {
        if |s| > 1 {
          UpperDrop(s, 2);
          QuoteRestOfUpper(s[2..], quote);
        }
      } else if s[0] != quote {
        QuoteRestOfUpper(s[1..], quote);
      }
    }
  }

  lemma {:induction false} WordLengthOfUpper(s: Bytes)
    ensures WordLength(UpperAll(s)) == WordLength(s)
  {
    if s != [] && IsWordByte(s[0]) {
      UpperDrop(s, 1);
      WordLengthOfUpper(s[1..]);
    }
  }

  // ---- dollar quotes ----------------------------------------------------------

  predicate Lettered(s: Bytes) {
    exists i :: 0 <= i < |s| && IsAlpha(s[i])
  }

  lemma DelimiterOfUpper(s: Bytes)
    requires s != [] && s[0] == DOLLAR
    ensures UpperAll(s)[0] == DOLLAR && DelimiterLength(UpperAll(s)) == DelimiterLength(s)
  {
    UpperDrop(s, 1);
    WordLengthOfUpper(s[1..]);
  }

  lemma LetteredOfUpper(s: Bytes)
    ensures Lettered(UpperAll(s)) <==> Lettered(s)
  {
    if Lettered(s) {
      var i :| 0 <= i < |s| && IsAlpha(s[i]);
      assert IsAlpha(UpperAll(s)[i]);
    }
    if Lettered(UpperAll(s)) {
      var i :| 0 <= i < |s| && IsAlpha(UpperAll(s)[i]);
      assert IsAlpha(s[i]);
    }
  }

  /** A dollar quote whose tag has a letter begins here. */
  predicate OpensLettered(s: Bytes) {
    s != [] && s[0] == DOLLAR && DelimiterLength(s).Some? && Lettered(s[..DelimiterLength(s).value])
  }

  /** No dollar quote outside comments and literals has a letter in its tag. */
  predicate NoLetteredTag(s: Bytes)
    decreases |s|
  {
    if s == [] then true
    else !OpensLettered(s) && (NextToken(s).Lexeme? ==> NoLetteredTag(NextToken(s).rest))
  }

  lemma PrefixOfUpper(s: Bytes, needle: Bytes)
    requires !Lettered(needle)
    ensures HasPrefix(UpperAll(s), needle) <==> HasPrefix(s, needle)
  {
    forall i | 0 <= i < |needle| && i < |s|
      ensures UpperAll(s)[i] == needle[i] <==> s[i] == needle[i]
    {
      assert !IsAlpha(needle[i]);
    }
  }

  /** Letters cannot hide or create a delimiter without letters. */
  lemma {:induction false} FindOfUpper(s: Bytes, needle: Bytes)
    requires !Lettered(needle)
    ensures Find(UpperAll(s), needle) == Find(s, needle)
  {
    PrefixOfUpper(s, needle);
    if s != [] && !HasPrefix(s, needle) {
      UpperDrop(s, 1);
      FindOfUpper(s[1..], needle);
    }
  }

  lemma LetterlessIsUpper(s: Bytes)
    requires !Lettered(s)
    ensures UpperAll(s) == s
  {
    forall i | 0 <= i < |s|
      ensures UpperAll(s)[i] == s[i]
    {
      assert !IsAlpha(s[i]);
    }
  }

  lemma LiteralOfUpper(s: Bytes)
    requires s != [] && s[0] == DOLLAR && DelimiterLength(s).Some? && !OpensLettered(s)
    ensures match NextToken(s)
            case Unterminated => NextToken(UpperAll(s)) == Unterminated
            case Lexeme(t, r) => NextToken(UpperAll(s)) == Lexeme(t, UpperAll(r)) && Suffix(r, s)
  {
    DelimiterOfUpper(s);
    var n := DelimiterLength(s).value;
    UpperDrop(s, n);
    LetterlessIsUpper(s[..n]);
    FindOfUpper(s[n..], s[..n]);
    var at := Find(s[n..], s[..n]);
    if at.Some? {
      UpperDrop(s, n + at.value + n);
    }
  }

  lemma NextTokenOfUpper(s: Bytes)
    requires s != [] && !OpensLettered(s)
    ensures match NextToken(s)
            case Unterminated => NextToken(UpperAll(s)) == Unterminated
            case Lexeme(t, r) => NextToken(UpperAll(s)) == Lexeme(t, UpperAll(r)) && Suffix(r, s)
  {
    var u := UpperAll(s);
    UpperDrop(s, 1);
    assert Pair(u, DASH, DASH) == Pair(s, DASH, DASH) && Pair(u, SLASH, STAR) == Pair(s, SLASH, STAR);
    if Pair(s, DASH, DASH) {
      LineRestOfUpper(s);
    } else if Pair(s, SLASH, STAR) {
      UpperDrop(s, 2);
      CommentRestOfUpper(s[2..], 1);
    } else if s[0] == QUOTE || s[0] == DOUBLE_QUOTE {
      QuoteRestOfUpper(s[1..], s[0]);
    } else if s[0] == DOLLAR {
      DelimiterOfUpper(s);
      if DelimiterLength(s).Some? {
        LiteralOfUpper(s);
      }
    } else if IsAlpha(s[0]) {
      WordOfUpper(s);
    }
  }

  lemma WordOfUpper(s: Bytes)
    requires s != [] && IsAlpha(s[0])
    ensures NextToken(s).Lexeme? && NextToken(UpperAll(s)) == Lexeme(NextToken(s).token, UpperAll(NextToken(s).rest))
    ensures Suffix(NextToken(s).rest, s)
  {
    WordLengthOfUpper(s);
    var n := WordLength(s);
    UpperDrop(s, n);
    assert UpperAll(UpperAll(s[..n])) == UpperAll(s[..n]);
  }

  lemma OpensLetteredOfUpper(s: Bytes)
    ensures OpensLettered(UpperAll(s)) <==> OpensLettered(s)
  {
    if s != [] && s[0] == DOLLAR {
      DelimiterOfUpper(s);
      if DelimiterLength(s).Some? {
        UpperDrop(s, DelimiterLength(s).value);
        LetteredOfUpper(s[..DelimiterLength(s).value]);
      }
    }
  }

  lemma {:induction false} TokensOfUpper(s: Bytes)
    ensures NoLetteredTag(UpperAll(s)) <==> NoLetteredTag(s)
    ensures NoLetteredTag(s) ==> Tokens(UpperAll(s)) == Tokens(s)
    decreases |s|
  {
    OpensLetteredOfUpper(s);
    if s != [] && !OpensLettered(s) {
      NextTokenOfUpper(s);
      if NextToken(s).Lexeme? {
        TokensOfUpper(NextToken(s).rest);
      }
    }
  }

  /** As long as no dollar quote has a letter in its tag, the class does not depend on letter case. */
  lemma CaseIsIgnored(s: Bytes, t: Bytes)
    requires NoLetteredTag(s) && UpperAll(s) == UpperAll(t)
    ensures Classify(s) == Classify(t)
  {
    TokensOfUpper(s);
    TokensOfUpper(t);
  }

  // ---- with a lettered tag it does --------------------------------------------

  function Lower(b: byte): byte {
    if 65 <= b <= 90 then b + 32 else b
  }

  function LowerAll(s: Bytes): (u: Bytes)
    ensures |u| == |s|
  {
    seq(|s|, i requires 0 <= i < |s| => Lower(s[i]))
  }

  /** The same text up to the first lettered tag; that tag in capitals, everything after it in small letters. */
  function Spoiled(s: Bytes): (t: Bytes)
    decreases |s|
  {
    if s == [] then []
    else if OpensLettered(s) then UpperAll(s[..DelimiterLength(s).value]) + LowerAll(s[DelimiterLength(s).value..])
    else
      var x := NextToken(s);
      if x.Unterminated? then s else s[..|s| - |x.rest|] + Spoiled(x.rest)
  }

  lemma UpperConcat(a: Bytes, b: Bytes)
    ensures UpperAll(a + b) == UpperAll(a) + UpperAll(b)
  {
  }

  lemma {:induction false} SpoiledIsSameText(s: Bytes)
    ensures |Spoiled(s)| == |s| && UpperAll(Spoiled(s)) == UpperAll(s)
    decreases |s|
  {
    if OpensLettered(s) {
      var n := DelimiterLength(s).value;
      assert s[..n] + s[n..] == s;
    } else if s != [] && NextToken(s).Lexeme? {
      var r := NextToken(s).rest;
      var k := |s| - |r|;
      NextTokenOfUpper(s);
      SpoiledIsSameText(r);
      UpperConcat(s[..k], Spoiled(r));
      UpperConcat(s[..k], s[k..]);
      assert s[..k] + s[k..] == s;
    }
  }

  /** Tokens before the first lettered tag are the same, and leave as much. */
  lemma SameNextToken(s: Bytes, t: Bytes)
    requires s != [] && !OpensLettered(s) && UpperAll(s) == UpperAll(t) && NextToken(s).Lexeme?
    ensures t != [] && NextToken(t).Lexeme? && NextToken(t).rest == t[|s| - |NextToken(s).rest|..]
  {
    OpensLetteredOfUpper(s);
    OpensLetteredOfUpper(t);
    NextTokenOfUpper(s);
    NextTokenOfUpper(t);
    assert |UpperAll(s)| == |UpperAll(t)|;
    assert |UpperAll(NextToken(s).rest)| == |UpperAll(NextToken(t).rest)|;
  }

  /** Capitals are not found among small letters. */
  lemma CapitalsNotFound(a: Bytes, b: Bytes)
    requires Lettered(a)
    ensures Find(LowerAll(b), UpperAll(a)).None?
  {
    var i :| 0 <= i < |a| && IsAlpha(a[i]);
    forall k | 0 <= k && k + |a| <= |b|
      ensures LowerAll(b)[k..][i] != UpperAll(a)[i]
    {
      assert LowerAll(b)[k..][i] == Lower(b[k + i]);
    }
  }

  lemma SpoiledLiteral(s: Bytes)
    requires OpensLettered(s)
    ensures Spoiled(s) != [] && NextToken(Spoiled(s)) == Unterminated
  {
    var n := DelimiterLength(s).value;
    var t := Spoiled(s);
    SpoiledIsSameText(s);
    DelimiterOfUpper(s);
    assert t[0] == UpperAll(s)[0];
    DelimiterOfUpper(t);
    assert t[..n] == UpperAll(s[..n]) && t[n..] == LowerAll(s[n..]);
    CapitalsNotFound(s[..n], s[n..]);
  }

  lemma {:induction false} SpoiledHasNoTokens(s: Bytes)
    requires !NoLetteredTag(s)
    ensures Tokens(Spoiled(s)) == None
    decreases |s|
  {
    if OpensLettered(s) {
      SpoiledLiteral(s);
    } else {
      var r := NextToken(s).rest;
      SpoiledIsSameText(s);
      SameNextToken(s, Spoiled(s));
      assert Spoiled(s)[|s| - |r|..] == Spoiled(r);
      SpoiledHasNoTokens(r);
    }
  }

  /** The class of a text that has one is independent of letter case exactly when no dollar quote has a letter
      in its tag. */
  lemma CaseMattersExactly(s: Bytes)
    requires Classify(s) != Other
    ensures (forall t: Bytes :: UpperAll(t) == UpperAll(s) ==> Classify(t) == Classify(s)) <==> NoLetteredTag(s)
  {
    if NoLetteredTag(s) {
      forall t: Bytes | UpperAll(t) == UpperAll(s)
        ensures Classify(t) == Classify(s)
      {
        CaseIsIgnored(s, t);
      }
    } else {
      SpoiledIsSameText(s);
      SpoiledHasNoTokens(s);
      assert Classify(Spoiled(s)) == Other;
    }
  }

  lemma WordThenDollar(word: Bytes, x: Bytes)
    requires word != [] && IsAlpha(word[0]) && x != [] && x[0] == DOLLAR
    requires forall i :: 0 <= i < |word| ==> IsWordByte(word[i])
    ensures NextToken(word + x) == Lexeme(Word(UpperAll(word)), x)
  {
    var s := word + x;
    var n := WordLength(s);
    assert s[|word|] == DOLLAR;
    assert forall i :: 0 <= i < |word| ==> IsWordByte(s[i]);
    assert n == |word|;
    assert s[..n] == word && s[n..] == x;
  }

  lemma TaggedLiteral(tag: byte, close: byte)
    requires IsAlpha(tag) && IsAlpha(close)
    ensures NextToken([DOLLAR, tag, DOLLAR, DOLLAR, close, DOLLAR]) ==
            if tag == close then Lexeme(Literal, []) else Unterminated
  {
    var s: Bytes := [DOLLAR, tag, DOLLAR, DOLLAR, close, DOLLAR];
    assert s[1..][1..] == s[2..];
    assert WordLength(s[2..]) == 0;
    assert WordLength(s[1..]) == 1;
    assert DelimiterLength(s) == Some(3);
    var body, delimiter: Bytes := s[3..], s[..3];
    assert body[1] == close && delimiter[1] == tag;
    if tag == close {
      assert body[..3] == delimiter;
      FindIsFirst(body, delimiter, 0);
      assert s[6..] == [];
    } else {
      assert body[..3] != delimiter && body[0..] == body;
      FindIsFirst(body, delimiter, 1);
    }
  }

  lemma ClassAfterOneWord(s: Bytes, word: Bytes, x: Bytes)
    requires s != [] && NextToken(s) == Lexeme(Word(word), x)
    requires x != [] && NextToken(x) in {Unterminated, Lexeme(Literal, [])}
    ensures Classify(s) == if NextToken(x) == Unterminated then Other else KeywordClass([word])
  {
    ResumeStart(s);
    ResumeStep(s, [], false);
    assert [] + [word] == [word];
    ResumeStep(x, [word], false);
    assert [word] + [] == [word];
  }

  /** The delimiters of dollar quotes are compared byte by byte: `END$a$$a$` commits, `END$a$$A$` is not
      even terminated. */
  lemma CaseMattersInDelimiters()
    ensures exists s: Bytes, t: Bytes :: UpperAll(s) == UpperAll(t) && Classify(s) != Classify(t)
  {
    var x: Bytes := [DOLLAR, 97, DOLLAR, DOLLAR, 97, DOLLAR];
    var y: Bytes := [DOLLAR, 97, DOLLAR, DOLLAR, 65, DOLLAR];
    TaggedLiteral(97, 97);
    TaggedLiteral(97, 65);
    WordThenDollar(END, x);
    WordThenDollar(END, y);
    assert UpperAll(END) == END;
    ClassAfterOneWord(END + x, END, x);
    ClassAfterOneWord(END + y, END, y);
    assert UpperAll(END + x) == UpperAll(END + y);
  }
}
