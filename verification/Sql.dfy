/** The statement classifier: crates/pgfault-events/src/lib.rs. */
module Sql {
  import opened Base

  datatype StatementClass = Begin | Commit | Rollback | Select | Insert | Update | Delete | Merge | Ddl | Other

  const NEWLINE: byte := 10
  const QUOTE: byte := 39
  const DOUBLE_QUOTE: byte := 34
  const DOLLAR: byte := 36
  const STAR: byte := 42
  const DASH: byte := 45
  const SLASH: byte := 47
  const SEMICOLON: byte := 59
  const BACKSLASH: byte := 92
  const UNDERSCORE: byte := 95

  predicate IsSpace(b: byte) {
    b == 32 || b == 9 || b == 10 || b == 12 || b == 13
  }

  predicate IsAlpha(b: byte) {
    65 <= b <= 90 || 97 <= b <= 122
  }

  predicate IsWordByte(b: byte) {
    IsAlpha(b) || 48 <= b <= 57 || b == UNDERSCORE
  }

  function Upper(b: byte): byte {
    if 97 <= b <= 122 then b - 32 else b
  }

  function UpperAll(s: Bytes): (u: Bytes)
    ensures |u| == |s|
  {
    seq(|s|, i requires 0 <= i < |s| => Upper(s[i]))
  }

  predicate Pair(s: Bytes, first: byte, second: byte) {
    |s| >= 2 && s[0] == first && s[1] == second
  }

  // ---- the lexer ----------------------------------------------------------

  /** Whitespace and comments are blank; quoted text is a literal whose content is not looked at. */
  datatype Token = Blank | Separator | Literal | Word(text: Bytes) | Symbol

  /** One token and the input after it, or an unterminated comment or literal. */
  datatype Lexeme = Unterminated | Lexeme(token: Token, rest: Bytes)

  /** The input from the end of the current line on. */
  function LineRest(s: Bytes): (r: Bytes)
    ensures |r| <= |s|
    ensures s != [] && s[0] != NEWLINE ==> |r| < |s|
  {
    if s == [] || s[0] == NEWLINE then s else LineRest(s[1..])
  }

  /** The input after the comment whose `depth` openings are still unclosed. */
  function CommentRest(s: Bytes, depth: nat): (r: Option<Bytes>)
    ensures r.Some? ==> |r.value| <= |s|
  {
    if depth == 0 then Some(s)
    else if s == [] then None
    else if Pair(s, SLASH, STAR) then CommentRest(s[2..], depth + 1)
    else if Pair(s, STAR, SLASH) then CommentRest(s[2..], depth - 1)
    else CommentRest(s[1..], depth)
  }

  /** The input after the closing quote; a doubled quote and a backslash pair are content. */
  function QuoteRest(s: Bytes, quote: byte): (r: Option<Bytes>)
    ensures r.Some? ==> |r.value| < |s|
  {
    if s == [] then None
    else if s[0] == BACKSLASH then (if |s| == 1 then None else QuoteRest(s[2..], quote))
    else if s[0] != quote then QuoteRest(s[1..], quote)
    else if Pair(s, quote, quote) then QuoteRest(s[2..], quote)
    else Some(s[1..])
  }

  /** How many leading bytes belong to a word. */
  function WordLength(s: Bytes): (n: nat)
    ensures n <= |s|
    ensures forall i :: 0 <= i < n ==> IsWordByte(s[i])
    ensures n < |s| ==> !IsWordByte(s[n])
  {
    if s == [] || !IsWordByte(s[0]) then 0
    else
      var n := WordLength(s[1..]);
      assert forall i :: 1 <= i < n + 1 ==> s[i] == s[1..][i - 1];
      1 + n
  }

  /** The first place where `needle` occurs. */
  function Find(s: Bytes, needle: Bytes): (r: Option<nat>)
    ensures r.Some? ==> r.value + |needle| <= |s| && HasPrefix(s[r.value..], needle)
  {
    if HasPrefix(s, needle) then Some(0)
    else if s == [] then None
    else
      var r := Find(s[1..], needle);
      assert forall k :: 1 <= k <= |s| ==> s[k..] == s[1..][k - 1..];
      if r.None? then None else Some(r.value + 1)
  }

  /** It is the first place. */
  lemma {:induction false} FindLeast(s: Bytes, needle: Bytes)
    ensures forall k :: 0 <= k <= |s| && (Find(s, needle).None? || k < Find(s, needle).value) ==> !HasPrefix(s[k..], needle)
  {
    if !HasPrefix(s, needle) && s != [] {
      FindLeast(s[1..], needle);
      assert forall k :: 1 <= k <= |s| ==> s[k..] == s[1..][k - 1..];
    }
  }

  /** The length of a dollar-quote delimiter such as `$tag$` at the front, if there is one. */
  function DelimiterLength(s: Bytes): (r: Option<nat>)
    requires s != [] && s[0] == DOLLAR
    ensures r.Some? ==> 2 <= r.value <= |s|
  {
    var n := 1 + WordLength(s[1..]);
    if n < |s| && s[n] == DOLLAR then Some(n + 1) else None
  }

  function Skip(token: Token, rest: Option<Bytes>): Lexeme {
    match rest
    case None => Unterminated
    case Some(r) => Lexeme(token, r)
  }

  function NextToken(s: Bytes): (x: Lexeme)
    requires s != []
    ensures x.Lexeme? ==> |x.rest| < |s|
  {
    if IsSpace(s[0]) then Lexeme(Blank, s[1..])
    else if Pair(s, DASH, DASH) then Lexeme(Blank, LineRest(s))
    else if Pair(s, SLASH, STAR) then Skip(Blank, CommentRest(s[2..], 1))
    else if s[0] == SEMICOLON then Lexeme(Separator, s[1..])
    else if s[0] == QUOTE || s[0] == DOUBLE_QUOTE then Skip(Literal, QuoteRest(s[1..], s[0]))
    else if s[0] == DOLLAR && DelimiterLength(s).Some? then
      var n := DelimiterLength(s).value;
      var at := Find(s[n..], s[..n]);
      if at.None? then Unterminated else Lexeme(Literal, s[n + at.value + n..])
    else if IsAlpha(s[0]) then
      var n := WordLength(s);
      Lexeme(Word(UpperAll(s[..n])), s[n..])
    else Lexeme(Symbol, s[1..])
  }

  function Tokens(s: Bytes): Option<seq<Token>>
    decreases |s|
  {
    if s == [] then Some([])
    else
      var x := NextToken(s);
      if x.Unterminated? then None
      else
        var tail := Tokens(x.rest);
        if tail.None? then None else Some([x.token] + tail.value)
  }

  function Words(ts: seq<Token>): seq<Bytes> {
    if ts == [] then []
    else (if ts[0].Word? then [ts[0].text] else []) + Words(ts[1..])
  }

  predicate HasText(ts: seq<Token>) {
    exists i :: 0 <= i < |ts| && ts[i] != Blank
  }

  /** Something other than blank space follows a statement separator. */
  predicate MultiStatement(ts: seq<Token>) {
    exists i, j :: 0 <= i < j < |ts| && ts[i] == Separator && ts[j] != Blank
  }

  const BEGIN: Bytes := [66, 69, 71, 73, 78]
  const START: Bytes := [83, 84, 65, 82, 84]
  const COMMIT: Bytes := [67, 79, 77, 77, 73, 84]
  const END: Bytes := [69, 78, 68]
  const ROLLBACK: Bytes := [82, 79, 76, 76, 66, 65, 67, 75]
  const ABORT: Bytes := [65, 66, 79, 82, 84]
  const PREPARED: Bytes := [80, 82, 69, 80, 65, 82, 69, 68]
  const CHAIN: Bytes := [67, 72, 65, 73, 78]
  const TO: Bytes := [84, 79]
  const SELECT: Bytes := [83, 69, 76, 69, 67, 84]
  const VALUES: Bytes := [86, 65, 76, 85, 69, 83]
  const TABLE: Bytes := [84, 65, 66, 76, 69]
  const INSERT: Bytes := [73, 78, 83, 69, 82, 84]
  const UPDATE: Bytes := [85, 80, 68, 65, 84, 69]
  const DELETE: Bytes := [68, 69, 76, 69, 84, 69]
  const MERGE: Bytes := [77, 69, 82, 71, 69]
  const CREATE: Bytes := [67, 82, 69, 65, 84, 69]
  const ALTER: Bytes := [65, 76, 84, 69, 82]
  const DROP: Bytes := [68, 82, 79, 80]
  const TRUNCATE: Bytes := [84, 82, 85, 78, 67, 65, 84, 69]

  function KeywordClass(words: seq<Bytes>): StatementClass {
    if words == [] then Other
    else
      var w := words[0];
      if w == BEGIN || w == START then Begin
      else if (w == COMMIT || w == END) && PREPARED !in words && CHAIN !in words then Commit
      else if (w == ROLLBACK || w == ABORT) && TO !in words && PREPARED !in words && CHAIN !in words then Rollback
      else if w == SELECT || w == VALUES || w == TABLE then Select
      else if w == INSERT then Insert
      else if w == UPDATE then Update
      else if w == DELETE then Delete
      else if w == MERGE then Merge
      else if w == CREATE || w == ALTER || w == DROP || w == TRUNCATE then Ddl
      else Other
  }

  /** Tokenize, refuse what is unterminated or holds several statements, then look at the words. */
  function Classify(sql: Bytes): StatementClass {
    match Tokens(sql)
    case None => Other
    case Some(ts) => if MultiStatement(ts) then Other else KeywordClass(Words(ts))
  }

  // ---- the scanner --------------------------------------------------------

  /** The class of a text of which `s` is still unread, `words` were seen and `ended` says whether a
      separator was. */
  function Resume(s: Bytes, words: seq<Bytes>, ended: bool): StatementClass {
    match Tokens(s)
    case None => Other
    case Some(ts) =>
      if MultiStatement(ts) || (ended && HasText(ts)) then Other else KeywordClass(words + Words(ts))
  }

  lemma HasTextCons(t: Token, ts: seq<Token>)
    ensures HasText([t] + ts) <==> t != Blank || HasText(ts)
  {
    var all := [t] + ts;
    if HasText(ts) {
      var i :| 0 <= i < |ts| && ts[i] != Blank;
      assert all[i + 1] != Blank;
    }
    if t != Blank {
      assert all[0] != Blank;
    }
  }

  lemma MultiStatementCons(t: Token, ts: seq<Token>)
    ensures MultiStatement([t] + ts) <==> MultiStatement(ts) || (t == Separator && HasText(ts))
  {
    var all := [t] + ts;
    if MultiStatement(ts) {
      var i, j :| 0 <= i < j < |ts| && ts[i] == Separator && ts[j] != Blank;
      assert all[i + 1] == Separator && all[j + 1] != Blank;
    }
    if t == Separator && HasText(ts) {
      var j :| 0 <= j < |ts| && ts[j] != Blank;
      assert all[0] == Separator && all[j + 1] != Blank;
    }
    if MultiStatement(all) {
      var i, j :| 0 <= i < j < |all| && all[i] == Separator && all[j] != Blank;
      assert ts[j - 1] != Blank;
      if i > 0 {
        assert ts[i - 1] == Separator;
      }
    }
  }

  /** One scanning step: read a token, stop on an unterminated one or on text after a separator. */
  lemma ResumeStep(s: Bytes, words: seq<Bytes>, ended: bool)
    requires s != []
    ensures Resume(s, words, ended) ==
            match NextToken(s)
            case Unterminated => Other
            case Lexeme(t, rest) =>
              if ended && t != Blank then Other
              else Resume(rest, if t.Word? then words + [t.text] else words, ended || t == Separator)
  {
    var x := NextToken(s);
    if x.Lexeme? && Tokens(x.rest).Some? {
      var ts := Tokens(x.rest).value;
      HasTextCons(x.token, ts);
      MultiStatementCons(x.token, ts);
      assert ([x.token] + ts)[1..] == ts;
      if x.token.Word? {
        assert words + ([x.token.text] + Words(ts)) == (words + [x.token.text]) + Words(ts);
      } else {
        assert [] + Words(ts) == Words(ts);
      }
    }
  }

  lemma ResumeStart(sql: Bytes)
    ensures Classify(sql) == Resume(sql, [], false)
  {
    if Tokens(sql).Some? {
      assert [] + Words(Tokens(sql).value) == Words(Tokens(sql).value);
    }
  }

  method LineEnd(sql: Bytes, from: nat) returns (i: nat)
    requires from <= |sql|
    ensures i <= |sql| && sql[i..] == LineRest(sql[from..])
  {
    i := from;
    while i < |sql| && sql[i] != NEWLINE
      invariant from <= i <= |sql|
      invariant LineRest(sql[from..]) == LineRest(sql[i..])
    {
      assert sql[i..][1..] == sql[i + 1..];
      i := i + 1;
    }
  }

  lemma CommentStep(sql: Bytes, i: nat, depth: nat)
    requires i < |sql| && depth > 0
    ensures HasPrefix(sql[i..], [SLASH, STAR]) || HasPrefix(sql[i..], [STAR, SLASH]) ==> i + 2 <= |sql|
    ensures CommentRest(sql[i..], depth) ==
            if HasPrefix(sql[i..], [SLASH, STAR]) then CommentRest(sql[i + 2..], depth + 1)
            else if HasPrefix(sql[i..], [STAR, SLASH]) then CommentRest(sql[i + 2..], depth - 1)
            else CommentRest(sql[i + 1..], depth)
  {
    assert sql[i..][1..] == sql[i + 1..];
    assert i + 2 <= |sql| ==> sql[i..][2..] == sql[i + 2..];
  }

  method CommentEnd(sql: Bytes, from: nat) returns (i: nat, closed: bool)
    requires from <= |sql|
    ensures i <= |sql|
    ensures CommentRest(sql[from..], 1) == if closed then Some(sql[i..]) else None
  {
    i := from;
    var depth: nat := 1;
    while i < |sql| && depth > 0
      invariant from <= i <= |sql|
      invariant CommentRest(sql[from..], 1) == CommentRest(sql[i..], depth)
    {
      CommentStep(sql, i, depth);
      if HasPrefix(sql[i..], [SLASH, STAR]) {
        depth := depth + 1;
        i := i + 2;
      } else if HasPrefix(sql[i..], [STAR, SLASH]) {
        depth := depth - 1;
        i := i + 2;
      } else {
        i := i + 1;
      }
    }
    closed := depth == 0;
  }

  method QuoteEnd(sql: Bytes, from: nat, quote: byte) returns (i: nat, closed: bool)
    requires from <= |sql|
    requires quote != BACKSLASH
    ensures i <= |sql|
    ensures QuoteRest(sql[from..], quote) == if closed then Some(sql[i..]) else None
  {
    i := from;
    closed := false;
    while i < |sql|
      invariant from <= i <= |sql|
      invariant QuoteRest(sql[from..], quote) == QuoteRest(sql[i..], quote)
    {
      assert forall k :: i + k <= |sql| && 0 <= k ==> sql[i..][k..] == sql[i + k..];
      if sql[i] == BACKSLASH {
        i := if i + 2 < |sql| then i + 2 else |sql|;
        continue;
      }
      if sql[i] == quote {
        i := i + 1;
        if i < |sql| && sql[i] == quote {
          i := i + 1;
        } else {
          closed := true;
          return;
        }
      } else {
        i := i + 1;
      }
    }
  }

  method WordEnd(sql: Bytes, from: nat) returns (i: nat)
    requires from <= |sql|
    ensures i == from + WordLength(sql[from..]) <= |sql|
  {
    i := from;
    while i < |sql| && IsWordByte(sql[i])
      invariant from <= i <= |sql|
      invariant from + WordLength(sql[from..]) == i + WordLength(sql[i..])
    {
      assert sql[i..][1..] == sql[i + 1..];
      i := i + 1;
    }
  }

  lemma FindIsFirst(s: Bytes, needle: Bytes, k: nat)
    requires k <= |s|
    requires forall j :: 0 <= j < k ==> !HasPrefix(s[j..], needle)
    ensures HasPrefix(s[k..], needle) ==> Find(s, needle) == Some(k)
    ensures |s| < k + |needle| ==> Find(s, needle) == None
  {
    FindLeast(s, needle);
  }

  /** `windows(n).position(..)`. */
  method Search(s: Bytes, needle: Bytes) returns (r: Option<nat>)
    requires needle != []
    ensures r == Find(s, needle)
  {
    var k := 0;
    while k + |needle| <= |s|
      invariant k <= |s|
      invariant forall j :: 0 <= j < k ==> !HasPrefix(s[j..], needle)
    {
      FindIsFirst(s, needle, k);
      assert s[k..][..|needle|] == s[k..k + |needle|];
      if s[k..k + |needle|] == needle {
        return Some(k);
      }
      k := k + 1;
    }
    FindIsFirst(s, needle, k);
    r := None;
  }

  /** The blank token at `from`, if one starts there, and where it ends. */
  method BlankEnd(sql: Bytes, from: nat) returns (blank: bool, closed: bool, i: nat)
    requires from < |sql|
    ensures i <= |sql|
    ensures blank ==> NextToken(sql[from..]) == if closed then Lexeme(Blank, sql[i..]) else Unterminated
    ensures !blank ==> i == from && !IsSpace(sql[from]) && !Pair(sql[from..], DASH, DASH) && !Pair(sql[from..], SLASH, STAR)
  {
    blank, closed, i := true, true, from;
    assert sql[from..][1..] == sql[from + 1..];
    if IsSpace(sql[i]) {
      i := i + 1;
    } else if HasPrefix(sql[i..], [DASH, DASH]) {
      i := LineEnd(sql, i);
    } else if HasPrefix(sql[i..], [SLASH, STAR]) {
      assert sql[from..][2..] == sql[from + 2..];
      i, closed := CommentEnd(sql, i + 2);
    } else {
      blank := false;
    }
  }

  lemma SliceOfRest(sql: Bytes, from: nat, to: nat)
    requires from <= to <= |sql|
    ensures sql[from..to] == sql[from..][..to - from]
    ensures sql[to..] == sql[from..][to - from..]
  {
  }

  lemma DelimiterAt(sql: Bytes, from: nat, to: nat)
    requires from < |sql| && sql[from] == DOLLAR && to == from + 1 + WordLength(sql[from + 1..]) <= |sql|
    ensures DelimiterLength(sql[from..]) == if to < |sql| && sql[to] == DOLLAR then Some(to + 1 - from) else None
  {
    assert sql[from..][1..] == sql[from + 1..];
  }

  lemma SliceTwice(sql: Bytes, from: nat, n: nat, at: nat)
    requires from + n + at <= |sql|
    ensures sql[from + n + at..] == sql[from..][n + at..]
  {
  }

  /** Where the literal ends whose opening delimiter lies between `from` and `to`. */
  method ClosingEnd(sql: Bytes, from: nat, to: nat) returns (closed: bool, i: nat)
    requires from < to <= |sql|
    ensures from <= i <= |sql|
    ensures var s, n := sql[from..], to - from;
            var at := Find(s[n..], s[..n]);
            closed == at.Some? && (closed ==> sql[i..] == s[n + at.value + n..])
  {
    SliceOfRest(sql, from, to);
    var at := Search(sql[to..], sql[from..to]);
    closed := at.Some?;
    i := from;
    if closed {
      i := to + at.value + (to - from);
      SliceTwice(sql, from, to - from, at.value + (to - from));
    }
  }

  /** The dollar-quoted literal at `from`, if one starts there. */
  method DollarEnd(sql: Bytes, from: nat) returns (quoted: bool, closed: bool, i: nat)
    requires from < |sql| && sql[from] == DOLLAR
    ensures from <= i <= |sql|
    ensures var s := sql[from..];
            quoted == DelimiterLength(s).Some? &&
            (quoted ==> var n := DelimiterLength(s).value;
                        var at := Find(s[n..], s[..n]);
                        closed == at.Some? && (closed ==> sql[i..] == s[n + at.value + n..]))
  {
    quoted, closed, i := false, false, from;
    var j := WordEnd(sql, from + 1);
    DelimiterAt(sql, from, j);
    if j < |sql| && sql[j] == DOLLAR {
      quoted := true;
      closed, i := ClosingEnd(sql, from, j + 1);
    }
  }

  /** The token other than blank space at `from`, and where it ends. */
  method TokenEnd(sql: Bytes, from: nat) returns (x: Option<Token>, i: nat)
    requires from < |sql|
    requires !IsSpace(sql[from]) && !Pair(sql[from..], DASH, DASH) && !Pair(sql[from..], SLASH, STAR)
    ensures i <= |sql|
    ensures NextToken(sql[from..]) == if x.Some? then Lexeme(x.value, sql[i..]) else Unterminated
    ensures x.Some? ==> x.value != Blank
  {
    i := from;
    var b := sql[i];
    assert sql[from..][1..] == sql[from + 1..];
    if b == SEMICOLON {
      return Some(Separator), i + 1;
    }
    if b == QUOTE || b == DOUBLE_QUOTE {
      var closed;
      i, closed := QuoteEnd(sql, i + 1, b);
      return if closed then Some(Literal) else None, i;
    }
    if b == DOLLAR {
      var quoted, closed, j := DollarEnd(sql, i);
      if quoted {
        return if closed then Some(Literal) else None, j;
      }
    }
    if IsAlpha(b) {
      i := WordEnd(sql, i);
      SliceOfRest(sql, from, i);
      return Some(Word(UpperAll(sql[from..i]))), i;
    }
    return Some(Symbol), i + 1;
  }

  // ---- which words give which class ---------------------------------------

  /** The text tokenizes, and nothing but blanks follows a separator. */
  predicate Single(sql: Bytes) {
    Tokens(sql).Some? &&
    forall i, j :: 0 <= i < j < |Tokens(sql).value| && Tokens(sql).value[i] == Separator ==> Tokens(sql).value[j] == Blank
  }

  function WordsIn(sql: Bytes): seq<Bytes> {
    if Tokens(sql).Some? then Words(Tokens(sql).value) else []
  }

  predicate Starts(words: seq<Bytes>, word: Bytes) {
    words != [] && words[0] == word
  }

  /** A commit: COMMIT or END, without PREPARED and CHAIN. */
  predicate EndsByCommit(words: seq<Bytes>) {
    && (Starts(words, [67, 79, 77, 77, 73, 84]) || Starts(words, [69, 78, 68]))
    && [80, 82, 69, 80, 65, 82, 69, 68] !in words && [67, 72, 65, 73, 78] !in words
  }

  /** A rollback: ROLLBACK or ABORT, without TO, PREPARED and CHAIN. */
  predicate EndsByRollback(words: seq<Bytes>) {
    && (Starts(words, [82, 79, 76, 76, 66, 65, 67, 75]) || Starts(words, [65, 66, 79, 82, 84]))
    && [84, 79] !in words && [80, 82, 69, 80, 65, 82, 69, 68] !in words && [67, 72, 65, 73, 78] !in words
  }

  /** SELECT, VALUES or TABLE. */
  predicate Queries(words: seq<Bytes>) {
    Starts(words, [83, 69, 76, 69, 67, 84]) || Starts(words, [86, 65, 76, 85, 69, 83]) || Starts(words, [84, 65, 66, 76, 69])
  }

  /** CREATE, ALTER, DROP or TRUNCATE. */
  predicate Defines(words: seq<Bytes>) {
    Starts(words, [67, 82, 69, 65, 84, 69]) || Starts(words, [65, 76, 84, 69, 82]) || Starts(words, [68, 82, 79, 80]) ||
    Starts(words, [84, 82, 85, 78, 67, 65, 84, 69])
  }

  /** The class is the one its first word calls for, letter by letter, and Other when it calls for none. */
  predicate Says(single: bool, words: seq<Bytes>, kind: StatementClass) {
    && (kind == Begin <==> single && (Starts(words, [66, 69, 71, 73, 78]) || Starts(words, [83, 84, 65, 82, 84])))
    && (kind == Commit <==> single && EndsByCommit(words))
    && (kind == Rollback <==> single && EndsByRollback(words))
    && (kind == Select <==> single && Queries(words))
    && (kind == Insert <==> single && Starts(words, [73, 78, 83, 69, 82, 84]))
    && (kind == Update <==> single && Starts(words, [85, 80, 68, 65, 84, 69]))
    && (kind == Delete <==> single && Starts(words, [68, 69, 76, 69, 84, 69]))
    && (kind == Merge <==> single && Starts(words, [77, 69, 82, 71, 69]))
    && (kind == Ddl <==> single && Defines(words))
  }

  lemma WordsSay(words: seq<Bytes>)
    ensures Says(true, words, KeywordClass(words))
  {
  }

  lemma ClassSays(sql: Bytes)
    ensures Says(Single(sql), WordsIn(sql), Classify(sql))
  {
    if Single(sql) {
      assert !MultiStatement(Tokens(sql).value);
      WordsSay(WordsIn(sql));
    }
  }

  /** The byte scanner. It indexes within bounds, terminates and agrees with the lexer on every input; the
      class is the one that the words of a single statement call for. */
  method Scan(sql: Bytes) returns (kind: StatementClass)
    ensures kind == Classify(sql)
    ensures Says(Single(sql), WordsIn(sql), kind)
  {
    ClassSays(sql);
    var i := 0;
    var words: seq<Bytes> := [];
    var ended := false;
    assert sql[0..] == sql;
    ResumeStart(sql);
    while i < |sql|
      invariant i <= |sql|
      invariant Classify(sql) == Resume(sql[i..], words, ended)
      decreases |sql| - i
    {
      ResumeStep(sql[i..], words, ended);
      var blank, closed, j := BlankEnd(sql, i);
      if blank {
        if !closed {
          return Other;
        }
        i := j;
        continue;
      }
      var x;
      x, j := TokenEnd(sql, i);
      if ended || x.None? {
        return Other;
      }
      match x.value {
        case Separator => ended := true;
        case Word(text) => words := words + [text];
        case _ =>
      }
      i := j;
    }
    assert Tokens(sql[i..]) == Some([]);
    assert words + [] == words;
    kind := KeywordClass(words);
  }
}
