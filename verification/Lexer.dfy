/** The SQL lexer and the start of the statement parser: words, quoted identifiers, literals,
    numbers and signs, with blanks and comments between them, and the statements LISTEN and
    UNLISTEN. */
module Lexer {
  import opened Options
  import opened Scanners

  datatype Token =
    | Word(text: string)
    | QuotedIdent(text: string)
    | Literal(text: string)
    | Number(text: string)
    | Star
    | LParen
    | RParen
    | Other

  // ---------------------------------------------------------------------
  // Noise
  // ---------------------------------------------------------------------

  predicate Whitespace(c: char) {
    c == ' ' || c == '\t' || c == '\n' || c == '\r' || c == 12 as char
  }

  function BehindLine(s: string): (rest: string)
    ensures |rest| <= |s|
  {
    if s == [] || s[0] == '\n' then s else BehindLine(s[1..])
  }

  predicate StartsWith(s: string, a: char, b: char) {
    |s| > 1 && s[0] == a && s[1] == b
  }

  /** Whitespace, line comments and block comments, in any order. */
  function Noise(s: string): (rest: string)
    ensures |rest| <= |s|
    decreases |s|
  {
    if s == [] then []
    else if Whitespace(s[0]) then Noise(s[1..])
    else if StartsWith(s, '-', '-') then Noise(BehindLine(s[2..]))
    else if StartsWith(s, '/', '*') then Noise(BehindComment(s[2..], 1))
    else s
  }

  // ---------------------------------------------------------------------
  // Tokens
  // ---------------------------------------------------------------------

  predicate WordStart(c: char) {
    'a' <= c <= 'z' || 'A' <= c <= 'Z' || c == '_'
  }

  predicate Digit(c: char) {
    '0' <= c <= '9'
  }

  /** Characters in front that a word, or a dollar tag, may hold. */
  function TagChars(s: string): (n: nat)
    ensures n <= |s|
  {
    if s == [] || !TagChar(s[0]) then 0 else 1 + TagChars(s[1..])
  }

  function Digits(s: string): (n: nat)
    ensures n <= |s|
  {
    if s == [] || !Digit(s[0]) then 0 else 1 + Digits(s[1..])
  }

  function LowerChar(c: char): char {
    if 'A' <= c <= 'Z' then (c as int + 32) as char else c
  }

  function Lower(s: string): string {
    if s == [] then [] else [LowerChar(s[0])] + Lower(s[1..])
  }

  /** Behind a dollar: a tag and its body, or a tag that turned out not to be one together
      with the character that showed it. */
  function BehindDollar(s: string): (rest: string)
    ensures |rest| <= |s|
  {
    var n := TagChars(s);
    if n == |s| then []
    else if s[n] != '$' then s[n + 1..]
    else
      var body := s[n + 1..];
      match Search(body, "$" + s[..n] + "$", 0)
      case Some(end) => if end <= |body| then body[end..] else []
      case None => []
  }

  function FirstToken(s: string): (r: (Token, string))
    requires s != []
    ensures |r.1| < |s|
  {
    var c, rest := s[0], s[1..];
    if WordStart(c) then
      var n := 1 + TagChars(rest);
      (Word(Lower(s[..n])), s[n..])
    else if c == '"' then
      var (content, behind) := Quoted('"', rest);
      (QuotedIdent(content), behind)
    else if Digit(c) then (Number(s[..Digits(s)]), s[Digits(s)..])
    else if c == '*' then (Star, rest)
    else if c == '(' then (LParen, rest)
    else if c == ')' then (RParen, rest)
    else if c == '\'' then
      var (content, behind) := Quoted('\'', rest);
      (Literal(Lower(content)), behind)
    else if c == '$' then (Other, BehindDollar(rest))
    else (Other, rest)
  }

  function Tokens(s: string): seq<Token>
    decreases |s|
  {
    if s == [] then []
    else
      var (token, rest) := FirstToken(s);
      [token] + Tokens(Noise(rest))
  }

  function Lex(s: string): seq<Token> {
    Tokens(Noise(s))
  }

  // ---------------------------------------------------------------------
  // Statements
  // ---------------------------------------------------------------------

  /** Which of the other statements it is, is not part of this model. */
  datatype Statement = Listen(channel: string) | Unlisten(channel: string) | UnlistenAll | AnotherStatement

  predicate IsIdentifier(t: Token) {
    t.Word? || t.QuotedIdent?
  }

  function Parse(tokens: seq<Token>): Statement {
    if tokens == [] || !tokens[0].Word? then AnotherStatement
    else if tokens[0].text == "listen" then
      if |tokens| > 1 && IsIdentifier(tokens[1]) then Listen(tokens[1].text) else AnotherStatement
    else if tokens[0].text == "unlisten" then
      if |tokens| > 1 && tokens[1] == Star then UnlistenAll
      else if |tokens| > 1 && IsIdentifier(tokens[1]) then Unlisten(tokens[1].text)
      else AnotherStatement
    else AnotherStatement
  }

  class Cursor {
    const tokens: seq<Token>
    var pos: nat

    constructor (tokens: seq<Token>)
      ensures this.tokens == tokens && pos == 0
    {
      this.tokens := tokens;
      pos := 0;
    }

    /** What has not been read. */
    function Rest(): seq<Token>
      reads this
    {
      if pos <= |tokens| then tokens[pos..] else []
    }

    method Peek() returns (t: Option<Token>)
      ensures t == if Rest() == [] then None else Some(Rest()[0])
    {
      t := if pos < |tokens| then Some(tokens[pos]) else None;
    }

    method Advance() returns (t: Option<Token>)
      modifies this
      ensures t == if old(Rest()) == [] then None else Some(old(Rest())[0])
      ensures Rest() == if old(Rest()) == [] then [] else old(Rest())[1..]
    {
      if pos >= |tokens| {
        return None;
      }
      t := Some(tokens[pos]);
      pos := pos + 1;
    }

    method EatIdentifier() returns (name: Option<string>)
      modifies this
      ensures var rest := old(Rest());
              if rest != [] && IsIdentifier(rest[0]) then name == Some(rest[0].text) && Rest() == rest[1..]
              else name == None && Rest() == rest
    {
      name := None;
      var t := Peek();
      if t.Some? && IsIdentifier(t.value) {
        name := Some(t.value.text);
        pos := pos + 1;
      }
    }

    method ParseListen() returns (st: Statement)
      requires Rest() != [] && Rest()[0] == Word("listen")
      modifies this
      ensures st == Parse(old(Rest()))
    {
      var _ := Advance();
      var name := EatIdentifier();
      st := if name.Some? then Listen(name.value) else AnotherStatement;
    }

    method ParseUnlisten() returns (st: Statement)
      requires Rest() != [] && Rest()[0] == Word("unlisten")
      modifies this
      ensures st == Parse(old(Rest()))
    {
      var _ := Advance();
      var t := Peek();
      if t == Some(Star) {
        var _ := Advance();
        return UnlistenAll;
      }
      var name := EatIdentifier();
      st := if name.Some? then Unlisten(name.value) else AnotherStatement;
    }

    method ParseStatement() returns (st: Statement)
      modifies this
      ensures st == Parse(old(Rest()))
    {
      var first := Peek();
      if first == Some(Word("listen")) {
        st := ParseListen();
      } else if first == Some(Word("unlisten")) {
        st := ParseUnlisten();
      } else {
        st := AnotherStatement;
      }
    }
  }

  // ---------------------------------------------------------------------
  // Comments do not matter
  // ---------------------------------------------------------------------

  /** Any text whose openings and closings balance at its end, closing the comment there. */
  predicate WellNested(t: string) {
    Closes(Split(t), 1)
  }

  /** A block comment in front, however nested, does not change the tokens. */
  lemma CommentInFrontIsIgnored(t: string, s: string)
    requires WellNested(t)
    ensures Lex("/*" + t + s) == Lex(s)
  {
    SplitIsSeparate(t);
    CommentEndsWhereItCloses(Split(t), 1, s);
    var all := "/*" + t + s;
    assert all[2..] == t + s;
  }

  // ---------------------------------------------------------------------
  // What the listener sends is read back
  // ---------------------------------------------------------------------

  function InQuotes(ch: string): string {
    "\"" + Doubled('"', ch) + "\""
  }

  lemma QuotedNameIsOneToken(ch: string)
    ensures Tokens(InQuotes(ch)) == [QuotedIdent(ch)]
  {
    var s := InQuotes(ch);
    assert s[1..] == Doubled('"', ch) + ['"'] + [];
    QuotedUndoesDoubled('"', ch, []);
    assert FirstToken(s) == (QuotedIdent(ch), []);
    assert Tokens(Noise([])) == [];
  }

  predicate IsKeyword(word: string) {
    word != [] && WordStart(word[0]) && forall i :: 0 <= i < |word| ==> TagChar(word[i])
  }

  lemma WordIsFirst(word: string, s: string)
    requires IsKeyword(word) && s != [] && !TagChar(s[0])
    ensures FirstToken(word + s) == (Word(Lower(word)), s)
  {
    var all := word + s;
    assert all[1..] == word[1..] + s;
    TagCharsAre(word[1..], s);
    assert all[..|word|] == word && all[|word|..] == s;
  }

  /** A keyword, a blank, and what comes after it. */
  lemma KeywordThenBlank(keyword: string, s: string)
    requires IsKeyword(keyword)
    ensures Lex(keyword + " " + s) == [Word(Lower(keyword))] + Lex(s)
  {
    assert keyword + " " + s == keyword + (" " + s);
    WordIsFirst(keyword, " " + s);
    assert Noise(keyword + (" " + s)) == keyword + (" " + s);
    assert (" " + s)[1..] == s;
  }

  lemma {:induction false} TagCharsAre(a: string, b: string)
    requires (forall i :: 0 <= i < |a| ==> TagChar(a[i])) && b != [] && !TagChar(b[0])
    ensures TagChars(a + b) == |a|
  {
    if a == [] {
      assert a + b == b;
    } else {
      assert (a + b)[1..] == a[1..] + b;
      TagCharsAre(a[1..], b);
    }
  }

  lemma ListenWords()
    ensures Lower("LISTEN") == "listen" && Lower("UNLISTEN") == "unlisten"
  {
    assert Lower("UNLISTEN") == ['u', 'n'] + Lower("LISTEN") by {
      assert "UNLISTEN"[1..] == "NLISTEN" && "NLISTEN"[1..] == "LISTEN";
    }
    assert "LISTEN"[1..] == "ISTEN" && "ISTEN"[1..] == "STEN" && "STEN"[1..] == "TEN" && "TEN"[1..] == "EN" &&
          "EN"[1..] == "N" && "N"[1..] == "";
  }

  lemma KeywordThenQuoted(keyword: string, ch: string)
    requires IsKeyword(keyword)
    ensures Lower(keyword) == "listen" ==> Parse(Lex(keyword + " " + InQuotes(ch))) == Listen(ch)
    ensures Lower(keyword) == "unlisten" ==> Parse(Lex(keyword + " " + InQuotes(ch))) == Unlisten(ch)
  {
    KeywordThenBlank(keyword, InQuotes(ch));
    QuotedNameIsOneToken(ch);
    assert Noise(InQuotes(ch)) == InQuotes(ch);
    assert Lex(keyword + " " + InQuotes(ch)) == [Word(Lower(keyword)), QuotedIdent(ch)];
  }

  function ListenText(ch: string): string {
    "LISTEN" + " " + InQuotes(ch)
  }

  function UnlistenText(ch: string): string {
    "UNLISTEN" + " " + InQuotes(ch)
  }

  /** For every channel name, whatever its characters, the statement the listener prints is
      read as LISTEN, or UNLISTEN, of exactly that name. */
  lemma ListenRoundTrip(ch: string)
    ensures Parse(Lex(ListenText(ch))) == Listen(ch)
    ensures Parse(Lex(UnlistenText(ch))) == Unlisten(ch)
  {
    ListenWords();
    KeywordThenQuoted("LISTEN", ch);
    KeywordThenQuoted("UNLISTEN", ch);
  }

  // ---------------------------------------------------------------------
  // Quoted bodies are opaque
  // ---------------------------------------------------------------------

  /** A dollar-quoted body is one token, whatever is inside, if the tag does not end earlier. */
  lemma DollarBodyIsHidden(name: string, body: string, s: string)
    requires forall i :: 0 <= i < |name| ==> TagChar(name[i])
    requires var tag := "$" + name + "$";
             FirstEnd(body + tag + s, tag, |body + tag|)
    ensures var tag := "$" + name + "$";
            Tokens(tag + body + tag + s) == [Other] + Lex(s)
  {
    var tag := "$" + name + "$";
    var behind := body + tag + s;
    var all := tag + body + tag + s;
    assert all[1..] == name + ("$" + behind);
    TagCharsAre(name, "$" + behind);
    assert all[1..][..|name|] == name && all[1..][|name| + 1..] == behind;
    SearchFindsFirst(behind, tag, 0);
    assert Search(behind, tag, 0) == Some(|body + tag|);
    assert behind[|body + tag|..] == s;
    assert FirstToken(all) == (Other, s);
  }

  /** A string literal is one token, lowercased, whatever is inside. */
  lemma LiteralRoundTrip(t: string)
    ensures Tokens("'" + Doubled('\'', t) + "'") == [Literal(Lower(t))]
  {
    var s := "'" + Doubled('\'', t) + "'";
    assert s[1..] == Doubled('\'', t) + ['\''] + [];
    QuotedUndoesDoubled('\'', t, []);
    assert FirstToken(s) == (Literal(Lower(t)), []);
    assert Tokens(Noise([])) == [];
  }

  // ---------------------------------------------------------------------
  // Unquoted names, and what is between tokens
  // ---------------------------------------------------------------------

  predicate IsLetter(c: char) {
    ('a' <= c && c <= 'z') || ('A' <= c && c <= 'Z')
  }

  /** A name as it may stand without quotes. */
  predicate IsName(w: string) {
    && w != [] && (IsLetter(w[0]) || w[0] == '_')
    && forall i :: 0 <= i < |w| ==> IsLetter(w[i]) || ('0' <= w[i] && w[i] <= '9') || w[i] == '_'
  }

  /** Nothing that goes on with a name. */
  predicate EndsName(s: string) {
    s == [] || !(IsLetter(s[0]) || ('0' <= s[0] && s[0] <= '9') || s[0] == '_')
  }

  lemma {:induction false} LowerAt(s: string, i: nat)
    requires i < |s|
    ensures |Lower(s)| == |s|
    ensures Lower(s)[i] == if 'A' <= s[i] <= 'Z' then (s[i] as int - 'A' as int + 'a' as int) as char else s[i]
  {
    if |s| > 1 {
      LowerAt(s[1..], if i == 0 then 0 else i - 1);
    }
  }

  lemma {:induction false} TagCharsEnd(a: string)
    requires forall i :: 0 <= i < |a| ==> TagChar(a[i])
    ensures TagChars(a) == |a|
  {
    if a != [] {
      TagCharsEnd(a[1..]);
    }
  }

  lemma NameIsFirst(w: string, s: string)
    requires IsName(w) && EndsName(s)
    ensures w + s != [] && FirstToken(w + s) == (Word(Lower(w)), s)
  {
    if s == [] {
      assert w + s == w;
      TagCharsEnd(w[1..]);
      assert w[..|w|] == w && w[|w|..] == s;
    } else {
      WordIsFirst(w, s);
    }
  }

  lemma NameIsLexed(w: string, s: string)
    requires IsName(w) && EndsName(s)
    ensures Lex(w + s) == [Word(Lower(w))] + Lex(s)
  {
    NameIsFirst(w, s);
    assert Noise(w + s) == w + s;
  }

  lemma KeywordNameIsRead(keyword: string, w: string, s: string)
    requires IsName(keyword) && IsName(w) && EndsName(s)
    ensures |Lex(keyword + " " + (w + s))| > 1
    ensures Lex(keyword + " " + (w + s))[0] == Word(Lower(keyword))
    ensures Lex(keyword + " " + (w + s))[1] == Word(Lower(w))
  {
    KeywordThenBlank(keyword, w + s);
    NameIsLexed(w, s);
  }

  /** LISTEN and UNLISTEN in any case, with an unquoted name, are of the name in lower case;
      UNLISTEN with a star is of everything. What follows does not matter. */
  lemma UnquotedNamesAreRead(keyword: string, w: string, s: string)
    requires IsName(keyword)
    ensures IsName(w) && EndsName(s) && Lower(keyword) == "listen" ==>
              Parse(Lex(keyword + " " + (w + s))) == Listen(Lower(w))
    ensures IsName(w) && EndsName(s) && Lower(keyword) == "unlisten" ==>
              Parse(Lex(keyword + " " + (w + s))) == Unlisten(Lower(w))
    ensures Lower(keyword) == "unlisten" ==> Parse(Lex(keyword + " " + ("*" + s))) == UnlistenAll
  {
    if IsName(w) && EndsName(s) {
      KeywordNameIsRead(keyword, w, s);
    }
    KeywordThenBlank(keyword, "*" + s);
    assert Noise("*" + s) == "*" + s;
    assert FirstToken("*" + s) == (Star, s) by {
      assert ("*" + s)[1..] == s;
    }
  }

  lemma {:induction false} LineEnds(t: string, s: string)
    requires '\n' !in t
    ensures BehindLine(t + "\n" + s) == "\n" + s
  {
    if t == [] {
      assert t + "\n" + s == "\n" + s;
    } else {
      LineEnds(t[1..], s);
      assert (t + "\n" + s)[1..] == t[1..] + "\n" + s;
    }
  }

  /** Blanks and line comments in front do not change the tokens. */
  lemma BlanksInFrontAreIgnored(c: char, t: string, s: string)
    ensures c == ' ' || c == '\t' || c == '\n' || c == '\r' || c as int == 12 ==> Lex([c] + s) == Lex(s)
    ensures '\n' !in t ==> Lex("--" + t + "\n" + s) == Lex(s)
  {
    assert ([c] + s)[1..] == s;
    if '\n' !in t {
      var all := "--" + t + "\n" + s;
      assert all[2..] == t + "\n" + s;
      LineEnds(t, s);
      assert ("\n" + s)[1..] == s;
      assert Noise("\n" + s) == Noise(s);
    }
  }

  // ---------------------------------------------------------------------
  // Numbers and signs, and what is never closed
  // ---------------------------------------------------------------------

  lemma {:induction false} DigitsAre(a: string, b: string)
    requires (forall i :: 0 <= i < |a| ==> '0' <= a[i] && a[i] <= '9') && (b == [] || b[0] < '0' || b[0] > '9')
    ensures Digits(a + b) == |a|
  {
    if a == [] {
      assert a + b == b;
    } else {
      assert (a + b)[1..] == a[1..] + b;
      DigitsAre(a[1..], b);
    }
  }

  /** A number is as long as its digits. */
  lemma NumbersAreWhole(n: string, s: string)
    requires n != [] && (forall i :: 0 <= i < |n| ==> '0' <= n[i] && n[i] <= '9') && (s == [] || s[0] < '0' || s[0] > '9')
    ensures Tokens(n + s) == [Number(n)] + Lex(s)
  {
    DigitsAre(n, s);
    assert (n + s)[..|n|] == n && (n + s)[|n|..] == s;
  }

  /** A star or a parenthesis is a token by itself; so is any character that begins nothing else. */
  lemma SignsAreTokens(c: char, s: string)
    requires c !in "\"'$" && !IsLetter(c) && c != '_' && !('0' <= c && c <= '9')
    ensures Tokens([c] + s)
         == [if c == '*' then Star else if c == '(' then LParen else if c == ')' then RParen else Other] + Lex(s)
  {
    assert ([c] + s)[1..] == s;
    var quotes := "\"'$";
    assert quotes[0] == '\"' && quotes[1] == '\'' && quotes[2] == '$';
  }

  /** A dollar and what is not a tag are one token, with the character that shows it. */
  lemma NoTagIsConsumed(name: string, c: char, s: string)
    requires (forall i :: 0 <= i < |name| ==> TagChar(name[i])) && !TagChar(c) && c != '$'
    ensures Tokens("$" + name + [c] + s) == [Other] + Lex(s)
  {
    var all := "$" + name + [c] + s;
    assert all[1..] == name + ([c] + s);
    TagCharsAre(name, [c] + s);
    assert all[1..][|name|] == c && all[1..][|name| + 1..] == s;
  }

  /** A dollar-quoted body without its closing tag hides the rest of the text. */
  lemma UnclosedBodyHidesAll(name: string, body: string)
    requires (forall i :: 0 <= i < |name| ==> TagChar(name[i])) && NoEnd(body, "$" + name + "$")
    ensures Tokens("$" + name + "$" + body) == [Other]
  {
    var tag := "$" + name + "$";
    var all := tag + body;
    assert all[1..] == name + ("$" + body);
    TagCharsAre(name, "$" + body);
    assert all[1..][..|name|] == name && all[1..][|name| + 1..] == body;
    SearchFindsFirst(body, tag, 0);
    assert FirstToken(all) == (Other, []);
    assert Tokens(Noise([])) == [];
  }

  /** So does a quoted text without its closing quote. */
  lemma UnclosedTextIsWhole(t: string)
    ensures Tokens("\"" + Doubled('"', t)) == [QuotedIdent(t)]
    ensures Tokens("'" + Doubled('\'', t)) == [Literal(Lower(t))]
  {
    var ident, literal := "\"" + Doubled('"', t), "'" + Doubled('\'', t);
    assert FirstToken(ident) == (QuotedIdent(t), []) by {
      QuotedUnclosed('"', t);
      assert ident[1..] == Doubled('"', t);
    }
    assert FirstToken(literal) == (Literal(Lower(t)), []) by {
      QuotedUnclosed('\'', t);
      assert literal[1..] == Doubled('\'', t);
    }
    assert Tokens(Noise([])) == [];
  }

  /** And a comment without its closing. */
  lemma UnclosedCommentHidesAll(t: string)
    requires forall k :: 0 <= k <= |Split(t)| ==> !Closes(Split(t)[..k], 1)
    ensures Lex("/*" + t) == []
  {
    SplitIsSeparate(t);
    UnclosedCommentEnds(Split(t), 1);
    assert ("/*" + t)[2..] == t;
  }
}
