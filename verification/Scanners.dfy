/** The character scanners of the SQL lexer: quoted text, nested comments,
    dollar-quoted bodies. */
module Scanners {
  import opened Options

  // ---------------------------------------------------------------------
  // Quoted text
  // ---------------------------------------------------------------------

  /** Inside quotes: the content, and what follows the closing quote. A doubled quote is one
      quote; an unterminated text ends with the input. */
  function Quoted(q: char, s: string): (r: (string, string))
    ensures |r.1| <= |s|
  {
    if s == [] then ([], [])
    else if s[0] != q then
      var (content, rest) := Quoted(q, s[1..]);
      ([s[0]] + content, rest)
    else if |s| > 1 && s[1] == q then
      var (content, rest) := Quoted(q, s[2..]);
      ([q] + content, rest)
    else ([], s[1..])
  }

  method ScanQuoted(q: char, s: string) returns (content: string, rest: string)
    ensures (content, rest) == Quoted(q, s)
  {
    content, rest := [], s;
    assert [] + Quoted(q, s).0 == Quoted(q, s).0;
    while rest != []
      invariant Quoted(q, s) == (content + Quoted(q, rest).0, Quoted(q, rest).1)
      decreases |rest|
    {
      var c := rest[0];
      ghost var before := content;
      if c == q && |rest| > 1 && rest[1] == q {
        assert content + ([q] + Quoted(q, rest[2..]).0) == content + [q] + Quoted(q, rest[2..]).0;
        content, rest := content + [q], rest[2..];
      } else if c == q {
        assert content + [] == content;
        return content, rest[1..];
      } else {
        assert content + ([c] + Quoted(q, rest[1..]).0) == content + [c] + Quoted(q, rest[1..]).0;
        content, rest := content + [c], rest[1..];
      }
    }
    assert content + [] == content;
  }

  /** Every quote is doubled, as the listener does before it wraps a name in quotes. */
  function Doubled(q: char, s: string): string {
    if s == [] then [] else (if s[0] == q then [q, q] else [s[0]]) + Doubled(q, s[1..])
  }

  /** The scanner undoes the doubling, for every text. */
  lemma {:induction false} QuotedUndoesDoubled(q: char, s: string, rest: string)
    requires rest == [] || rest[0] != q
    ensures Quoted(q, Doubled(q, s) + [q] + rest) == (s, rest)
  {
    if s == [] {
      assert Doubled(q, s) + [q] + rest == [q] + rest;
      assert ([q] + rest)[1..] == rest;
    } else {
      var tail := Doubled(q, s[1..]) + [q] + rest;
      QuotedUndoesDoubled(q, s[1..], rest);
      assert [s[0]] + s[1..] == s;
      if s[0] == q {
        assert Doubled(q, s) + [q] + rest == [q, q] + tail;
        assert ([q, q] + tail)[2..] == tail;
      } else {
        assert Doubled(q, s) + [q] + rest == [s[0]] + tail;
        assert ([s[0]] + tail)[1..] == tail;
      }
    }
  }

  /** A text without its closing quote ends with the input. */
  lemma {:induction false} QuotedUnclosed(q: char, s: string)
    ensures Quoted(q, Doubled(q, s)) == (s, [])
  {
    if s != [] {
      var tail := Doubled(q, s[1..]);
      QuotedUnclosed(q, s[1..]);
      assert [s[0]] + s[1..] == s;
      assert s[0] == q ==> Doubled(q, s)[2..] == tail;
      assert s[0] != q ==> Doubled(q, s)[1..] == tail;
    }
  }

  // ---------------------------------------------------------------------
  // Nested comments
  // ---------------------------------------------------------------------

  /** What is left behind a block comment whose opening was already read. */
  function BehindComment(s: string, depth: nat): (rest: string)
    ensures |rest| <= |s|
    decreases |s|
  {
    if depth == 0 then s
    else if s == [] then []
    else if |s| > 1 && s[0] == '/' && s[1] == '*' then BehindComment(s[2..], depth + 1)
    else if |s| > 1 && s[0] == '*' && s[1] == '/' then BehindComment(s[2..], depth - 1)
    else BehindComment(s[1..], depth)
  }

  method ScanComment(s: string) returns (rest: string)
    ensures rest == BehindComment(s, 1)
  {
    rest := s;
    var depth := 1;
    while depth > 0
      invariant depth >= 0 && BehindComment(s, 1) == BehindComment(rest, depth)
      decreases |rest|, depth
    {
      if rest == [] {
        return [];
      }
      var c := rest[0];
      rest := rest[1..];
      if c == '/' {
        if rest != [] && rest[0] == '*' {
          rest, depth := rest[1..], depth + 1;
        }
      } else if c == '*' {
        if rest != [] && rest[0] == '/' {
          rest, depth := rest[1..], depth - 1;
        }
      }
    }
  }

  /** The text of a comment, as a reader sees it: characters, openings and closings. */
  datatype Unit = Ch(c: char) | Open | Close

  function UnitText(u: Unit): string {
    match u
    case Ch(c) => [c]
    case Open => "/*"
    case Close => "*/"
  }

  function Text(units: seq<Unit>): string {
    if units == [] then [] else UnitText(units[0]) + Text(units[1..])
  }

  /** No character forms an opening or a closing with what follows it. */
  predicate Separate(units: seq<Unit>) {
    units == [] || (
      && Separate(units[1..])
      && (units[0].Ch? ==>
            var rest := Text(units[1..]);
            rest != [] ==> [units[0].c, rest[0]] != "/*" && [units[0].c, rest[0]] != "*/"))
  }

  /** From this depth the units close everything, with the last of them and not before. */
  predicate Closes(units: seq<Unit>, depth: nat) {
    if depth == 0 then units == []
    else
      && units != []
      && match units[0]
         case Ch(_) => Closes(units[1..], depth)
         case Open => Closes(units[1..], depth + 1)
         case Close => Closes(units[1..], depth - 1)
  }

  lemma SkipsCharacter(c: char, text: string, s: string, depth: nat)
    requires depth > 0 && text != [] && [c, text[0]] != "/*" && [c, text[0]] != "*/"
    ensures BehindComment([c] + (text + s), depth) == BehindComment(text + s, depth)
  {
    assert ([c] + (text + s))[1..] == text + s;
    assert [c, text[0]][0] == c && [c, text[0]][1] == text[0];
  }

  lemma SkipsDelimiter(rest: string, depth: nat)
    requires depth > 0
    ensures BehindComment("/*" + rest, depth) == BehindComment(rest, depth + 1)
    ensures BehindComment("*/" + rest, depth) == BehindComment(rest, depth - 1)
  {
    assert ("/*" + rest)[2..] == rest && ("*/" + rest)[2..] == rest;
  }

  /** The scanner stops right behind the closing that matches the opening. */
  lemma {:induction false} CommentEndsWhereItCloses(units: seq<Unit>, depth: nat, s: string)
    requires Separate(units) && Closes(units, depth)
    ensures BehindComment(Text(units) + s, depth) == s
    decreases |units|
  {
    if depth == 0 {
      assert Text(units) + s == s;
    } else {
      var u, text := units[0], Text(units[1..]);
      assert Text(units) + s == UnitText(u) + (text + s);
      SkipsDelimiter(text + s, depth);
      match u
      case Ch(c) =>
        CommentEndsWhereItCloses(units[1..], depth, s);
        ClosingTextIsNotEmpty(units[1..], depth);
        SkipsCharacter(c, text, s, depth);
      case Open => CommentEndsWhereItCloses(units[1..], depth + 1, s);
      case Close => CommentEndsWhereItCloses(units[1..], depth - 1, s);
    }
  }

  lemma ClosingTextIsNotEmpty(units: seq<Unit>, depth: nat)
    requires depth > 0 && Closes(units, depth)
    ensures Text(units) != []
  {
  }

  /** The unit a text starts with. */
  function FirstUnit(s: string): (u: Unit)
    requires s != []
    ensures |UnitText(u)| <= |s|
  {
    if |s| > 1 && s[0] == '/' && s[1] == '*' then Open
    else if |s| > 1 && s[0] == '*' && s[1] == '/' then Close
    else Ch(s[0])
  }

  /** How a reader splits any text; the split loses nothing. */
  function Split(s: string): seq<Unit> {
    if s == [] then [] else [FirstUnit(s)] + Split(s[|UnitText(FirstUnit(s))|..])
  }

  lemma FirstUnitIsFirst(s: string)
    requires s != []
    ensures var u, n := FirstUnit(s), |UnitText(FirstUnit(s))|;
            && UnitText(u) + s[n..] == s
            && (u.Ch? && s[1..] != [] ==> [u.c, s[1..][0]] != "/*" && [u.c, s[1..][0]] != "*/")
  {
  }

  lemma {:induction false} SplitIsSeparate(s: string)
    ensures Text(Split(s)) == s && Separate(Split(s))
    decreases |s|
  {
    if s != [] {
      var u, n := FirstUnit(s), |UnitText(FirstUnit(s))|;
      FirstUnitIsFirst(s);
      SplitIsSeparate(s[n..]);
      assert Split(s)[0] == u && Split(s)[1..] == Split(s[n..]);
    }
  }

  /** A comment that nothing closes ends with the input. */
  lemma {:induction false} UnclosedCommentEnds(units: seq<Unit>, depth: nat)
    requires Separate(units) && forall k :: 0 <= k <= |units| ==> !Closes(units[..k], depth)
    ensures BehindComment(Text(units), depth) == []
    decreases |units|
  {
    assert units[..0] == [];
    if units != [] {
      var u, text := units[0], Text(units[1..]);
      var next := if u.Open? then depth + 1 else if u.Close? then depth - 1 else depth;
      forall k | 0 <= k <= |units[1..]|
        ensures !Closes(units[1..][..k], next)
      {
        assert units[..k + 1][1..] == units[1..][..k];
      }
      UnclosedCommentEnds(units[1..], next);
      SkipsDelimiter(text, depth);
      if u.Ch? && text != [] {
        SkipsCharacter(u.c, text, [], depth);
        assert text + [] == text;
      }
    }
  }

  // ---------------------------------------------------------------------
  // Dollar-quoted bodies
  // ---------------------------------------------------------------------

  predicate TagChar(c: char) {
    'a' <= c <= 'z' || 'A' <= c <= 'Z' || '0' <= c <= '9' || c == '_'
  }

  predicate IsTag(tag: string) {
    && |tag| >= 2 && tag[0] == '$' && tag[|tag| - 1] == '$'
    && forall i :: 0 < i < |tag| - 1 ==> TagChar(tag[i])
  }

  predicate EndsWith(s: string, e: nat, t: string)
    requires e <= |s|
  {
    |t| <= e && s[e - |t|..e] == t
  }

  /** A tag ends at e, and none ends before. */
  ghost predicate FirstEnd(s: string, tag: string, e: nat) {
    e <= |s| && EndsWith(s, e, tag) && forall d: nat :: d < e ==> !EndsWith(s, d, tag)
  }

  ghost predicate NoEnd(s: string, tag: string) {
    forall d: nat :: d <= |s| ==> !EndsWith(s, d, tag)
  }

  /** The match state after the first i characters: the longest proper prefix of the tag that
      ends there. */
  ghost predicate Longest(s: string, i: nat, tag: string, matched: nat) {
    && i <= |s| && matched < |tag| && EndsWith(s, i, tag[..matched])
    && forall m :: matched < m < |tag| ==> !EndsWith(s, i, tag[..m])
  }

  lemma PrefixGrows(s: string, i: nat, tag: string, m: nat)
    requires i < |s| && m < |tag|
    ensures EndsWith(s, i + 1, tag[..m + 1]) <==> EndsWith(s, i, tag[..m]) && s[i] == tag[m]
  {
    if m <= i {
      assert s[i - m..i + 1] == s[i - m..i] + [s[i]];
      assert tag[..m + 1] == tag[..m] + [tag[m]];
    }
  }

  /** The reason the shortcut works: the only prefix of the tag that can end inside a longer
      match is the empty one, because a dollar stands at the ends of a tag only. */
  lemma NoBorder(s: string, i: nat, tag: string, m: nat, k: nat)
    requires IsTag(tag) && i <= |s| && 0 < m < k < |tag|
    requires EndsWith(s, i, tag[..k])
    ensures !EndsWith(s, i, tag[..m])
  {
    assert s[i - k..i][k - m] == s[i - m] == s[i - m..i][0];
    assert tag[..k][k - m] == tag[k - m] && tag[..m][0] == tag[0];
    assert TagChar(tag[k - m]);
  }

  function NextMatched(tag: string, matched: nat, c: char): nat
    requires matched < |tag|
  {
    if c == tag[matched] then matched + 1 else if c == tag[0] then 1 else 0
  }

  lemma NoLonger(s: string, i: nat, tag: string, matched: nat, m: nat)
    requires IsTag(tag) && i < |s| && Longest(s, i, tag, matched)
    requires NextMatched(tag, matched, s[i]) < m <= |tag|
    ensures !EndsWith(s, i + 1, tag[..m])
  {
    PrefixGrows(s, i, tag, m - 1);
    if 0 < m - 1 < matched {
      NoBorder(s, i, tag, m - 1, matched);
    }
  }

  /** One character further: extend the match, or start again at zero with the same character. */
  lemma LongestAfter(s: string, i: nat, tag: string, matched: nat)
    requires IsTag(tag) && i < |s| && Longest(s, i, tag, matched)
    ensures var next := NextMatched(tag, matched, s[i]);
            && (next == |tag| <==> EndsWith(s, i + 1, tag))
            && (next < |tag| ==> Longest(s, i + 1, tag, next))
  {
    var next := NextMatched(tag, matched, s[i]);
    assert tag[..|tag|] == tag;
    PrefixGrows(s, i, tag, matched);
    PrefixGrows(s, i, tag, 0);
    forall m | next < m <= |tag|
      ensures !EndsWith(s, i + 1, tag[..m])
    {
      NoLonger(s, i, tag, matched, m);
    }
  }

  /** Where the tag ends first, found by trying every place in turn. */
  function Search(s: string, tag: string, from: nat): Option<nat>
    requires from <= |s|
    decreases |s| - from
  {
    if EndsWith(s, from, tag) then Some(from)
    else if from == |s| then None
    else Search(s, tag, from + 1)
  }

  lemma {:induction false} SearchFindsFirst(s: string, tag: string, from: nat)
    requires from <= |s| && forall d: nat :: d < from ==> !EndsWith(s, d, tag)
    ensures match Search(s, tag, from)
            case Some(e) => FirstEnd(s, tag, e)
            case None => NoEnd(s, tag)
    decreases |s| - from
  {
    if EndsWith(s, from, tag) {
      assert FirstEnd(s, tag, from);
    } else if from == |s| {
      assert NoEnd(s, tag);
    } else {
      SearchFindsFirst(s, tag, from + 1);
    }
  }

  lemma SearchFinds(s: string, tag: string, e: nat)
    requires FirstEnd(s, tag, e)
    ensures Search(s, tag, 0) == Some(e)
  {
    SearchFindsFirst(s, tag, 0);
    match Search(s, tag, 0)
    case Some(d) => assert d <= e <= d;
    case None =>
  }

  lemma SearchFindsNone(s: string, tag: string)
    requires NoEnd(s, tag)
    ensures Search(s, tag, 0) == None
  {
    SearchFindsFirst(s, tag, 0);
  }

  /** The state of the matcher behind the first i characters. */
  ghost predicate Matching(s: string, i: nat, tag: string, matched: nat) {
    Longest(s, i, tag, matched) && forall d: nat :: d <= i ==> !EndsWith(s, d, tag)
  }

  lemma NothingMatched(s: string, tag: string)
    requires IsTag(tag)
    ensures Matching(s, 0, tag, 0)
  {
  }

  lemma MatchesOn(s: string, i: nat, tag: string, matched: nat)
    requires IsTag(tag) && i < |s| && Matching(s, i, tag, matched)
    ensures var next := NextMatched(tag, matched, s[i]);
            if next == |tag| then FirstEnd(s, tag, i + 1) && Search(s, tag, 0) == Some(i + 1)
            else Matching(s, i + 1, tag, next)
  {
    LongestAfter(s, i, tag, matched);
    if NextMatched(tag, matched, s[i]) == |tag| {
      SearchFinds(s, tag, i + 1);
    }
  }

  /** A character that is not ASCII breaks any match; otherwise a mismatch falls back to zero
      and the same character is tried there. */
  method MatchNext(tag: string, matched: nat, c: char) returns (next: nat)
    requires IsTag(tag) && matched < |tag|
    ensures next == NextMatched(tag, matched, c)
  {
    next := matched;
    if c as int >= 128 {
      TagIsAscii(tag, matched);
      return 0;
    }
    if next > 0 && c != tag[next] {
      next := 0;
    }
    if c == tag[next] {
      next := next + 1;
    }
  }

  lemma TagIsAscii(tag: string, i: nat)
    requires IsTag(tag) && i < |tag|
    ensures tag[i] as int < 128 && tag[0] as int < 128
  {
    assert 0 < i < |tag| - 1 ==> TagChar(tag[i]);
  }

  /** The body matcher: no backtracking, one counter. It stops right behind the first
      occurrence of the tag, and reports none if there is none. */
  method ScanDollarBody(tag: string, s: string) returns (end: Option<nat>)
    requires IsTag(tag)
    ensures end == Search(s, tag, 0)
    ensures match end
            case Some(e) => FirstEnd(s, tag, e)
            case None => NoEnd(s, tag)
  {
    var matched := 0;
    var i := 0;
    NothingMatched(s, tag);
    while i < |s|
      invariant Matching(s, i, tag, matched)
    {
      MatchesOn(s, i, tag, matched);
      matched := MatchNext(tag, matched, s[i]);
      i := i + 1;
      if matched == |tag| {
        return Some(i);
      }
    }
    SearchFindsNone(s, tag);
    end := None;
  }
}
