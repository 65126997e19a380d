/**
 * The reply escaper for the chat platform's MarkdownV2 parse mode: a global,
 * case-insensitive replace whose pattern is either a link `[text](http…)`, kept
 * as it is, or one special character, which gets a backslash in front of it.
 * The backtick is not in the special set. The pattern has no ambiguous
 * backtracking, so it is modelled as a left-to-right scanner.
 */
module MarkdownV2 {
  import opened Wrappers

  /** The special characters of the pattern's character class. */
  predicate IsSpecial(c: char)
  {
    c in "_*[]()~>#+=|{}.!-"
  }

  /** `http`, compared case-insensitively (the pattern carries the `i` flag). */
  predicate IsHttp(w: string)
  {
    |w| == 4 && w[0] in "hH" && w[1] in "tT" && w[2] in "tT" && w[3] in "pP"
  }

  /** The three free parts of a link `[text](scheme target)`. */
  datatype Link = Link(text: string, scheme: string, target: string)

  /** The characters of a link, in the order they appear in the reply. */
  function LinkChars(l: Link): string
  {
    "[" + l.text + "](" + l.scheme + l.target + ")"
  }

  /** A link the pattern's first alternative accepts. */
  predicate ValidLink(l: Link)
  {
    '[' !in l.text && ']' !in l.text && IsHttp(l.scheme) && '(' !in l.target && ')' !in l.target
  }

  /** The first index at or after `i` that holds one of `stops`, or `|s|`. */
  function FirstOf(s: string, i: nat, stops: set<char>): (k: nat)
    requires i <= |s|
    ensures i <= k <= |s|
    ensures forall m :: i <= m < k ==> s[m] !in stops
    ensures k < |s| ==> s[k] in stops
    decreases |s| - i
  {
    if i == |s| || s[i] in stops then i else FirstOf(s, i + 1, stops)
  }

  /** `FirstOf` is determined by its contract. */
  lemma FirstOfUnique(s: string, i: nat, stops: set<char>, k: nat)
    requires i <= k <= |s|
    requires forall m :: i <= m < k ==> s[m] !in stops
    requires k < |s| ==> s[k] in stops
    ensures FirstOf(s, i, stops) == k
  {
  }

  /**
   * The first alternative of the pattern, anchored at the start of `s`: the link
   * that starts there, if any. The match is sound (a valid link that is a prefix).
   */
  function MatchLink(s: string): (r: Option<Link>)
    ensures r.Some? ==> ValidLink(r.value) && |LinkChars(r.value)| <= |s| &&
                        s[..|LinkChars(r.value)|] == LinkChars(r.value)
  {
    if |s| == 0 || s[0] != '[' then None
    else
      var j := FirstOf(s, 1, {'[', ']'});
      if j + 6 > |s| || s[j] != ']' || s[j + 1] != '(' || !IsHttp(s[j + 2..j + 6]) then None
      else
        var k := FirstOf(s, j + 6, {'(', ')'});
        if k == |s| || s[k] != ')' then None
        else
          var l := Link(s[1..j], s[j + 2..j + 6], s[j + 6..k]);
          assert '[' !in l.text && ']' !in l.text by {
            assert forall m :: 0 <= m < |l.text| ==> l.text[m] == s[m + 1];
          }
          assert '(' !in l.target && ')' !in l.target by {
            assert forall m :: 0 <= m < |l.target| ==> l.target[m] == s[j + 6 + m];
          }
          assert s[..k + 1] == LinkChars(l) by {
            assert s[..k + 1] == s[..1] + s[1..j] + s[j..j + 2] + s[j + 2..j + 6] + s[j + 6..k] + s[k..k + 1];
          }
          Some(l)
  }

  /** The match is complete: a valid link at the start of `s` is always found. */
  lemma {:induction false} MatchLinkComplete(l: Link, rest: string)
    requires ValidLink(l)
    ensures MatchLink(LinkChars(l) + rest) == Some(l)
  {
    var s := LinkChars(l) + rest;
    var j := 1 + |l.text|;
    var k := j + 6 + |l.target|;
    assert s[0] == '[';
    assert s[1..j] == l.text;
    assert s[j] == ']' && s[j + 1] == '(';
    assert s[j + 2..j + 6] == l.scheme;
    assert s[j + 6..k] == l.target;
    assert s[k] == ')';
    assert forall m :: 1 <= m < j ==> s[m] == l.text[m - 1];
    FirstOfUnique(s, 1, {'[', ']'}, j);
    assert forall m :: j + 6 <= m < k ==> s[m] == l.target[m - j - 6];
    FirstOfUnique(s, j + 6, {'(', ')'}, k);
  }

  /** One step of the scan: a kept link, an escaped special character, or a copied one. */
  datatype Token = KeptLink(link: Link) | Escaped(c: char) | Copied(c: char)

  /** The token is what the scanner can produce. */
  predicate ValidToken(t: Token)
  {
    match t
    case KeptLink(l) => ValidLink(l)
    case Escaped(c) => IsSpecial(c)
    case Copied(c) => !IsSpecial(c)
  }

  /** The input characters a token consumed. */
  function Source(t: Token): string
  {
    match t
    case KeptLink(l) => LinkChars(l)
    case Escaped(c) => [c]
    case Copied(c) => [c]
  }

  /** The output characters a token produces. */
  function Output(t: Token): string
  {
    match t
    case KeptLink(l) => LinkChars(l)
    case Escaped(c) => ['\\', c]
    case Copied(c) => [c]
  }

  function Sources(ts: seq<Token>): string
  {
    if ts == [] then [] else Source(ts[0]) + Sources(ts[1..])
  }

  function Render(ts: seq<Token>): string
  {
    if ts == [] then [] else Output(ts[0]) + Render(ts[1..])
  }

  /** How many characters of the token sequence were escaped. */
  function EscapedCount(ts: seq<Token>): nat
  {
    if ts == [] then 0 else (if ts[0].Escaped? then 1 else 0) + EscapedCount(ts[1..])
  }

  /**
   * The scanner: at each position a link wins over the character class, and a
   * character that starts no link is escaped when special and copied otherwise.
   */
  function Scan(s: string): (ts: seq<Token>)
    ensures forall i :: 0 <= i < |ts| ==> ValidToken(ts[i])
    decreases |s|
  {
    if s == [] then []
    else
      match MatchLink(s)
      case Some(l) => [KeptLink(l)] + Scan(s[|LinkChars(l)|..])
      case None => [if IsSpecial(s[0]) then Escaped(s[0]) else Copied(s[0])] + Scan(s[1..])
  }

  /** The escaped reply: never shorter than the input, and at most one backslash per input character. */
  function Escape(s: string): (r: string)
    ensures |s| <= |r| <= 2 * |s|
  {
    ScanCoversInput(s);
    RenderLength(Scan(s));
    EscapedCountBound(Scan(s));
    Render(Scan(s))
  }

  /** The tokens cover the input exactly, in order: nothing is dropped, duplicated or moved. */
  lemma {:induction false} ScanCoversInput(s: string)
    ensures Sources(Scan(s)) == s
    decreases |s|
  {
    if s != [] {
      var ts := Scan(s);
      assert ts[1..] == Scan(s[|Source(ts[0])|..]);
      ScanCoversInput(s[|Source(ts[0])|..]);
      assert s[..|Source(ts[0])|] + s[|Source(ts[0])|..] == s;
    }
  }

  /** Rendering adds exactly one character per escaped token. */
  lemma {:induction false} RenderLength(ts: seq<Token>)
    ensures |Render(ts)| == |Sources(ts)| + EscapedCount(ts)
  {
    if ts != [] {
      RenderLength(ts[1..]);
    }
  }

  /** The output is the input plus one backslash per escaped character. */
  lemma EscapeLength(s: string)
    ensures |Escape(s)| == |s| + EscapedCount(Scan(s))
  {
    RenderLength(Scan(s));
    ScanCoversInput(s);
  }

  /** A valid link at the current position is copied verbatim and the scan resumes after it. */
  lemma EscapeLink(l: Link, rest: string)
    requires ValidLink(l)
    ensures Escape(LinkChars(l) + rest) == LinkChars(l) + Escape(rest)
  {
    var s := LinkChars(l) + rest;
    MatchLinkComplete(l, rest);
    assert s[|LinkChars(l)|..] == rest;
  }

  /** A special character that starts no link gets exactly one backslash. */
  lemma EscapeSpecial(c: char, rest: string)
    requires IsSpecial(c) && MatchLink([c] + rest).None?
    ensures Escape([c] + rest) == ['\\', c] + Escape(rest)
  {
    assert ([c] + rest)[1..] == rest;
  }

  /** Any other character is copied as it is. */
  lemma EscapeOther(c: char, rest: string)
    requires !IsSpecial(c)
    ensures Escape([c] + rest) == [c] + Escape(rest)
  {
    assert ([c] + rest)[1..] == rest;
  }

  /** A reply with no special character is sent unchanged. */
  lemma {:induction false} EscapePlainText(s: string)
    requires forall i :: 0 <= i < |s| ==> !IsSpecial(s[i])
    ensures Escape(s) == s
    decreases |s|
  {
    if s != [] {
      assert s == [s[0]] + s[1..];
      EscapeOther(s[0], s[1..]);
      EscapePlainText(s[1..]);
    }
  }

  /** At most one backslash is added per input character. */
  lemma {:induction false} EscapedCountBound(ts: seq<Token>)
    ensures EscapedCount(ts) <= |Sources(ts)|
  {
    if ts != [] {
      EscapedCountBound(ts[1..]);
    }
  }

  /** A worked example: `a*b.` becomes `a\*b\.`. */
  lemma EscapeExample()
    ensures Escape(['a', '*', 'b', '.']) == ['a', '\\', '*', 'b', '\\', '.']
  {
    assert Escape(['.']) == ['\\', '.'] by {
      EscapeSpecial('.', []);
      assert ['.'] + [] == ['.'];
    }
    assert Escape(['b', '.']) == ['b', '\\', '.'] by {
      EscapeOther('b', ['.']);
      assert ['b'] + ['.'] == ['b', '.'];
    }
    assert Escape(['*', 'b', '.']) == ['\\', '*', 'b', '\\', '.'] by {
      EscapeSpecial('*', ['b', '.']);
      assert ['*'] + ['b', '.'] == ['*', 'b', '.'];
    }
    EscapeOther('a', ['*', 'b', '.']);
    assert ['a'] + ['*', 'b', '.'] == ['a', '*', 'b', '.'];
  }
}
