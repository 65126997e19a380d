/**
 * The two JavaScript string behaviours the bot relies on: `String.prototype.split`
 * with a one-character separator, and how a template literal renders `undefined`.
 */
module JsString {
  import opened Wrappers

  /** `${x}` for a string that may be `undefined`. */
  function Show(x: Option<string>): string
  {
    if x.Some? then x.value else "undefined"
  }

  /** Joining pieces with the separator: the inverse of `Split`. */
  function Join(parts: seq<string>, sep: char): string
    requires |parts| > 0
  {
    if |parts| == 1 then parts[0] else parts[0] + [sep] + Join(parts[1..], sep)
  }

  /** No piece contains the separator. */
  predicate SeparatorFree(parts: seq<string>, sep: char)
  {
    forall i :: 0 <= i < |parts| ==> sep !in parts[i]
  }

  /**
   * `s.split(sep)`: the pieces between separators, empty pieces kept; the empty
   * string gives one empty piece. Together, the two conditions on the result
   * determine it (see `SplitUnique`).
   */
  function Split(s: string, sep: char): (parts: seq<string>)
    ensures |parts| > 0
    ensures SeparatorFree(parts, sep)
    ensures Join(parts, sep) == s
  {
    if |s| == 0 then [""]
    else if s[0] == sep then
      var rest := Split(s[1..], sep);
      assert [sep] + Join(rest, sep) == s;
      [""] + rest
    else
      var rest := Split(s[1..], sep);
      var head := [s[0]] + rest[0];
      var parts := [head] + rest[1..];
      assert parts[1..] == rest[1..];
      assert Join(parts, sep) == s by {
        if |rest| == 1 {
        } else {
          assert Join(rest, sep) == rest[0] + [sep] + Join(rest[1..], sep);
        }
      }
      parts
  }

  /** Splitting is the only separator-free decomposition: any such one is `Split`'s. */
  lemma {:induction false} SplitUnique(parts: seq<string>, sep: char)
    requires |parts| > 0 && SeparatorFree(parts, sep)
    ensures Split(Join(parts, sep), sep) == parts
    decreases |parts|, |parts[0]|
  {
    var s := Join(parts, sep);
    if |parts| == 1 {
      SplitNoSeparator(parts[0], sep);
    } else if |parts[0]| == 0 {
      assert s == [sep] + Join(parts[1..], sep);
      assert s[1..] == Join(parts[1..], sep);
      SplitUnique(parts[1..], sep);
    } else {
      var shorter := [parts[0][1..]] + parts[1..];
      assert shorter[1..] == parts[1..];
      assert s == [parts[0][0]] + Join(shorter, sep);
      assert s[1..] == Join(shorter, sep);
      assert parts[0][0] != sep by { assert parts[0][0] in parts[0]; }
      SplitUnique(shorter, sep);
      assert [parts[0][0]] + parts[0][1..] == parts[0];
    }
  }

  /** A string without the separator splits into itself. */
  lemma {:induction false} SplitNoSeparator(s: string, sep: char)
    requires sep !in s
    ensures Split(s, sep) == [s]
  {
    if |s| > 0 {
      assert sep !in s[1..] by { assert forall i :: 0 <= i < |s[1..]| ==> s[1..][i] == s[i + 1]; }
      SplitNoSeparator(s[1..], sep);
      assert [s[0]] + s[1..] == s;
    }
  }

  /** `s.split(sep)[1]`: the second piece, `undefined` when `s` has no separator. */
  function SecondPiece(s: string, sep: char): (r: Option<string>)
    ensures r.None? <==> sep !in s
  {
    var parts := Split(s, sep);
    if sep !in s then
      SplitNoSeparator(s, sep);
      None
    else if |parts| >= 2 then Some(parts[1])
    else
      assert false;
      None
  }

  /**
   * The second piece is the text between the first separator and the next one
   * (or the end): for `head + sep + word + tail`, with no separator in `head`
   * or `word` and `tail` empty or starting with a separator, it is `word`.
   */
  lemma SecondPieceIs(head: string, word: string, tail: string, sep: char)
    requires sep !in head && sep !in word
    requires tail == [] || tail[0] == sep
    ensures SecondPiece(head + [sep] + word + tail, sep) == Some(word)
  {
    var s := head + [sep] + word + tail;
    assert s[|head|] == sep;
    if tail == [] {
      var parts := [head, word];
      assert Join(parts, sep) == s;
      SplitUnique(parts, sep);
    } else {
      var rest := Split(tail[1..], sep);
      var parts := [head, word] + rest;
      assert Join([word] + rest, sep) == word + [sep] + Join(rest, sep);
      assert Join(parts, sep) == head + [sep] + Join([word] + rest, sep) by {
        assert parts[1..] == [word] + rest;
      }
      assert [sep] + tail[1..] == tail;
      assert Join(parts, sep) == s;
      SplitUnique(parts, sep);
    }
  }
}
