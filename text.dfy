/**
 * The string helpers of LoggerUtil: `quote`, `repeat` and `joinTo`, plus
 * `Strip`, which removes layout characters and is used to compare the
 * compact and the debug renderings.
 *
 * A Java `StringBuilder` that a helper appends to is modelled as a string
 * value threaded through the helper and returned.
 */
module Text {
  import opened Wrappers

  // ---------------------------------------------------------------------
  // quote
  // ---------------------------------------------------------------------

  /** `s.replace(String.valueOf(c), rep)`: every occurrence of `c` becomes `rep`. */
  function Replace(s: string, c: char, rep: string): (r: string)
    ensures c !in s ==> r == s
  {
    if s == [] then [] else (if s[0] == c then rep else [s[0]]) + Replace(s[1..], c, rep)
  }

  /**
   * `quote`: backslashes are doubled first, then every double quote gets a
   * backslash. A text with neither comes back unchanged.
   */
  function Quote(s: string): (r: string)
    ensures '\\' !in s && '"' !in s ==> r == s
  {
    Replace(Replace(s, '\\', "\\\\"), '"', "\\\"")
  }

  /** The escape of one character, as a single left-to-right pass would write it. */
  function EscapeChar(c: char): string
  {
    if c == '\\' then "\\\\" else if c == '"' then "\\\"" else [c]
  }

  /** Reference definition of the escaping: one pass, one character at a time. */
  function EscapeEach(s: string): string
  {
    if s == [] then [] else EscapeChar(s[0]) + EscapeEach(s[1..])
  }

  /** Reads back an escaped text: a backslash takes the next character literally. */
  function Unescape(s: string): string
    decreases |s|
  {
    if s == [] then []
    else if s[0] == '\\' && |s| >= 2 then [s[1]] + Unescape(s[2..])
    else [s[0]] + Unescape(s[1..])
  }

  /** Number of occurrences of `c` in `s`. */
  function Count(s: string, c: char): nat
  {
    if s == [] then 0 else (if s[0] == c then 1 else 0) + Count(s[1..], c)
  }

  lemma {:induction false} ReplaceAppend(a: string, b: string, c: char, rep: string)
    ensures Replace(a + b, c, rep) == Replace(a, c, rep) + Replace(b, c, rep)
  {
    if a != [] {
      assert (a + b)[1..] == a[1..] + b;
      ReplaceAppend(a[1..], b, c, rep);
    } else {
      assert a + b == b;
    }
  }

  /**
   * The two passes of `quote` amount to escaping each character once: the
   * backslash inserted before a double quote by the second pass is never
   * doubled by the first.
   */
  lemma {:induction false} QuoteIsSinglePass(s: string)
    ensures Quote(s) == EscapeEach(s)
  {
    if s != [] {
      var first := if s[0] == '\\' then "\\\\" else [s[0]];
      var rest := Replace(s[1..], '\\', "\\\\");
      assert Replace(s, '\\', "\\\\") == first + rest;
      ReplaceAppend(first, rest, '"', "\\\"");
      if s[0] == '\\' {
        assert Replace(first, '"', "\\\"") == "\\\\" by {
          assert first == ['\\'] + ['\\'];
          ReplaceAppend(['\\'], ['\\'], '"', "\\\"");
        }
      } else if s[0] == '"' {
        assert Replace(first, '"', "\\\"") == "\\\"";
      } else {
        assert Replace(first, '"', "\\\"") == [s[0]];
      }
      QuoteIsSinglePass(s[1..]);
    }
  }

  /** `quote` adds one character per backslash and one per double quote. */
  lemma {:induction false} QuoteLength(s: string)
    ensures |Quote(s)| == |s| + Count(s, '\\') + Count(s, '"')
  {
    QuoteIsSinglePass(s);
    EscapeEachLength(s);
  }

  lemma {:induction false} EscapeEachLength(s: string)
    ensures |EscapeEach(s)| == |s| + Count(s, '\\') + Count(s, '"')
  {
    if s != [] {
      EscapeEachLength(s[1..]);
    }
  }

  /** Undoing the escaping gives back the original text: `quote` loses nothing. */
  lemma {:induction false} UnescapeQuote(s: string)
    ensures Unescape(Quote(s)) == s
  {
    QuoteIsSinglePass(s);
    UnescapeEscapeEach(s);
  }

  lemma {:induction false} UnescapeEscapeEach(s: string)
    ensures Unescape(EscapeEach(s)) == s
  {
    if s != [] {
      var e := EscapeEach(s);
      var tail := EscapeEach(s[1..]);
      assert e == EscapeChar(s[0]) + tail;
      UnescapeEscapeEach(s[1..]);
      if s[0] == '\\' || s[0] == '"' {
        assert e[0] == '\\' && e[1] == s[0] && e[2..] == tail;
      } else {
        assert e[0] == s[0] && e[1..] == tail;
      }
      assert s == [s[0]] + s[1..];
    }
  }

  /** Escaping brings in no character but the backslash and the double quote. */
  lemma {:induction false} QuoteChars(s: string, c: char)
    requires c in Quote(s)
    ensures c in s || c == '\\' || c == '"'
  {
    QuoteIsSinglePass(s);
    EscapeEachChars(s, c);
  }

  lemma {:induction false} EscapeEachChars(s: string, c: char)
    requires c in EscapeEach(s)
    ensures c in s || c == '\\' || c == '"'
  {
    if s != [] {
      assert EscapeEach(s) == EscapeChar(s[0]) + EscapeEach(s[1..]);
      if c !in EscapeChar(s[0]) {
        EscapeEachChars(s[1..], c);
      }
    }
  }

  // ---------------------------------------------------------------------
  // repeat
  // ---------------------------------------------------------------------

  /**
   * `str` written `count` times; nothing when `count` is zero or negative.
   * The result is empty exactly when the count is not positive or `str` is.
   */
  function Repeat(str: string, count: int): (r: string)
    ensures r == [] <==> count <= 0 || str == []
    decreases count
  {
    if count <= 0 then "" else Repeat(str, count - 1) + str
  }

  /** `repeat`: a loop appending `str` to a builder `count` times. */
  method RepeatLoop(str: string, count: int) returns (r: string)
    ensures r == Repeat(str, count)
  {
    var sb := "";
    var i := 0;
    while i < count
      invariant count <= 0 ==> i == 0
      invariant count > 0 ==> 0 <= i <= count
      invariant sb == Repeat(str, i)
    {
      sb := sb + str;
      i := i + 1;
    }
    r := sb;
  }

  /** The length of `repeat`'s result: `count` copies, none for a non-positive count. */
  lemma {:induction false} RepeatLength(str: string, count: int)
    ensures |Repeat(str, count)| == (if count <= 0 then 0 else count * |str|)
  {
    if count > 0 {
      RepeatLength(str, count - 1);
    }
  }

  /** Repetition splits: `count` copies are `a` copies followed by `count - a`. */
  lemma {:induction false} RepeatSplit(str: string, a: nat, b: nat)
    ensures Repeat(str, a + b) == Repeat(str, a) + Repeat(str, b)
    decreases b
  {
    if b > 0 {
      RepeatSplit(str, a, b - 1);
    }
  }

  /** Every character of a repetition comes from the repeated string. */
  lemma {:induction false} RepeatChars(str: string, count: int, c: char)
    requires c in Repeat(str, count)
    ensures c in str
    decreases count
  {
    if count > 0 {
      if c !in Repeat(str, count - 1) {
        var s := Repeat(str, count - 1) + str;
        var k :| 0 <= k < |s| && s[k] == c;
        assert s[k] == str[k - |Repeat(str, count - 1)|];
      } else {
        RepeatChars(str, count - 1, c);
      }
    }
  }

  // ---------------------------------------------------------------------
  // joinTo
  // ---------------------------------------------------------------------

  /**
   * The items in order, `delim` between consecutive items and none after the
   * last.
   */
  function Join(items: seq<string>, delim: string): string
    requires |items| > 0
  {
    if |items| == 1 then items[0] else items[0] + delim + Join(items[1..], delim)
  }

  /** Each item followed by `delim`: what `joinTo`'s loop has appended after `i` rounds. */
  function Terminated(items: seq<string>, delim: string): string
  {
    if items == [] then "" else Terminated(items[..|items| - 1], delim) + items[|items| - 1] + delim
  }

  lemma {:induction false} JoinIsTerminatedThenLast(items: seq<string>, delim: string)
    requires |items| > 0
    ensures Join(items, delim) == Terminated(items[..|items| - 1], delim) + items[|items| - 1]
    decreases |items|
  {
    if |items| > 1 {
      var n := |items|;
      JoinIsTerminatedThenLast(items[1..], delim);
      TerminatedCons(items[0], items[1..n - 1], delim);
      assert items[1..][..n - 2] == items[1..n - 1];
      assert [items[0]] + items[1..n - 1] == items[..n - 1];
    }
  }

  lemma {:induction false} TerminatedCons(x: string, xs: seq<string>, delim: string)
    ensures Terminated([x] + xs, delim) == x + delim + Terminated(xs, delim)
    decreases |xs|
  {
    if xs != [] {
      var n := |xs|;
      assert ([x] + xs)[..n] == [x] + xs[..n - 1];
      TerminatedCons(x, xs[..n - 1], delim);
    }
  }

  /**
   * `joinTo`: appends `items` to the builder `sb`, joined by `delimiter`. The
   * loop runs over all items but the last, then the last item is read at
   * index `size - 1`; for an empty list that index is -1 and the read throws
   * (None here).
   */
  method JoinTo(sb: string, delimiter: string, items: seq<string>) returns (r: Option<string>)
    ensures items == [] ==> r == None
    ensures items != [] ==> r == Some(sb + Join(items, delimiter))
  {
    var end := |items| - 1;
    var acc := sb;
    var i := 0;
    while i < end
      invariant end < 0 ==> i == 0
      invariant end >= 0 ==> 0 <= i <= end
      invariant acc == sb + Terminated(items[..i], delimiter)
    {
      assert items[..i + 1][..i] == items[..i];
      acc := acc + items[i] + delimiter;
      i := i + 1;
    }
    if |items| - 1 < 0 {
      return None;
    }
    JoinIsTerminatedThenLast(items, delimiter);
    assert i == end && acc == sb + Terminated(items[..end], delimiter);
    assert acc + items[end] == sb + (Terminated(items[..end], delimiter) + items[end]);
    r := Some(acc + items[end]);
  }

  /** Joining two non-empty lists: the two joins with one delimiter between them. */
  lemma {:induction false} JoinAppend(xs: seq<string>, ys: seq<string>, delim: string)
    requires |xs| > 0 && |ys| > 0
    ensures Join(xs + ys, delim) == Join(xs, delim) + delim + Join(ys, delim)
    decreases |xs|
  {
    if |xs| > 1 {
      assert (xs + ys)[1..] == xs[1..] + ys;
      JoinAppend(xs[1..], ys, delim);
    } else {
      assert (xs + ys)[1..] == ys;
    }
  }

  /** The joined length: all the items plus one delimiter per gap. */
  lemma {:induction false} JoinLength(items: seq<string>, delim: string)
    requires |items| > 0
    ensures |Join(items, delim)| == TotalLength(items) + (|items| - 1) * |delim|
    decreases |items|
  {
    if |items| > 1 {
      JoinLength(items[1..], delim);
    }
  }

  function TotalLength(items: seq<string>): nat
  {
    if items == [] then 0 else |items[0]| + TotalLength(items[1..])
  }

  // ---------------------------------------------------------------------
  // Strip: removing layout characters
  // ---------------------------------------------------------------------

  /** `s` without the characters of `layout`. */
  function Strip(s: string, layout: set<char>): (r: string)
    ensures forall c :: c in r ==> c in s && c !in layout
  {
    if s == [] then [] else (if s[0] in layout then [] else [s[0]]) + Strip(s[1..], layout)
  }

  lemma {:induction false} StripAppend(a: string, b: string, layout: set<char>)
    ensures Strip(a + b, layout) == Strip(a, layout) + Strip(b, layout)
  {
    if a != [] {
      var head := if a[0] in layout then [] else [a[0]];
      assert (a + b)[0] == a[0];
      assert (a + b)[1..] == a[1..] + b;
      assert Strip(a + b, layout) == head + Strip(a[1..] + b, layout);
      StripAppend(a[1..], b, layout);
      assert Strip(a, layout) == head + Strip(a[1..], layout);
    } else {
      assert a + b == b;
    }
  }

  /** A string without layout characters is left as it is. */
  lemma {:induction false} StripKeeps(s: string, layout: set<char>)
    requires forall c :: c in s ==> c !in layout
    ensures Strip(s, layout) == s
  {
    if s != [] {
      assert s[0] in s;
      assert forall c :: c in s[1..] ==> c in s;
      StripKeeps(s[1..], layout);
      assert s == [s[0]] + s[1..];
    }
  }

  /** A string made only of layout characters strips to nothing. */
  lemma {:induction false} StripAllLayout(s: string, layout: set<char>)
    requires forall c :: c in s ==> c in layout
    ensures Strip(s, layout) == ""
  {
    if s != [] {
      assert s[0] in s;
      assert forall c :: c in s[1..] ==> c in s;
      StripAllLayout(s[1..], layout);
    }
  }

  lemma StripRepeat(str: string, count: int, layout: set<char>)
    requires forall c :: c in str ==> c in layout
    ensures Strip(Repeat(str, count), layout) == ""
  {
    forall c | c in Repeat(str, count) ensures c in layout {
      RepeatChars(str, count, c);
    }
    StripAllLayout(Repeat(str, count), layout);
  }

  /** Stripping a join strips each item and the delimiter. */
  lemma {:induction false} StripJoin(items: seq<string>, delim: string, layout: set<char>)
    requires |items| > 0
    ensures Strip(Join(items, delim), layout) == Join(StripAll(items, layout), Strip(delim, layout))
    decreases |items|
  {
    if |items| > 1 {
      StripJoin(items[1..], delim, layout);
      StripAppend(items[0] + delim, Join(items[1..], delim), layout);
      StripAppend(items[0], delim, layout);
      assert StripAll(items, layout)[1..] == StripAll(items[1..], layout);
    }
  }

  function StripAll(items: seq<string>, layout: set<char>): (r: seq<string>)
    ensures |r| == |items|
    ensures forall k :: 0 <= k < |items| ==> r[k] == Strip(items[k], layout)
  {
    if items == [] then [] else [Strip(items[0], layout)] + StripAll(items[1..], layout)
  }
}
