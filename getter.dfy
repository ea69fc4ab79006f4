/**
 * The getter naming rule of LoggerUtil: `GETTER_PATTERN`,
 * `^(get|is)([A-Z]+)(.+)$`, matched against a whole method name, and the
 * property name built from its groups, `group(2).toLowerCase() + group(3)`.
 *
 * `[A-Z]+` is greedy and gives back characters only as far as `(.+)` needs
 * one, so group 2 is the longest capital run that leaves at least one
 * character after it. `.` matches every character but a line terminator.
 * Lower-casing is modelled for ASCII capitals, which is all group 2 holds.
 */
module Getter {
  import opened Wrappers

  predicate IsUpper(c: char)
  {
    'A' <= c <= 'Z'
  }

  /** The characters Java's `.` does not match: \n, \r, U+0085, U+2028, U+2029. */
  predicate IsLineTerminator(c: char)
  {
    c == '\n' || c == '\r' || c == '\U{0085}' || c == '\U{2028}' || c == '\U{2029}'
  }

  /** `toLowerCase` on ASCII capitals. */
  function Lower(s: string): (r: string)
    ensures |r| == |s|
    ensures forall k :: 0 <= k < |s| ==> r[k] == if IsUpper(s[k]) then (s[k] - 'A' + 'a') as char else s[k]
  {
    if s == [] then []
    else [if IsUpper(s[0]) then (s[0] - 'A' + 'a') as char else s[0]] + Lower(s[1..])
  }

  /** Length of the run of capitals at the start of `s`. */
  function UpperRun(s: string): (k: nat)
    ensures k <= |s|
    ensures forall i :: 0 <= i < k ==> IsUpper(s[i])
    ensures k < |s| ==> !IsUpper(s[k])
  {
    if s != [] && IsUpper(s[0]) then 1 + UpperRun(s[1..]) else 0
  }

  /** Length of the `(get|is)` prefix of `name`, or 0 when it has neither. */
  function PrefixLength(name: string): nat
  {
    if |name| >= 3 && name[..3] == "get" then 3
    else if |name| >= 2 && name[..2] == "is" then 2
    else 0
  }

  /**
   * The property name a getter-style method name yields, or None when the
   * name does not match `GETTER_PATTERN`. A property name is the method
   * name without its `get` or `is`, so at least two characters long, and
   * starts with a lower-case letter.
   */
  function PropertyName(name: string): (r: Option<string>)
    ensures r.Some? ==> PrefixLength(name) > 0 && |r.value| == |name| - PrefixLength(name)
    ensures r.Some? ==> |r.value| >= 2 && 'a' <= r.value[0] <= 'z'
  {
    var p := PrefixLength(name);
    var k := UpperRun(name[p..]);
    // greedy run of capitals, giving one back when nothing follows it
    var j: int := p + (if p + k == |name| then k - 1 else k);
    if p == 0 || j <= p then None
    else if exists i :: j <= i < |name| && IsLineTerminator(name[i]) then None
    else Some(Lower(name[p..j]) + name[j..])
  }

  /**
   * `name` matches the pattern with group 1 = `name[..p]`, group 2 =
   * `name[p..j]` and group 3 = `name[j..]`.
   */
  ghost predicate MatchesAt(name: string, p: int, j: int)
  {
    && ((p == 3 && |name| >= 3 && name[..3] == "get") || (p == 2 && |name| >= 2 && name[..2] == "is"))
    && p < j < |name|
    && (forall i :: p <= i < j ==> IsUpper(name[i]))
    && (forall i :: j <= i < |name| ==> !IsLineTerminator(name[i]))
  }

  /**
   * `PropertyName` is the regex rule: it yields a name exactly when the
   * pattern matches, and then the name is group 2 lower-cased followed by
   * group 3, where group 2 is the longest capital run any match allows.
   */
  lemma PropertyNameMatches(name: string)
    ensures PropertyName(name).Some? <==> exists p, j :: MatchesAt(name, p, j)
    ensures PropertyName(name).Some? ==>
      exists p, j :: && MatchesAt(name, p, j)
                     && PropertyName(name).value == Lower(name[p..j]) + name[j..]
                     && forall p', j' :: MatchesAt(name, p', j') ==> p' == p && j' <= j
  {
    var p := PrefixLength(name);
    var k := UpperRun(name[p..]);
    var j: int := p + (if p + k == |name| then k - 1 else k);
    forall p', j' | MatchesAt(name, p', j') ensures p' == p && p < j' <= j && PropertyName(name).Some? {
      MatchIsGreedy(name, p', j');
    }
    if PropertyName(name).Some? {
      GreedyMatches(name);
    }
  }

  /** Any match has the prefix `PrefixLength` finds and no more capitals than the greedy run. */
  lemma MatchIsGreedy(name: string, p': int, j': int)
    requires MatchesAt(name, p', j')
    ensures var p := PrefixLength(name);
            var k := UpperRun(name[p..]);
            p' == p && p < j' <= p + (if p + k == |name| then k - 1 else k) && PropertyName(name).Some?
  {
    if p' == 2 { assert name[0] == 'i'; } else { assert name[0] == 'g'; }
    assert p' == PrefixLength(name);
    MaximalRun(name, p', j');
  }

  /** When `PropertyName` yields a name, the greedy split is a match. */
  lemma GreedyMatches(name: string)
    requires PropertyName(name).Some?
    ensures var p := PrefixLength(name);
            var k := UpperRun(name[p..]);
            MatchesAt(name, p, p + (if p + k == |name| then k - 1 else k))
  {
    var p := PrefixLength(name);
    var k := UpperRun(name[p..]);
    var j: int := p + (if p + k == |name| then k - 1 else k);
    forall i | p <= i < j ensures IsUpper(name[i]) {
      assert name[p..][i - p] == name[i];
    }
  }

  /** No match can take more capitals than the greedy run leaves room for. */
  lemma MaximalRun(name: string, p: nat, j': int)
    requires p < j' < |name|
    requires forall i :: p <= i < j' ==> IsUpper(name[i])
    ensures var k := UpperRun(name[p..]); j' <= p + (if p + k == |name| then k - 1 else k)
  {
    UpperRunAtLeast(name[p..], j' - p);
  }

  lemma {:induction false} UpperRunAtLeast(s: string, m: nat)
    requires m <= |s|
    requires forall i :: 0 <= i < m ==> IsUpper(s[i])
    ensures UpperRun(s) >= m
  {
    if m > 0 {
      UpperRunAtLeast(s[1..], m - 1);
    }
  }

  /** A property name is made of the method name's characters and lower-case letters. */
  lemma PropertyNameChars(name: string, c: char)
    requires PropertyName(name).Some? && c in PropertyName(name).value
    ensures c in name || 'a' <= c <= 'z'
  {
    PropertyNameSplit(name);
    var p, j :| 0 <= p <= j <= |name| && PropertyName(name).value == Lower(name[p..j]) + name[j..];
    SplitChars(name, p, j, c);
  }

  lemma SplitChars(name: string, p: int, j: int, c: char)
    requires 0 <= p <= j <= |name| && c in Lower(name[p..j]) + name[j..]
    ensures c in name || 'a' <= c <= 'z'
  {
    if c in Lower(name[p..j]) {
      LowerChars(name[p..j], c);
      if c in name[p..j] {
        SliceChars(name, p, j, c);
      }
    } else {
      SliceChars(name, j, |name|, c);
    }
  }

  /** A property name is group 2 lower-cased followed by group 3. */
  lemma PropertyNameSplit(name: string)
    requires PropertyName(name).Some?
    ensures exists p, j :: 0 <= p <= j <= |name| && PropertyName(name).value == Lower(name[p..j]) + name[j..]
  {
    var p := PrefixLength(name);
    var k := UpperRun(name[p..]);
    var j: int := p + (if p + k == |name| then k - 1 else k);
    assert PropertyName(name).value == Lower(name[p..j]) + name[j..];
  }

  lemma LowerChars(s: string, c: char)
    requires c in Lower(s)
    ensures c in s || 'a' <= c <= 'z'
  {
    var i :| 0 <= i < |s| && Lower(s)[i] == c;
  }

  lemma SliceChars(s: string, i: int, j: int, c: char)
    requires 0 <= i <= j <= |s| && c in s[i..j]
    ensures c in s
  {
    var k :| 0 <= k < j - i && s[i..j][k] == c;
    assert s[i + k] == c;
  }

  /** The getters of the test fixture: `getF2` and `getF7`. */
  lemma PropertyNameGetters()
    ensures PropertyName("getF2") == Some("f2")
    ensures PropertyName("getF7") == Some("f7")
  {
    GetterOfDigit('2');
    GetterOfDigit('7');
  }

  /** `getF` and a digit name the property `f` and that digit. */
  lemma GetterOfDigit(d: char)
    requires '0' <= d <= '9'
    ensures PropertyName(['g', 'e', 't', 'F', d]) == Some(['f', d])
  {
    var name := ['g', 'e', 't', 'F', d];
    assert name[..3] == "get" && name[3..4] == "F" && name[4..] == [d];
    GetterOfOneCapital(name);
    assert Lower("F") == "f";
    assert Lower(name[3..4]) + name[4..] == ['f', d];
  }

  /** The boolean getter of the test fixture: `isF4`. */
  lemma PropertyNameIsGetter()
    ensures PropertyName("isF4") == Some("f4")
  {
    var name := ['i', 's', 'F', '4'];
    assert name[..2] == "is" && name[2..3] == "F" && name[3..] == "4";
    IsGetterOfOneCapital(name);
    assert Lower("F") == "f";
    assert Lower(name[2..3]) + name[3..] == "f4";
  }

  /** `is`, one capital, then one character that is neither a capital nor a line break. */
  lemma IsGetterOfOneCapital(name: string)
    requires |name| == 4 && name[..2] == "is" && IsUpper(name[2])
    requires !IsUpper(name[3]) && !IsLineTerminator(name[3])
    ensures PropertyName(name) == Some(Lower(name[2..3]) + name[3..])
  {
    assert name[0] == 'i';
    assert name[..3] != "get" by { assert name[..3][0] == 'i'; }
    assert PrefixLength(name) == 2;
    assert name[2..][1..] == name[3..];
    assert UpperRun(name[3..]) == 0;
    assert UpperRun(name[2..]) == 1;
    assert !exists i :: 3 <= i < 4 && IsLineTerminator(name[i]);
  }

  /** `get`, one capital, then one character that is neither a capital nor a line break. */
  lemma GetterOfOneCapital(name: string)
    requires |name| == 5 && name[..3] == "get" && IsUpper(name[3])
    requires !IsUpper(name[4]) && !IsLineTerminator(name[4])
    ensures PropertyName(name) == Some(Lower(name[3..4]) + name[4..])
  {
    assert name[3..][1..] == name[4..];
    assert UpperRun(name[4..]) == 0;
    assert UpperRun(name[3..]) == 1;
    assert !exists i :: 4 <= i < 5 && IsLineTerminator(name[i]);
  }

  /** A capital run with nothing after it gives back its last capital. */
  lemma PropertyNameAllCapitals()
    ensures PropertyName("getURL") == Some("urL")
  {
    assert "getURL"[..3] == "get" && "getURL"[3..] == "URL";
    assert "URL"[1..] == "RL" && "RL"[1..] == "L" && "L"[1..] == "";
    assert UpperRun("URL") == 3;
    assert "getURL"[3..5] == "UR" && "getURL"[5..] == "L";
    assert !exists i :: 5 <= i < 6 && IsLineTerminator("getURL"[i]);
    assert PropertyName("getURL") == Some(Lower("getURL"[3..5]) + "getURL"[5..]);
    assert Lower("UR") == "ur" by { assert "UR"[1..] == "R"; }
    assert "ur" + "L" == "urL";
  }

  /** Names the pattern rejects: a lone capital, a lower-case start, no prefix. */
  lemma PropertyNameRejects()
    ensures PropertyName("getX") == None
    ensures PropertyName("isY") == None
    ensures PropertyName("getter") == None
    ensures PropertyName("toString") == None
  {
    assert "getX"[..3] == "get" && "getX"[3..] == "X";
    assert "isY"[..3][0] != 'g' && "isY"[..2] == "is" && "isY"[2..] == "Y";
    assert "getter"[..3] == "get" && "getter"[3..] == "ter";
    assert "toString"[..3][0] != 'g' && "toString"[..2][0] != 'i';
  }
}
