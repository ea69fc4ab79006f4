/**
 * The debug layout of the unit test's `Hoge`, line by line.
 *
 * A debug dump is a sequence of lines separated by the line separator. A
 * child that spans several lines is a group of lines: the indentation goes
 * in front of its first line, and the comma `joinTo` writes after it lands
 * at the end of its last line. The lemmas below state that once for every
 * bracketed block, and then compute the lines of `f5`, `f6`, `f7`, a
 * `TestClass` and a `Hoge`.
 */
module DebugFixtures {
  import opened Wrappers
  import opened Text
  import opened Props
  import opened LoggerUtil
  import opened Fixtures

  // ---------------------------------------------------------------------
  // Groups of lines
  // ---------------------------------------------------------------------

  predicate NonEmptyGroups(gs: seq<seq<string>>)
  {
    forall i :: 0 <= i < |gs| ==> gs[i] != []
  }

  /** Each group as one text, its lines separated by `eol`. */
  function Texts(gs: seq<seq<string>>, eol: string): (r: seq<string>)
    requires NonEmptyGroups(gs)
    ensures |r| == |gs| && forall i :: 0 <= i < |gs| ==> r[i] == Join(gs[i], eol)
  {
    seq(|gs|, i requires 0 <= i < |gs| => Join(gs[i], eol))
  }

  /** Every group with `p` in front of its first line. */
  function Indented(gs: seq<seq<string>>, p: string): (r: seq<seq<string>>)
    requires NonEmptyGroups(gs)
    ensures |r| == |gs| && forall i :: 0 <= i < |gs| ==> r[i] == [p + gs[i][0]] + gs[i][1..]
    ensures NonEmptyGroups(r)
  {
    seq(|gs|, i requires 0 <= i < |gs| => [p + gs[i][0]] + gs[i][1..])
  }

  /** A group whose last line ends with a comma. */
  function WithComma(g: seq<string>): (r: seq<string>)
    requires g != []
    ensures |r| == |g| && r[..|g| - 1] == g[..|g| - 1] && r[|g| - 1] == g[|g| - 1] + ","
  {
    g[..|g| - 1] + [g[|g| - 1] + ","]
  }

  /** The lines of all groups, a comma after the last line of every group but the last. */
  function Commaed(gs: seq<seq<string>>): (r: seq<string>)
    requires NonEmptyGroups(gs)
    ensures gs != [] ==> r != []
  {
    if gs == [] then []
    else if |gs| == 1 then gs[0]
    else WithComma(gs[0]) + Commaed(gs[1..])
  }

  /** Every item a group of one line. */
  function Singles(xs: seq<string>): (r: seq<seq<string>>)
    ensures |r| == |xs| && forall i :: 0 <= i < |xs| ==> r[i] == [xs[i]]
    ensures NonEmptyGroups(r)
  {
    seq(|xs|, i requires 0 <= i < |xs| => [xs[i]])
  }

  lemma JoinOne(x: string, d: string)
    ensures Join([x], d) == x
  {
  }

  /** Text in front of a group's text goes in front of its first line. */
  lemma PrependFirst(p: string, g: seq<string>, d: string)
    requires g != []
    ensures p + Join(g, d) == Join([p + g[0]] + g[1..], d)
  {
    var h := [p + g[0]] + g[1..];
    if |g| > 1 {
      assert h[1..] == g[1..];
    }
  }

  /** Text after a group's text goes at the end of its last line. */
  lemma {:induction false} AppendLast(g: seq<string>, s: string, d: string)
    requires g != []
    ensures Join(g, d) + s == Join(g[..|g| - 1] + [g[|g| - 1] + s], d)
    decreases |g|
  {
    var h := g[..|g| - 1] + [g[|g| - 1] + s];
    if |g| > 1 {
      var t := g[1..];
      AppendLast(t, s, d);
      assert h[1..] == t[..|t| - 1] + [t[|t| - 1] + s];
      assert Join(g, d) + s == g[0] + d + (Join(t, d) + s);
    }
  }

  lemma CommaedCons(g: seq<string>, gs: seq<seq<string>>)
    requires g != [] && gs != [] && NonEmptyGroups(gs)
    ensures NonEmptyGroups([g] + gs)
    ensures Commaed([g] + gs) == WithComma(g) + Commaed(gs)
  {
    assert ([g] + gs)[1..] == gs;
  }

  /** Joining group texts with a comma and a line break lays out their lines. */
  lemma {:induction false} JoinGroups(gs: seq<seq<string>>, eol: string)
    requires gs != [] && NonEmptyGroups(gs)
    ensures Join(Texts(gs, eol), "," + eol) == Join(Commaed(gs), eol)
    decreases |gs|
  {
    if |gs| > 1 {
      var g, rest := gs[0], gs[1..];
      JoinGroups(rest, eol);
      assert Texts(gs, eol)[1..] == Texts(rest, eol);
      AppendLast(g, ",", eol);
      JoinAppend(WithComma(g), Commaed(rest), eol);
      calc {
        Join(Texts(gs, eol), "," + eol);
        Join(g, eol) + ("," + eol) + Join(Texts(rest, eol), "," + eol);
        (Join(g, eol) + ",") + eol + Join(Commaed(rest), eol);
        Join(WithComma(g), eol) + eol + Join(Commaed(rest), eol);
      }
    }
  }

  /** Indenting the group texts is indenting the first line of each group. */
  lemma IndentedTexts(gs: seq<seq<string>>, p: string, eol: string)
    requires NonEmptyGroups(gs)
    ensures Prefixed(Texts(gs, eol), p) == Texts(Indented(gs, p), eol)
  {
    forall i | 0 <= i < |gs| ensures Prefixed(Texts(gs, eol), p)[i] == Texts(Indented(gs, p), eol)[i] {
      PrependFirst(p, gs[i], eol);
    }
  }

  /**
   * A debug block of children that are groups of lines: the opening
   * bracket alone on a line, the lines of the children with the first line
   * of each indented and a comma after each child but the last, then the
   * closing bracket behind the indentation of the enclosing level.
   */
  lemma DebugBlock(open: string, close: string, gs: seq<seq<string>>, layout: Layout, indent: int)
    requires layout.debug && gs != [] && NonEmptyGroups(gs)
    ensures Block(open, close, Texts(gs, layout.eol), layout, indent) ==
              Ok(Join([open] + Commaed(Indented(gs, Prefix(layout, indent))) +
                      [Repeat(layout.indentStr, indent - 1) + close], layout.eol))
  {
    var eol := layout.eol;
    var p := Prefix(layout, indent);
    var lines := Commaed(Indented(gs, p));
    var last := Repeat(layout.indentStr, indent - 1) + close;
    IndentedTexts(gs, p, eol);
    JoinGroups(Indented(gs, p), eol);
    JoinAppend([open], lines, eol);
    JoinAppend([open] + lines, [last], eol);
    assert Block(open, close, Texts(gs, eol), layout, indent) ==
           Ok(open + eol + Join(lines, eol) + (eol + last));
  }

  // ---------------------------------------------------------------------
  // Arrays and members
  // ---------------------------------------------------------------------

  /** A debug array whose elements render on one line each. */
  lemma ArrayLines(es: seq<Value>, xs: seq<string>, layout: Layout, indent: int)
    requires layout.debug && xs != []
    requires DumpAll(es, layout, indent + 1) == Some(xs)
    ensures Dump(Seq(es), layout, indent) ==
              Ok(Join(["["] + Commaed(Indented(Singles(xs), Prefix(layout, indent))) +
                      [Repeat(layout.indentStr, indent - 1) + "]"], layout.eol))
  {
    assert Texts(Singles(xs), layout.eol) == xs by {
      forall i | 0 <= i < |xs| ensures Texts(Singles(xs), layout.eol)[i] == xs[i] {
        JoinOne(xs[i], layout.eol);
      }
    }
    DebugBlock("[", "]", Singles(xs), layout, indent);
  }

  lemma IndentedSingles(xs: seq<string>, p: string)
    ensures forall i :: 0 <= i < |xs| ==> Indented(Singles(xs), p)[i] == [p + xs[i]]
  {
    forall i | 0 <= i < |xs| ensures Indented(Singles(xs), p)[i] == [p + xs[i]] {
      assert Singles(xs)[i][1..] == [];
    }
  }

  /** Four one-line items behind `p`, a comma after all but the last. */
  lemma FourLines(a: string, b: string, c: string, e: string, p: string)
    ensures Commaed(Indented(Singles([a, b, c, e]), p)) == [p + a + ",", p + b + ",", p + c + ",", p + e]
  {
    var gs := Indented(Singles([a, b, c, e]), p);
    IndentedSingles([a, b, c, e], p);
    var t := gs[1..];
    assert gs[0] == [p + a] && t[0] == [p + b] && t[1] == [p + c] && t[2] == [p + e];
    assert Commaed(gs) == WithComma(gs[0]) + Commaed(t);
    ThreeGroups(t);
    OneComma(p + a);
    OneComma(p + b);
    OneComma(p + c);
  }

  /** Three one-line items behind `p`, a comma after all but the last. */
  lemma ThreeLines(a: string, b: string, c: string, p: string)
    ensures Commaed(Indented(Singles([a, b, c]), p)) == [p + a + ",", p + b + ",", p + c]
  {
    var gs := Indented(Singles([a, b, c]), p);
    IndentedSingles([a, b, c], p);
    assert gs[0] == [p + a] && gs[1] == [p + b] && gs[2] == [p + c];
    ThreeGroups(gs);
    OneComma(p + a);
    OneComma(p + b);
  }

  lemma OneComma(x: string)
    ensures WithComma([x]) == [x + ","]
  {
    assert [x][..0] == [];
  }

  /** A debug array of four one-line elements. */
  lemma ArrayFour(es: seq<Value>, a: string, b: string, c: string, e: string, layout: Layout, indent: int)
    requires layout.debug && DumpAll(es, layout, indent + 1) == Some([a, b, c, e])
    ensures var p := Prefix(layout, indent);
            Dump(Seq(es), layout, indent) ==
              Ok(Join(["["] + [p + a + ",", p + b + ",", p + c + ",", p + e] +
                      [Repeat(layout.indentStr, indent - 1) + "]"], layout.eol))
  {
    ArrayLines(es, [a, b, c, e], layout, indent);
    FourLines(a, b, c, e, Prefix(layout, indent));
  }

  /** A debug array of three one-line elements. */
  lemma ArrayThree(es: seq<Value>, a: string, b: string, c: string, layout: Layout, indent: int)
    requires layout.debug && DumpAll(es, layout, indent + 1) == Some([a, b, c])
    ensures var p := Prefix(layout, indent);
            Dump(Seq(es), layout, indent) ==
              Ok(Join(["["] + [p + a + ",", p + b + ",", p + c] +
                      [Repeat(layout.indentStr, indent - 1) + "]"], layout.eol))
  {
    ArrayLines(es, [a, b, c], layout, indent);
    ThreeLines(a, b, c, Prefix(layout, indent));
  }

  /** The first line of a member whose value opens with the line `first`. */
  function Head(name: string, first: string): string
  {
    "\"" + name + "\": " + first
  }

  /** A debug member whose value spans the lines `g`: the name goes in front of the first. */
  lemma MemberLines(name: string, g: seq<string>, layout: Layout)
    requires layout.debug && g != [] && '\\' !in name && '"' !in name
    ensures Member(Prop(name, Join(g, layout.eol)), layout) ==
              Join([Head(name, g[0])] + g[1..], layout.eol)
  {
    var head := "\"" + name + "\": ";
    assert "\"" + Quote(name) + "\":" + " " == head;
    PrependFirst(head, g, layout.eol);
  }

  /** The member groups of a table whose values span the lines `gs`. */
  function MemberGroups(ps: seq<Prop>, gs: seq<seq<string>>): (r: seq<seq<string>>)
    requires |ps| == |gs| && NonEmptyGroups(gs)
    ensures |r| == |gs| && NonEmptyGroups(r)
    ensures forall i :: 0 <= i < |gs| ==> r[i] == [Head(ps[i].name, gs[i][0])] + gs[i][1..]
  {
    seq(|gs|, i requires 0 <= i < |gs| => [Head(ps[i].name, gs[i][0])] + gs[i][1..])
  }

  lemma MembersLines(ps: seq<Prop>, gs: seq<seq<string>>, layout: Layout)
    requires layout.debug && |ps| == |gs| && NonEmptyGroups(gs)
    requires forall i :: 0 <= i < |ps| ==> '\\' !in ps[i].name && '"' !in ps[i].name
    requires forall i :: 0 <= i < |ps| ==> ps[i].text == Join(gs[i], layout.eol)
    ensures Members(ps, layout) == Texts(MemberGroups(ps, gs), layout.eol)
  {
    forall i | 0 <= i < |ps| ensures Members(ps, layout)[i] == Texts(MemberGroups(ps, gs), layout.eol)[i] {
      MemberLines(ps[i].name, gs[i], layout);
    }
  }

  /**
   * A debug object block whose members' values span the lines `gs`: each
   * member a group headed by its name.
   */
  lemma DebugObject(v: Value, ps: seq<Prop>, gs: seq<seq<string>>, layout: Layout, indent: int)
    requires layout.debug && ps != [] && |ps| == |gs| && NonEmptyGroups(gs)
    requires forall i :: 0 <= i < |ps| ==> '\\' !in ps[i].name && '"' !in ps[i].name
    requires forall i :: 0 <= i < |ps| ==> ps[i].text == Join(gs[i], layout.eol)
    requires Dump(v, layout, indent) == Block("{", "}", Members(ps, layout), layout, indent)
    ensures Dump(v, layout, indent) ==
              Ok(Join(["{"] + Commaed(Indented(MemberGroups(ps, gs), Prefix(layout, indent))) +
                      [Repeat(layout.indentStr, indent - 1) + "}"], layout.eol))
  {
    MembersLines(ps, gs, layout);
    DebugBlock("{", "}", MemberGroups(ps, gs), layout, indent);
  }

  /** `DebugObject` with its lines and closing line computed apart. */
  lemma DebugObjectLines(v: Value, ps: seq<Prop>, gs: seq<seq<string>>, layout: Layout, indent: int,
                         lines: seq<string>, last: string)
    requires layout.debug && ps != [] && |ps| == |gs| && NonEmptyGroups(gs)
    requires forall i :: 0 <= i < |ps| ==> '\\' !in ps[i].name && '"' !in ps[i].name
    requires forall i :: 0 <= i < |ps| ==> ps[i].text == Join(gs[i], layout.eol)
    requires Dump(v, layout, indent) == Block("{", "}", Members(ps, layout), layout, indent)
    requires Commaed(Indented(MemberGroups(ps, gs), Prefix(layout, indent))) == lines
    requires Repeat(layout.indentStr, indent - 1) + "}" == last
    ensures Dump(v, layout, indent) == Ok(Join(["{"] + lines + [last], layout.eol))
  {
    DebugObject(v, ps, gs, layout, indent);
  }

  // ---------------------------------------------------------------------
  // The unit test's texts (lines 85-135 of the unit test)
  // ---------------------------------------------------------------------

  /** The one-line members of a `TestClass` inside a `Hoge` (lines 89-92). */
  const ScalarMemberLines := ["\t\t\"f1\": null,", "\t\t\"f2\": \"hogehoge\",", "\t\t\"f3\": false,", "\t\t\"f4\": true,"]

  /** Its member `f5` (lines 93-98). */
  const F5MemberLines := ["\t\t\"f5\": [", "\t\t\t1,", "\t\t\t3,", "\t\t\t5,", "\t\t\t7", "\t\t],"]

  /** Its member `f6` (lines 99-104). */
  const F6MemberLines := ["\t\t\"f6\": [", "\t\t\t\"a\",", "\t\t\t\"b\",", "\t\t\t\"c\",", "\t\t\t\"d\"", "\t\t],"]

  /** Its member `f7` (lines 105-109). */
  const F7MemberLines := ["\t\t\"f7\": [", "\t\t\t\"x\",", "\t\t\t\"y\",", "\t\t\t\"z\"", "\t\t]"]

  /** The lines between the braces of a `TestClass` inside a `Hoge`. */
  const TestClassDebugLines := ScalarMemberLines + F5MemberLines + F6MemberLines + F7MemberLines

  /** The whole text of `dump(new Hoge(), true)`, line by line (lines 87-134). */
  const HogeDebugLines :=
    ["{", "\t\"tc1\": {"] + TestClassDebugLines + ["\t},", "\t\"tc2\": {"] + TestClassDebugLines + ["\t}", "}"]

  // ---------------------------------------------------------------------
  // The arrays at depth 3
  // ---------------------------------------------------------------------

  /** The lines of `f5`, `f6` and `f7` at depth 3, before any comma after them. */
  const F5Group := ["[", "\t\t\t1,", "\t\t\t3,", "\t\t\t5,", "\t\t\t7", "\t\t]"]
  const F6Group := ["[", "\t\t\t\"a\",", "\t\t\t\"b\",", "\t\t\t\"c\",", "\t\t\t\"d\"", "\t\t]"]
  const F7Group := ["[", "\t\t\t\"x\",", "\t\t\t\"y\",", "\t\t\t\"z\"", "\t\t]"]

  lemma Tabs(layout: Layout)
    requires layout.indentStr == "\t" && layout.debug
    ensures Prefix(layout, 1) == "\t" && Prefix(layout, 2) == "\t\t" && Prefix(layout, 3) == "\t\t\t"
    ensures Repeat("\t", 0) == "" && Repeat("\t", 1) == "\t" && Repeat("\t", 2) == "\t\t"
  {
    assert Repeat("\t", 1) == "" + "\t";
  }

  /** The items of an array of strings with nothing to escape, in any layout. */
  lemma StrsItems(ss: seq<string>, layout: Layout, indent: int)
    requires forall k :: 0 <= k < |ss| ==> '\\' !in ss[k] && '"' !in ss[k]
    ensures DumpAll(Strs(ss), layout, indent) == Some(Quoted(ss))
  {
    forall k | 0 <= k < |ss| ensures Dump(Strs(ss)[k], layout, indent) == Ok(Quoted(ss)[k]) {
      StrCompact(ss[k], layout, indent);
    }
    var r := DumpAll(Strs(ss), layout, indent);
    assert r.Some? && r.value == Quoted(ss);
  }

  /**
   * In debug mode the array `f5` of a `TestClass` inside a `Hoge` (depth 3)
   * puts each element on its own line behind three tabs and its closing
   * bracket behind two.
   */
  lemma F5Debug(eol: string)
    ensures Dump(F5Value, Layout("\t", eol, true), 3) == Ok(Join(F5Group, eol))
  {
    var layout := Layout("\t", eol, true);
    F5Items(layout);
    Tabs(layout);
    ArrayFour(F5Value.elems, "1", "3", "5", "7", layout, 3);
    F5GroupIs();
  }

  lemma F5GroupIs()
    ensures ["["] + ["\t\t\t" + "1" + ",", "\t\t\t" + "3" + ",", "\t\t\t" + "5" + ",", "\t\t\t" + "7"] + ["\t\t" + "]"] == F5Group
  {
    assert "\t\t\t" + "1" + "," == "\t\t\t1,";
    assert "\t\t\t" + "3" + "," == "\t\t\t3,";
    assert "\t\t\t" + "5" + "," == "\t\t\t5,";
    assert "\t\t\t" + "7" == "\t\t\t7";
    assert "\t\t" + "]" == "\t\t]";
  }

  /** `f6` at depth 3: its quoted strings one per line. */
  lemma F6Debug(eol: string)
    ensures Dump(F6Value, Layout("\t", eol, true), 3) == Ok(Join(F6Group, eol))
  {
    var layout := Layout("\t", eol, true);
    var q := Quoted(["a", "b", "c", "d"]);
    StrsItems(["a", "b", "c", "d"], layout, 4);
    Tabs(layout);
    assert q == [q[0], q[1], q[2], q[3]];
    ArrayFour(F6Value.elems, q[0], q[1], q[2], q[3], layout, 3);
    F6GroupIs(q);
  }

  lemma F6GroupIs(q: seq<string>)
    requires q == Quoted(["a", "b", "c", "d"])
    ensures ["["] + ["\t\t\t" + q[0] + ",", "\t\t\t" + q[1] + ",", "\t\t\t" + q[2] + ",", "\t\t\t" + q[3]] + ["\t\t" + "]"] == F6Group
  {
    assert "\t\t\t" + q[0] + "," == "\t\t\t\"a\",";
    assert "\t\t\t" + q[1] + "," == "\t\t\t\"b\",";
    assert "\t\t\t" + q[2] + "," == "\t\t\t\"c\",";
    assert "\t\t\t" + q[3] == "\t\t\t\"d\"";
    assert "\t\t" + "]" == "\t\t]";
  }

  /** `f7` at depth 3. */
  lemma F7Debug(eol: string)
    ensures Dump(F7Value, Layout("\t", eol, true), 3) == Ok(Join(F7Group, eol))
  {
    var layout := Layout("\t", eol, true);
    var q := Quoted(["x", "y", "z"]);
    StrsItems(["x", "y", "z"], layout, 4);
    Tabs(layout);
    assert q == [q[0], q[1], q[2]];
    ArrayThree(F7Value.elems, q[0], q[1], q[2], layout, 3);
    F7GroupIs(q);
  }

  lemma F7GroupIs(q: seq<string>)
    requires q == Quoted(["x", "y", "z"])
    ensures ["["] + ["\t\t\t" + q[0] + ",", "\t\t\t" + q[1] + ",", "\t\t\t" + q[2]] + ["\t\t" + "]"] == F7Group
  {
    assert "\t\t\t" + q[0] + "," == "\t\t\t\"x\",";
    assert "\t\t\t" + q[1] + "," == "\t\t\t\"y\",";
    assert "\t\t\t" + q[2] == "\t\t\t\"z\"";
    assert "\t\t" + "]" == "\t\t]";
  }

  // ---------------------------------------------------------------------
  // A `TestClass` at depth 2 and a `Hoge` at depth 1
  // ---------------------------------------------------------------------

  /** A comma after a group's last line is a comma after the last line of its last part. */
  lemma WithCommaAppend(x: seq<string>, y: seq<string>)
    requires y != []
    ensures WithComma(x + y) == x + WithComma(y)
  {
    assert (x + y)[..|x + y| - 1] == x + y[..|y| - 1];
  }

  /** Laying out two runs of groups: the first run's last line gets the comma between them. */
  lemma NonEmptyAppend(a: seq<seq<string>>, b: seq<seq<string>>)
    requires NonEmptyGroups(a) && NonEmptyGroups(b)
    ensures NonEmptyGroups(a + b)
  {
    forall i | 0 <= i < |a + b| ensures (a + b)[i] != [] {
      if i >= |a| { assert (a + b)[i] == b[i - |a|]; }
    }
  }

  lemma {:induction false} CommaedAppend(a: seq<seq<string>>, b: seq<seq<string>>)
    requires a != [] && b != [] && NonEmptyGroups(a) && NonEmptyGroups(b)
    ensures NonEmptyGroups(a + b)
    ensures Commaed(a + b) == WithComma(Commaed(a)) + Commaed(b)
    decreases |a|
  {
    NonEmptyAppend(a, b);
    var t := a[1..];
    NonEmptyAppend(t, b);
    assert (a + b)[0] == a[0] && (a + b)[1..] == t + b;
    assert Commaed(a + b) == WithComma(a[0]) + Commaed(t + b);
    if t == [] {
      assert t + b == b && Commaed(a) == a[0];
    } else {
      CommaedAppend(t, b);
      assert Commaed(a) == WithComma(a[0]) + Commaed(t);
      WithCommaAppend(WithComma(a[0]), Commaed(t));
    }
  }

  lemma ThreeGroups(b: seq<seq<string>>)
    requires |b| == 3 && NonEmptyGroups(b)
    ensures Commaed(b) == WithComma(b[0]) + (WithComma(b[1]) + b[2])
  {
    var t := b[1..];
    assert t[1..] == [b[2]];
    assert Commaed(t) == WithComma(b[1]) + Commaed([b[2]]);
  }

  /** Seven groups: the first four, then the other three one by one. */
  lemma SevenGroups(gs: seq<seq<string>>)
    requires |gs| == 7 && NonEmptyGroups(gs)
    ensures Commaed(gs) == WithComma(Commaed(gs[..4])) + (WithComma(gs[4]) + (WithComma(gs[5]) + gs[6]))
  {
    var a, b := gs[..4], gs[4..];
    assert gs == a + b;
    CommaedAppend(a, b);
    ThreeGroups(b);
  }

  /** The four one-line members of a `TestClass`, behind two tabs. */
  lemma ScalarLinesAre(h: string)
    requires h == "\"" + "hogehoge" + "\""
    ensures WithComma(["\t\t" + Head("f1", "null") + ",", "\t\t" + Head("f2", h) + ",",
                       "\t\t" + Head("f3", "false") + ",", "\t\t" + Head("f4", "true")]) == ScalarMemberLines
  {
    assert "\t\t" + Head("f1", "null") + "," == "\t\t\"f1\": null,";
    assert "\t\t" + Head("f2", h) + "," == "\t\t\"f2\": \"hogehoge\",";
    assert "\t\t" + Head("f3", "false") + "," == "\t\t\"f3\": false,";
    assert "\t\t" + Head("f4", "true") + "," == "\t\t\"f4\": true,";
  }

  lemma F5MemberIs()
    ensures WithComma(["\t\t" + Head("f5", F5Group[0])] + F5Group[1..]) == F5MemberLines
  {
    assert "\t\t" + Head("f5", F5Group[0]) == "\t\t\"f5\": [";
    assert F5Group[5] + "," == "\t\t],";
  }

  lemma F6MemberIs()
    ensures WithComma(["\t\t" + Head("f6", F6Group[0])] + F6Group[1..]) == F6MemberLines
  {
    assert "\t\t" + Head("f6", F6Group[0]) == "\t\t\"f6\": [";
    assert F6Group[5] + "," == "\t\t],";
  }

  lemma F7MemberIs()
    ensures ["\t\t" + Head("f7", F7Group[0])] + F7Group[1..] == F7MemberLines
  {
    assert "\t\t" + Head("f7", F7Group[0]) == "\t\t\"f7\": [";
  }

  /** The member groups of a `TestClass`, laid out behind two tabs. */
  lemma TestClassLines(ps: seq<Prop>, h: string)
    requires h == "\"" + "hogehoge" + "\""
    requires |ps| == 7 && ps[0].name == "f1" && ps[1].name == "f2" && ps[2].name == "f3" && ps[3].name == "f4"
    requires ps[4].name == "f5" && ps[5].name == "f6" && ps[6].name == "f7"
    ensures Commaed(Indented(MemberGroups(ps, [["null"], [h], ["false"], ["true"], F5Group, F6Group, F7Group]), "\t\t")) ==
              TestClassDebugLines
  {
    var gs := [["null"], [h], ["false"], ["true"], F5Group, F6Group, F7Group];
    var ind := Indented(MemberGroups(ps, gs), "\t\t");
    SevenGroups(ind);
    ScalarPart(ps, gs, h, ind);
    ArrayPart(ps, gs, h, ind);
    Concat4(ScalarMemberLines, F5MemberLines, F6MemberLines, F7MemberLines);
  }

  lemma Concat4(w: seq<string>, x: seq<string>, y: seq<string>, z: seq<string>)
    ensures w + (x + (y + z)) == w + x + y + z
  {
  }

  lemma ScalarPart(ps: seq<Prop>, gs: seq<seq<string>>, h: string, ind: seq<seq<string>>)
    requires h == "\"" + "hogehoge" + "\""
    requires |ps| == 7 && ps[0].name == "f1" && ps[1].name == "f2" && ps[2].name == "f3" && ps[3].name == "f4"
    requires gs == [["null"], [h], ["false"], ["true"], F5Group, F6Group, F7Group]
    requires ind == Indented(MemberGroups(ps, gs), "\t\t")
    ensures WithComma(Commaed(ind[..4])) == ScalarMemberLines
  {
    var ms := [Head("f1", "null"), Head("f2", h), Head("f3", "false"), Head("f4", "true")];
    IndentedSingles(ms, "\t\t");
    assert ind[..4] == Indented(Singles(ms), "\t\t") by {
      forall k | 0 <= k < 4 ensures ind[k] == ["\t\t" + ms[k]] {
        assert gs[k] == [gs[k][0]];
      }
    }
    FourLines(ms[0], ms[1], ms[2], ms[3], "\t\t");
    assert ms == [ms[0], ms[1], ms[2], ms[3]];
    ScalarLinesAre(h);
  }

  lemma ArrayPart(ps: seq<Prop>, gs: seq<seq<string>>, h: string, ind: seq<seq<string>>)
    requires |ps| == 7 && ps[4].name == "f5" && ps[5].name == "f6" && ps[6].name == "f7"
    requires gs == [["null"], [h], ["false"], ["true"], F5Group, F6Group, F7Group]
    requires ind == Indented(MemberGroups(ps, gs), "\t\t")
    ensures WithComma(ind[4]) + (WithComma(ind[5]) + ind[6]) == F5MemberLines + F6MemberLines + F7MemberLines
  {
    F5MemberIs();
    F6MemberIs();
    F7MemberIs();
  }

  lemma TestClassTexts(ps: seq<Prop>, gs: seq<seq<string>>, h: string, eol: string)
    requires ps == ByName("null", h, "false", "true", Join(F5Group, eol), Join(F6Group, eol), Join(F7Group, eol))
    requires gs == [["null"], [h], ["false"], ["true"], F5Group, F6Group, F7Group]
    ensures |ps| == |gs| && NonEmptyGroups(gs)
    ensures forall i :: 0 <= i < |ps| ==> '\\' !in ps[i].name && '"' !in ps[i].name
    ensures forall i :: 0 <= i < |ps| ==> ps[i].text == Join(gs[i], eol)
  {
    JoinOne("null", eol);
    JoinOne(h, eol);
    JoinOne("false", eol);
    JoinOne("true", eol);
  }

  /** The members of a `TestClass` as groups of lines, and their layout at depth 2. */
  lemma TestClassGroups(ps: seq<Prop>, gs: seq<seq<string>>, h: string, layout: Layout)
    requires layout.debug && layout.indentStr == "\t" && h == "\"" + "hogehoge" + "\""
    requires ps == ByName("null", h, "false", "true",
                          Join(F5Group, layout.eol), Join(F6Group, layout.eol), Join(F7Group, layout.eol))
    requires gs == [["null"], [h], ["false"], ["true"], F5Group, F6Group, F7Group]
    ensures ps != [] && |ps| == |gs| && NonEmptyGroups(gs)
    ensures forall i :: 0 <= i < |ps| ==> '\\' !in ps[i].name && '"' !in ps[i].name
    ensures forall i :: 0 <= i < |ps| ==> ps[i].text == Join(gs[i], layout.eol)
    ensures Commaed(Indented(MemberGroups(ps, gs), Prefix(layout, 2))) == TestClassDebugLines
    ensures Repeat(layout.indentStr, 2 - 1) + "}" == "\t}"
  {
    TestClassTexts(ps, gs, h, layout.eol);
    TestClassLines(ps, h);
    Tabs(layout);
    assert Repeat("\t", 1) + "}" == "\t}";
  }

  /**
   * In debug mode a `TestClass` inside a `Hoge` (depth 2) puts every member
   * on its own line behind two tabs, sorted by name, and its closing brace
   * behind one tab (lines 88-110 of the unit test).
   */
  lemma TestClassDebug(eol: string)
    ensures Dump(TestClass(), Layout("\t", eol, true), 2) == Ok(Join(["{"] + TestClassDebugLines + ["\t}"], eol))
  {
    var layout := Layout("\t", eol, true);
    var t5, t6, t7 := Join(F5Group, eol), Join(F6Group, eol), Join(F7Group, eol);
    F5Debug(eol);
    F6Debug(eol);
    F7Debug(eol);
    TestClassDump(layout, 2, t5, t6, t7);
    TestClassDebugOf(TestClass(), eol);
  }

  /** Any value that prints as a `TestClass`'s member table at depth 2, in debug mode. */
  lemma TestClassDebugOf(v: Value, eol: string)
    requires var layout := Layout("\t", eol, true);
             Dump(v, layout, 2) ==
               Block("{", "}", Members(ByName("null", "\"" + "hogehoge" + "\"", "false", "true",
                                              Join(F5Group, eol), Join(F6Group, eol), Join(F7Group, eol)), layout), layout, 2)
    ensures Dump(v, Layout("\t", eol, true), 2) == Ok(Join(["{"] + TestClassDebugLines + ["\t}"], eol))
  {
    var layout := Layout("\t", eol, true);
    var h := "\"" + "hogehoge" + "\"";
    var ps := ByName("null", h, "false", "true", Join(F5Group, eol), Join(F6Group, eol), Join(F7Group, eol));
    var gs := [["null"], [h], ["false"], ["true"], F5Group, F6Group, F7Group];
    TestClassGroups(ps, gs, h, layout);
    DebugObjectLines(v, ps, gs, layout, 2, TestClassDebugLines, "\t}");
  }

  /**
   * A `Hoge` whose fields' value prints, at depth 2, as the lines `lines`
   * between a brace and a tab and a brace: each field's name in front of
   * the opening brace, one tab deeper.
   */
  lemma HogeDebugOf(x: Value, lines: seq<string>, eol: string)
    requires Dump(x, Layout("\t", eol, true), 2) == Ok(Join(["{"] + lines + ["\t}"], eol))
    ensures Dump(HogeOf(x), Layout("\t", eol, true), 1) ==
              Ok(Join(["{", "\t\"tc1\": {"] + lines + ["\t},", "\t\"tc2\": {"] + lines + ["\t}", "}"], eol))
  {
    var layout := Layout("\t", eol, true);
    var g := ["{"] + lines + ["\t}"];
    var t := Join(g, eol);
    HogeBlock(x, layout, t);
    HogeTable(HogeOf(x), g, lines, layout);
  }

  /** A `Hoge`'s block: its two fields sorted by name, `getClass` skipped. */
  lemma HogeBlock(x: Value, layout: Layout, t: string)
    requires Dump(x, layout, 2) == Ok(t)
    ensures Dump(HogeOf(x), layout, 1) == Block("{", "}", Members([Prop("tc1", t), Prop("tc2", t)], layout), layout, 1)
  {
    var all := [Prop("tc1", t), Prop("tc2", t)];
    ScanSkip(GetClass, [], layout, 1, []);
    HogeFields(x, layout, 1, t);
    ObjectBlock(HogeOf(x), layout, 1, [], all);
    SortTc(t, t);
  }

  lemma HogeTable(v: Value, g: seq<string>, lines: seq<string>, layout: Layout)
    requires layout.debug && layout.indentStr == "\t" && g == ["{"] + lines + ["\t}"]
    requires var t := Join(g, layout.eol);
             Dump(v, layout, 1) == Block("{", "}", Members([Prop("tc1", t), Prop("tc2", t)], layout), layout, 1)
    ensures Dump(v, layout, 1) ==
              Ok(Join(["{", "\t\"tc1\": {"] + lines + ["\t},", "\t\"tc2\": {"] + lines + ["\t}", "}"], layout.eol))
  {
    var t := Join(g, layout.eol);
    var all := [Prop("tc1", t), Prop("tc2", t)];
    var mid := HogeMiddle(lines);
    HogeGroups(all, g, lines, layout);
    DebugObjectLines(v, all, [g, g], layout, 1, mid, "}");
    Enclosed("{", "\t\"tc1\": {", lines, "\t},", "\t\"tc2\": {", "\t}", "}");
  }

  lemma Enclosed(o: string, a: string, lines: seq<string>, b: string, c: string, d: string, e: string)
    ensures [o] + ([a] + lines + [b, c] + lines + [d]) + [e] == [o, a] + lines + [b, c] + lines + [d, e]
  {
  }

  /** The lines of a `Hoge` between its braces, around a `TestClass`'s member lines. */
  function HogeMiddle(lines: seq<string>): seq<string>
  {
    ["\t\"tc1\": {"] + lines + ["\t},", "\t\"tc2\": {"] + lines + ["\t}"]
  }

  /** The members of a `Hoge` as groups of lines, and their layout at depth 1. */
  lemma HogeGroups(all: seq<Prop>, g: seq<string>, lines: seq<string>, layout: Layout)
    requires layout.debug && layout.indentStr == "\t" && g == ["{"] + lines + ["\t}"]
    requires all == [Prop("tc1", Join(g, layout.eol)), Prop("tc2", Join(g, layout.eol))]
    ensures all != [] && |all| == |[g, g]| && NonEmptyGroups([g, g])
    ensures forall i :: 0 <= i < |all| ==> '\\' !in all[i].name && '"' !in all[i].name
    ensures forall i :: 0 <= i < |all| ==> all[i].text == Join([g, g][i], layout.eol)
    ensures Commaed(Indented(MemberGroups(all, [g, g]), Prefix(layout, 1))) == HogeMiddle(lines)
    ensures Repeat(layout.indentStr, 1 - 1) + "}" == "}"
  {
    Tabs(layout);
    HogeLines(all, g, lines);
    assert Repeat("\t", 0) + "}" == "}";
  }

  lemma HogeLines(all: seq<Prop>, g: seq<string>, lines: seq<string>)
    requires g == ["{"] + lines + ["\t}"]
    requires |all| == 2 && all[0].name == "tc1" && all[1].name == "tc2"
    ensures Commaed(Indented(MemberGroups(all, [g, g]), "\t")) == HogeMiddle(lines)
  {
    var ind := Indented(MemberGroups(all, [g, g]), "\t");
    var h1, h2 := "\t" + Head("tc1", "{"), "\t" + Head("tc2", "{");
    assert g[1..] == lines + ["\t}"];
    assert ind == [[h1] + (lines + ["\t}"]), [h2] + (lines + ["\t}"])];
    TwoGroups(ind[0], ind[1]);
    TwoFields(h1, h2, lines);
    assert h1 == "\t\"tc1\": {" && h2 == "\t\"tc2\": {";
  }

  lemma TwoGroups(x: seq<string>, y: seq<string>)
    requires x != [] && y != []
    ensures NonEmptyGroups([x, y]) && Commaed([x, y]) == WithComma(x) + y
  {
    assert [x, y][1..] == [y];
  }

  /** Two members each holding an object: a comma after the first one's closing brace. */
  lemma TwoFields(h1: string, h2: string, lines: seq<string>)
    ensures WithComma([h1] + (lines + ["\t}"])) + ([h2] + (lines + ["\t}"])) ==
              [h1] + lines + ["\t},", h2] + lines + ["\t}"]
  {
    assert [h1] + (lines + ["\t}"]) == ([h1] + lines) + ["\t}"];
    WithCommaAppend([h1] + lines, ["\t}"]);
    assert "\t}" + "," == "\t},";
    assert WithComma(["\t}"]) == [] + ["\t}" + ","];
  }

  /**
   * `dump(new Hoge(), true)`: the text the unit test expects, its lines
   * separated by the line separator (lines 85-135 of the unit test).
   */
  lemma HogeDebug(eol: string)
    ensures DumpWith(Hoge(), true, eol) == Ok(Join(HogeDebugLines, eol))
  {
    assert DumpWith(Hoge(), true, eol) == Dump(HogeOf(TestClass()), Layout("\t", eol, true), 1);
    TestClassDebug(eol);
    HogeDebugOf(TestClass(), TestClassDebugLines, eol);
    assert HogeDebugLines ==
           ["{", "\t\"tc1\": {"] + TestClassDebugLines + ["\t},", "\t\"tc2\": {"] + TestClassDebugLines + ["\t}", "}"];
  }
}
