/**
 * The classes of the unit test (`TestClass` and `Hoge`) as values, and the
 * text `dump` gives for them.
 *
 * A `String` is an object whose class declares `toString`; it is described
 * here by that one scanned method. Every method `Object` declares is
 * represented by `getClass`, which the scan skips although its name looks
 * like a getter's.
 */
module Fixtures {
  import opened Wrappers
  import opened Text
  import opened Props
  import opened Getter
  import opened LoggerUtil
  import opened Containers
  import opened Objects
  import opened Layouts

  /** A `java.lang.String` holding `s`. */
  function Str(s: string): Value
  {
    Obj(s, [Method("toString", true, false, 0, false, None)], [])
  }

  /** A method `Object` declares: skipped before its name is looked at. */
  const GetClass := Method("getClass", true, false, 0, true, None)

  /** A string renders as itself in double quotes, escaped. */
  lemma StrDump(s: string, layout: Layout, indent: int)
    ensures Dump(Str(s), layout, indent) == Ok("\"" + Quote(s) + "\"")
  {
    ToStringEarlyExit(Str(s), 0, layout, indent);
  }

  /** A text without backslashes or double quotes is left as it is by `quote`. */
  lemma QuotePlain(s: string)
    requires '\\' !in s && '"' !in s
    ensures Quote(s) == s
  {
  }

  // ---------------------------------------------------------------------
  // Texts
  // ---------------------------------------------------------------------

  lemma Join3(a: string, b: string, c: string, d: string)
    ensures Join([a, b, c], d) == a + d + b + d + c
  {
    assert [a, b, c][1..] == [b, c];
    assert [b, c][1..] == [c];
    assert Join([b, c], d) == b + d + c;
    assert a + d + (b + d + c) == a + d + b + d + c;
  }

  lemma Join4(a: string, b: string, c: string, e: string, d: string)
    ensures Join([a, b, c, e], d) == a + d + b + d + c + d + e
  {
    assert [a, b, c, e][1..] == [b, c, e];
    Join3(b, c, e, d);
    assert a + d + (b + d + c + d + e) == a + d + b + d + c + d + e;
  }

  function Strs(ss: seq<string>): (r: seq<Value>)
    ensures |r| == |ss| && forall k :: 0 <= k < |ss| ==> r[k] == Str(ss[k])
  {
    seq(|ss|, k requires 0 <= k < |ss| => Str(ss[k]))
  }

  function Quoted(ss: seq<string>): (r: seq<string>)
    ensures |r| == |ss| && forall k :: 0 <= k < |ss| ==> r[k] == "\"" + ss[k] + "\""
  {
    seq(|ss|, k requires 0 <= k < |ss| => "\"" + ss[k] + "\"")
  }

  const F5Text := "[1,3,5,7]"
  const F6Text := "[\"a\",\"b\",\"c\",\"d\"]"
  const F7Text := "[\"x\",\"y\",\"z\"]"

  lemma F5TextIs(items: seq<string>)
    requires items == ["1", "3", "5", "7"]
    ensures "[" + Join(items, ",") + "]" == F5Text
  {
    Join4("1", "3", "5", "7", ",");
  }

  lemma F6TextIs(ss: seq<string>)
    requires ss == ["a", "b", "c", "d"]
    ensures "[" + Join(Quoted(ss), ",") + "]" == F6Text
  {
    var q := Quoted(ss);
    Join4(q[0], q[1], q[2], q[3], ",");
    assert q == [q[0], q[1], q[2], q[3]];
  }

  lemma F7TextIs(ss: seq<string>)
    requires ss == ["x", "y", "z"]
    ensures "[" + Join(Quoted(ss), ",") + "]" == F7Text
  {
    var q := Quoted(ss);
    Join3(q[0], q[1], q[2], ",");
    assert q == [q[0], q[1], q[2]];
  }

  // ---------------------------------------------------------------------
  // Values
  // ---------------------------------------------------------------------

  /** The compact text of an array of strings with nothing to escape. */
  lemma StrsCompact(ss: seq<string>, layout: Layout, indent: int)
    requires !layout.debug && ss != []
    requires forall k :: 0 <= k < |ss| ==> '\\' !in ss[k] && '"' !in ss[k]
    ensures Dump(Seq(Strs(ss)), layout, indent) == Ok("[" + Join(Quoted(ss), ",") + "]")
  {
    forall k | 0 <= k < |ss| ensures Dump(Strs(ss)[k], layout, indent + 1) == Ok(Quoted(ss)[k]) {
      StrCompact(ss[k], layout, indent + 1);
    }
    SeqCompact(Strs(ss), layout, indent, Quoted(ss));
  }

  /** A compact string value: the text between double quotes, nothing to escape. */
  lemma StrCompact(s: string, layout: Layout, indent: int)
    requires '\\' !in s && '"' !in s
    ensures Dump(Str(s), layout, indent) == Ok("\"" + s + "\"")
  {
    StrDump(s, layout, indent);
    QuotePlain(s);
  }

  /** The values of `f5`, `f6` and `getF7()`. */
  const F5Value := Seq([Scalar("1"), Scalar("3"), Scalar("5"), Scalar("7")])
  const F6Value := Seq(Strs(["a", "b", "c", "d"]))
  const F7Value := Seq(Strs(["x", "y", "z"]))

  lemma F5Compact(layout: Layout, indent: int)
    requires !layout.debug
    ensures Dump(F5Value, layout, indent) == Ok(F5Text)
  {
    SeqCompact([Scalar("1"), Scalar("3"), Scalar("5"), Scalar("7")], layout, indent, ["1", "3", "5", "7"]);
    F5TextIs(["1", "3", "5", "7"]);
  }

  lemma F6Compact(layout: Layout, indent: int)
    requires !layout.debug
    ensures Dump(F6Value, layout, indent) == Ok(F6Text)
  {
    StrsCompact(["a", "b", "c", "d"], layout, indent);
    F6TextIs(["a", "b", "c", "d"]);
  }

  lemma F7Compact(layout: Layout, indent: int)
    requires !layout.debug
    ensures Dump(F7Value, layout, indent) == Ok(F7Text)
  {
    StrsCompact(["x", "y", "z"], layout, indent);
    F7TextIs(["x", "y", "z"]);
  }

  // ---------------------------------------------------------------------
  // TestClass
  // ---------------------------------------------------------------------

  const GetF2 := Method("getF2", true, false, 0, false, Some(Str("hogehoge")))
  const IsF4 := Method("isF4", true, false, 0, false, Some(Scalar("true")))
  const GetX := Method("getX", true, true, 0, false, Some(Str("fail")))
  const IsY := Method("isY", true, true, 0, false, Some(Scalar("false")))
  const GetF7 := Method("getF7", true, false, 0, false, Some(F7Value))

  const F1 := Field("f1", true, false, Some(Null))
  const F3 := Field("f3", true, false, Some(Scalar("false")))
  const F5 := Field("f5", true, false, Some(F5Value))
  const F6 := Field("f6", true, false, Some(F6Value))

  /**
   * `TestClass` of the unit test, as reflection reports it. The private
   * field `f2` is not among the public fields `getFields()` returns.
   */
  function TestClass(): Value
  {
    Obj("LoggerUtilTest$TestClass@1",
        [GetF2, IsF4, GetX, IsY, GetF7, GetClass],
        [F1, F3, F5, F6])
  }

  /** One scanned getter whose result renders: its text is put under its property name. */
  lemma ScanGetter(m: Method, rest: seq<Method>, layout: Layout, indent: int, acc: seq<Prop>, name: string, t: string)
    requires Scanned(m) && m.name != "toString" && PropertyName(m.name) == Some(name)
    requires m.result.Some? && Dump(m.result.value, layout, indent + 1) == Ok(t)
    ensures ScanMethods([m] + rest, layout, indent, acc) == ScanMethods(rest, layout, indent, Put(acc, name, t))
  {
    assert ([m] + rest)[1..] == rest;
  }

  /** A method the scan does not look at. */
  lemma ScanSkip(m: Method, rest: seq<Method>, layout: Layout, indent: int, acc: seq<Prop>)
    requires !Scanned(m)
    ensures ScanMethods([m] + rest, layout, indent, acc) == ScanMethods(rest, layout, indent, acc)
  {
    assert ([m] + rest)[1..] == rest;
  }

  lemma ScanF2(layout: Layout, indent: int, rest: seq<Method>)
    ensures ScanMethods([GetF2] + rest, layout, indent, []) ==
            ScanMethods(rest, layout, indent, [Prop("f2", "\"" + "hogehoge" + "\"")])
  {
    PropertyNameGetters();
    StrCompact("hogehoge", layout, indent + 1);
    ScanGetter(GetF2, rest, layout, indent, [], "f2", "\"" + "hogehoge" + "\"");
  }

  lemma ScanF4(layout: Layout, indent: int, rest: seq<Method>, acc: seq<Prop>)
    ensures ScanMethods([IsF4] + rest, layout, indent, acc) == ScanMethods(rest, layout, indent, Put(acc, "f4", "true"))
  {
    PropertyNameIsGetter();
    ScanGetter(IsF4, rest, layout, indent, acc, "f4", "true");
  }

  lemma ScanF7(layout: Layout, indent: int, acc: seq<Prop>, t7: string)
    requires Dump(F7Value, layout, indent + 1) == Ok(t7)
    ensures ScanMethods([GetX, IsY, GetF7, GetClass], layout, indent, acc) == Found(Put(acc, "f7", t7))
  {
    assert [GetX, IsY, GetF7, GetClass] == [GetX] + ([IsY] + [GetF7, GetClass]);
    ScanSkip(GetX, [IsY] + [GetF7, GetClass], layout, indent, acc);
    ScanSkip(IsY, [GetF7, GetClass], layout, indent, acc);
    ScanGetF7(layout, indent, acc, t7);
  }

  lemma ScanGetF7(layout: Layout, indent: int, acc: seq<Prop>, t7: string)
    requires Dump(F7Value, layout, indent + 1) == Ok(t7)
    ensures ScanMethods([GetF7, GetClass], layout, indent, acc) == Found(Put(acc, "f7", t7))
  {
    PropertyNameGetters();
    ScanGetter(GetF7, [GetClass], layout, indent, acc, "f7", t7);
    ScanSkip(GetClass, [], layout, indent, Put(acc, "f7", t7));
  }

  /**
   * The getters' table of a `TestClass`, in any layout where `getF7()`'s
   * array renders as `t7`: `f2`, `f4`, `f7` in method order; the static
   * getters are skipped.
   */
  lemma TestClassMethods(layout: Layout, indent: int, t7: string)
    requires Dump(F7Value, layout, indent + 1) == Ok(t7)
    ensures ScanMethods(TestClass().methods, layout, indent, []) ==
              Found([Prop("f2", "\"" + "hogehoge" + "\""), Prop("f4", "true"), Prop("f7", t7)])
  {
    MethodsAfterF2(layout, indent);
    MethodsFromF4(layout, indent, [Prop("f2", "\"" + "hogehoge" + "\"")], t7);
    GetterTable("\"" + "hogehoge" + "\"", t7);
  }

  lemma MethodsAfterF2(layout: Layout, indent: int)
    ensures ScanMethods(TestClass().methods, layout, indent, []) ==
            ScanMethods([IsF4, GetX, IsY, GetF7, GetClass], layout, indent, [Prop("f2", "\"" + "hogehoge" + "\"")])
  {
    TestClassMethodList();
    ScanF2(layout, indent, [IsF4] + [GetX, IsY, GetF7, GetClass]);
  }

  lemma MethodsFromF4(layout: Layout, indent: int, acc: seq<Prop>, t7: string)
    requires Dump(F7Value, layout, indent + 1) == Ok(t7)
    ensures ScanMethods([IsF4, GetX, IsY, GetF7, GetClass], layout, indent, acc) ==
            Found(Put(Put(acc, "f4", "true"), "f7", t7))
  {
    var r4 := [GetX, IsY, GetF7, GetClass];
    assert [IsF4, GetX, IsY, GetF7, GetClass] == [IsF4] + r4;
    ScanF4(layout, indent, r4, acc);
    ScanF7(layout, indent, Put(acc, "f4", "true"), t7);
  }

  lemma TestClassMethodList()
    ensures TestClass().methods == [GetF2] + ([IsF4] + [GetX, IsY, GetF7, GetClass])
  {
  }

  lemma GetterTable(h: string, t7: string)
    ensures Put(Put([Prop("f2", h)], "f4", "true"), "f7", t7) == [Prop("f2", h), Prop("f4", "true"), Prop("f7", t7)]
  {
    var p2 := [Prop("f2", h)];
    var p4 := p2 + [Prop("f4", "true")];
    assert "f2"[1] == '2' && "f4"[1] == '4' && "f7"[1] == '7';
    NotHas(p2, "f4");
    PutNew(p2, "f4", "true");
    NotHas(p4, "f7");
    PutNew(p4, "f7", t7);
  }

  /** `put` of a name the table does not hold appends it. */
  lemma {:induction false} PutNew(ps: seq<Prop>, name: string, text: string)
    requires !Has(ps, name)
    ensures Put(ps, name, text) == ps + [Prop(name, text)]
  {
    if ps != [] {
      assert Names(ps) == [ps[0].name] + Names(ps[1..]);
      PutNew(ps[1..], name, text);
      assert ps == [ps[0]] + ps[1..];
    }
  }

  /** One field the scan reads, whose value renders. */
  lemma FieldRead(f: Field, rest: seq<Field>, layout: Layout, indent: int, acc: seq<Prop>, t: string)
    requires Readable(f) && !Has(acc, f.name)
    requires f.read.Some? && Dump(f.read.value, layout, indent + 1) == Ok(t)
    ensures ScanFields([f] + rest, layout, indent, acc) == ScanFields(rest, layout, indent, acc + [Prop(f.name, t)])
  {
    assert ([f] + rest)[1..] == rest;
    PutNew(acc, f.name, t);
  }

  lemma NotHas(ps: seq<Prop>, name: string)
    requires forall k :: 0 <= k < |ps| ==> ps[k].name != name
    ensures !Has(ps, name)
  {
  }

  lemma FieldsHead(layout: Layout, indent: int, acc: seq<Prop>)
    requires forall k :: 0 <= k < |acc| ==> acc[k].name != "f1" && acc[k].name != "f3"
    ensures ScanFields([F1, F3, F5, F6], layout, indent, acc) ==
            ScanFields([F5, F6], layout, indent, acc + [Prop("f1", "null"), Prop("f3", "false")])
  {
    var a1 := acc + [Prop("f1", "null")];
    NotHas(acc, "f1");
    FieldRead(F1, [F3, F5, F6], layout, indent, acc, "null");
    NotHas(a1, "f3");
    FieldRead(F3, [F5, F6], layout, indent, a1, "false");
    assert a1 + [Prop("f3", "false")] == acc + [Prop("f1", "null"), Prop("f3", "false")];
  }

  lemma FieldF5(layout: Layout, indent: int, acc: seq<Prop>, t5: string)
    requires !Has(acc, "f5") && Dump(F5Value, layout, indent + 1) == Ok(t5)
    ensures ScanFields([F5, F6], layout, indent, acc) == ScanFields([F6], layout, indent, acc + [Prop("f5", t5)])
  {
    FieldRead(F5, [F6], layout, indent, acc, t5);
  }

  lemma FieldF6(layout: Layout, indent: int, acc: seq<Prop>, t6: string)
    requires !Has(acc, "f6") && Dump(F6Value, layout, indent + 1) == Ok(t6)
    ensures ScanFields([F6], layout, indent, acc) == Some(acc + [Prop("f6", t6)])
  {
    FieldRead(F6, [], layout, indent, acc, t6);
  }

  lemma FieldsTail(layout: Layout, indent: int, acc: seq<Prop>, t5: string, t6: string)
    requires Dump(F5Value, layout, indent + 1) == Ok(t5) && Dump(F6Value, layout, indent + 1) == Ok(t6)
    requires forall k :: 0 <= k < |acc| ==> acc[k].name != "f5" && acc[k].name != "f6"
    ensures ScanFields([F5, F6], layout, indent, acc) ==
            Some(acc + [Prop("f5", t5), Prop("f6", t6)])
  {
    var a5 := acc + [Prop("f5", t5)];
    NotHas(acc, "f5");
    FieldF5(layout, indent, acc, t5);
    NotHas(a5, "f6");
    FieldF6(layout, indent, a5, t6);
    assert a5 + [Prop("f6", t6)] == acc + [Prop("f5", t5), Prop("f6", t6)];
  }

  /**
   * The field scan of a `TestClass`, in any layout where the arrays `f5`
   * and `f6` render as `t5` and `t6`: its public fields follow the getters.
   */
  lemma TestClassFields(layout: Layout, indent: int, t2: string, t4: string, t5: string, t6: string, t7: string)
    requires Dump(F5Value, layout, indent + 1) == Ok(t5) && Dump(F6Value, layout, indent + 1) == Ok(t6)
    ensures var acc := [Prop("f2", t2), Prop("f4", t4), Prop("f7", t7)];
            ScanFields(TestClass().fields, layout, indent, acc) ==
              Some(Discovered("null", t2, "false", t4, t5, t6, t7))
  {
    var a0 := [Prop("f2", t2), Prop("f4", t4), Prop("f7", t7)];
    var a3 := a0 + [Prop("f1", "null"), Prop("f3", "false")];
    assert TestClass().fields == [F1, F3, F5, F6];
    HeadNames(a0);
    FieldsHead(layout, indent, a0);
    TailNames(a3);
    FieldsTail(layout, indent, a3, t5, t6);
    DiscoveredIs(a0, t2, t4, t5, t6, t7);
  }

  lemma HeadNames(acc: seq<Prop>)
    requires |acc| == 3 && acc[0].name == "f2" && acc[1].name == "f4" && acc[2].name == "f7"
    ensures forall k :: 0 <= k < |acc| ==> acc[k].name != "f1" && acc[k].name != "f3"
  {
    assert "f2"[1] == '2' && "f4"[1] == '4' && "f7"[1] == '7';
  }

  lemma TailNames(acc: seq<Prop>)
    requires |acc| == 5 && acc[0].name == "f2" && acc[1].name == "f4" && acc[2].name == "f7"
    requires acc[3].name == "f1" && acc[4].name == "f3"
    ensures forall k :: 0 <= k < |acc| ==> acc[k].name != "f5" && acc[k].name != "f6"
  {
    assert "f2"[1] == '2' && "f4"[1] == '4' && "f7"[1] == '7' && "f1"[1] == '1' && "f3"[1] == '3';
  }

  lemma DiscoveredIs(a0: seq<Prop>, t2: string, t4: string, t5: string, t6: string, t7: string)
    requires a0 == [Prop("f2", t2), Prop("f4", t4), Prop("f7", t7)]
    ensures a0 + [Prop("f1", "null"), Prop("f3", "false")] + [Prop("f5", t5), Prop("f6", t6)] ==
            Discovered("null", t2, "false", t4, t5, t6, t7)
  {
  }

  /** The table of a `TestClass` in discovery order: getters first, then fields. */
  function Discovered(t1: string, t2: string, t3: string, t4: string, t5: string, t6: string, t7: string): seq<Prop>
  {
    [Prop("f2", t2), Prop("f4", t4), Prop("f7", t7), Prop("f1", t1), Prop("f3", t3), Prop("f5", t5), Prop("f6", t6)]
  }

  /** The same table in name order. */
  function ByName(t1: string, t2: string, t3: string, t4: string, t5: string, t6: string, t7: string): seq<Prop>
  {
    [Prop("f1", t1), Prop("f2", t2), Prop("f3", t3), Prop("f4", t4), Prop("f5", t5), Prop("f6", t6), Prop("f7", t7)]
  }

  /** Names `f` plus one digit compare as their digits. */
  lemma LessDigit(a: char, b: char)
    ensures Less(['f', a], ['f', b]) <==> a < b
  {
    assert ['f', a][1..] == [a];
    assert ['f', b][1..] == [b];
    assert Less(['f', a], ['f', b]) == Less([a], [b]);
    if a == b {
      assert [a][1..] == [];
      assert !Less([], []);
    }
  }

  /** The sort of the discovered table, one insertion at a time. */
  lemma SortDiscovered(t1: string, t2: string, t3: string, t4: string, t5: string, t6: string, t7: string)
    ensures SortByName(Discovered(t1, t2, t3, t4, t5, t6, t7)) == ByName(t1, t2, t3, t4, t5, t6, t7)
  {
    var p1, p2, p3, p4 := Prop("f1", t1), Prop("f2", t2), Prop("f3", t3), Prop("f4", t4);
    var p5, p6, p7 := Prop("f5", t5), Prop("f6", t6), Prop("f7", t7);
    var rest := [p4, p7, p1, p3, p5, p6];
    assert Discovered(t1, t2, t3, t4, t5, t6, t7) == [p2] + rest;
    SortCons(p2, rest);
    SortRest(p1, p3, p4, p5, p6, p7);
    var r3 := [p3, p4, p5, p6, p7];
    assert [p1, p3, p4, p5, p6, p7] == [p1] + r3;
    InsertF2(p1, p2, r3);
  }

  lemma SortRest(p1: Prop, p3: Prop, p4: Prop, p5: Prop, p6: Prop, p7: Prop)
    requires p1.name == "f1" && p3.name == "f3" && p4.name == "f4"
    requires p5.name == "f5" && p6.name == "f6" && p7.name == "f7"
    ensures SortByName([p4, p7, p1, p3, p5, p6]) == [p1, p3, p4, p5, p6, p7]
  {
    assert [p4, p7, p1, p3, p5, p6] == [p4] + [p7, p1, p3, p5, p6];
    SortF4(p1, p3, p4, p5, p6, p7);
    InsertF4Into(p1, p3, p4, p5, p6, p7);
  }

  lemma SortF4(p1: Prop, p3: Prop, p4: Prop, p5: Prop, p6: Prop, p7: Prop)
    requires p1.name == "f1" && p3.name == "f3" && p4.name == "f4"
    requires p5.name == "f5" && p6.name == "f6" && p7.name == "f7"
    ensures SortByName([p4] + [p7, p1, p3, p5, p6]) == Insert(p4, [p1, p3, p5, p6, p7])
  {
    SortCons(p4, [p7, p1, p3, p5, p6]);
    SortGettersLast(p1, p3, p5, p6, p7);
  }

  lemma InsertF4Into(p1: Prop, p3: Prop, p4: Prop, p5: Prop, p6: Prop, p7: Prop)
    requires p1.name == "f1" && p3.name == "f3" && p4.name == "f4" && p5.name == "f5"
    ensures Insert(p4, [p1, p3, p5, p6, p7]) == [p1, p3, p4, p5, p6, p7]
  {
    var r5 := [p5, p6, p7];
    assert [p1, p3, p5, p6, p7] == [p1, p3] + r5;
    InsertF4(p1, p3, p4, r5);
  }

  lemma SortGettersLast(p1: Prop, p3: Prop, p5: Prop, p6: Prop, p7: Prop)
    requires p1.name == "f1" && p3.name == "f3" && p5.name == "f5" && p6.name == "f6" && p7.name == "f7"
    ensures SortByName([p7, p1, p3, p5, p6]) == [p1, p3, p5, p6, p7]
  {
    var tail := [p1, p3, p5, p6];
    assert [p7, p1, p3, p5, p6] == [p7] + tail;
    SortCons(p7, tail);
    SortFields(p1, p3, p5, p6);
    InsertF7(p1, p3, p5, p6, p7);
  }

  lemma SortCons(p: Prop, ps: seq<Prop>)
    ensures SortByName([p] + ps) == Insert(p, SortByName(ps))
  {
    assert ([p] + ps)[1..] == ps;
  }

  /** Inserting past an entry whose name is smaller. */
  lemma InsertPast(p: Prop, x: Prop, ps: seq<Prop>)
    requires Less(x.name, p.name)
    ensures Insert(p, [x] + ps) == [x] + Insert(p, ps)
  {
    assert ([x] + ps)[1..] == ps;
  }

  /** Inserting in front of an entry whose name is not smaller. */
  lemma InsertBefore(p: Prop, ps: seq<Prop>)
    requires ps != [] && !Less(ps[0].name, p.name)
    ensures Insert(p, ps) == [p] + ps
  {
  }

  lemma SortFields(p1: Prop, p3: Prop, p5: Prop, p6: Prop)
    requires p1.name == "f1" && p3.name == "f3" && p5.name == "f5" && p6.name == "f6"
    ensures SortByName([p1, p3, p5, p6]) == [p1, p3, p5, p6]
  {
    LessDigit('6', '5');
    LessDigit('5', '3');
    LessDigit('3', '1');
    assert [p1, p3, p5, p6] == [p1] + ([p3] + ([p5] + [p6]));
    SortCons(p1, [p3] + ([p5] + [p6]));
    SortCons(p3, [p5] + [p6]);
    SortCons(p5, [p6]);
    SortCons(p6, []);
    InsertBefore(p5, [p6]);
    InsertBefore(p3, [p5, p6]);
    InsertBefore(p1, [p3, p5, p6]);
  }

  lemma InsertF7(p1: Prop, p3: Prop, p5: Prop, p6: Prop, p7: Prop)
    requires p1.name == "f1" && p3.name == "f3" && p5.name == "f5" && p6.name == "f6" && p7.name == "f7"
    ensures Insert(p7, [p1, p3, p5, p6]) == [p1, p3, p5, p6, p7]
  {
    LessDigit('1', '7');
    LessDigit('3', '7');
    LessDigit('5', '7');
    LessDigit('6', '7');
    InsertPast(p7, p1, [p3, p5, p6]);
    InsertPast(p7, p3, [p5, p6]);
    InsertPast(p7, p5, [p6]);
    InsertPast(p7, p6, []);
  }

  lemma InsertF4(p1: Prop, p3: Prop, p4: Prop, rest: seq<Prop>)
    requires p1.name == "f1" && p3.name == "f3" && p4.name == "f4"
    requires rest != [] && rest[0].name == "f5"
    ensures Insert(p4, [p1, p3] + rest) == [p1, p3, p4] + rest
  {
    LessDigit('1', '4');
    LessDigit('3', '4');
    LessDigit('5', '4');
    assert [p1, p3] + rest == [p1] + ([p3] + rest);
    InsertPast(p4, p1, [p3] + rest);
    InsertPast(p4, p3, rest);
    InsertBefore(p4, rest);
  }

  lemma InsertF2(p1: Prop, p2: Prop, rest: seq<Prop>)
    requires p1.name == "f1" && p2.name == "f2"
    requires rest != [] && rest[0].name == "f3"
    ensures Insert(p2, [p1] + rest) == [p1, p2] + rest
  {
    LessDigit('1', '2');
    LessDigit('3', '2');
    InsertPast(p2, p1, rest);
    InsertBefore(p2, rest);
  }

  /** In compact mode a member is its quoted name, a colon and its text. */
  lemma MemberCompact(p: Prop, layout: Layout)
    requires !layout.debug && '\\' !in p.name && '"' !in p.name
    ensures Member(p, layout) == "\"" + p.name + "\":" + p.text
  {
    QuotePlain(p.name);
  }

  /** An object whose scans complete: the block of its members in name order. */
  lemma ObjectBlock(v: Value, layout: Layout, indent: int, props: seq<Prop>, all: seq<Prop>)
    requires v.Obj?
    requires ScanMethods(v.methods, layout, indent, []) == Found(props)
    requires ScanFields(v.fields, layout, indent, props) == Some(all)
    ensures Dump(v, layout, indent) == Block("{", "}", Members(SortByName(all), layout), layout, indent)
  {
  }

  /**
   * A `TestClass` is the block of its seven members in name order, in any
   * layout where its three arrays render as `t5`, `t6` and `t7`.
   */
  lemma TestClassDump(layout: Layout, indent: int, t5: string, t6: string, t7: string)
    requires Dump(F5Value, layout, indent + 1) == Ok(t5) && Dump(F6Value, layout, indent + 1) == Ok(t6)
    requires Dump(F7Value, layout, indent + 1) == Ok(t7)
    ensures Dump(TestClass(), layout, indent) ==
              Block("{", "}", Members(ByName("null", "\"" + "hogehoge" + "\"", "false", "true", t5, t6, t7), layout), layout, indent)
  {
    var h := "\"" + "hogehoge" + "\"";
    var props := [Prop("f2", h), Prop("f4", "true"), Prop("f7", t7)];
    TestClassMethods(layout, indent, t7);
    TestClassFields(layout, indent, h, "true", t5, t6, t7);
    var all := Discovered("null", h, "false", "true", t5, t6, t7);
    SortDiscovered("null", h, "false", "true", t5, t6, t7);
    ObjectBlock(TestClass(), layout, indent, props, all);
  }

  lemma DigitMember(d: char, t: string)
    ensures "\"" + ['f', d] + "\":" + t == ['"', 'f', d, '"', ':'] + t
  {
  }

  /** A compact member named `f` and one digit. */
  lemma DigitMemberCompact(d: char, t: string, layout: Layout)
    requires !layout.debug && '0' <= d <= '9'
    ensures Member(Prop(['f', d], t), layout) == Named(d, t)
  {
    MemberCompact(Prop(['f', d], t), layout);
    DigitMember(d, t);
  }

  /** The members of a compact `TestClass`, as the unit test spells them. */
  const TestClassMembers := ["\"f1\":null", "\"f2\":\"hogehoge\"", "\"f3\":false", "\"f4\":true",
                             "\"f5\":[1,3,5,7]", "\"f6\":[\"a\",\"b\",\"c\",\"d\"]", "\"f7\":[\"x\",\"y\",\"z\"]"]

  /** Seven compact members in name order. */
  function MemberTexts(t1: string, t2: string, t3: string, t4: string, t5: string, t6: string, t7: string): seq<string>
  {
    [Named('1', t1), Named('2', t2), Named('3', t3), Named('4', t4), Named('5', t5), Named('6', t6), Named('7', t7)]
  }

  /** The compact member of `f` and a digit. */
  function Named(d: char, t: string): string
  {
    ['"', 'f', d, '"', ':'] + t
  }

  lemma MembersAppend(a: seq<Prop>, b: seq<Prop>, layout: Layout)
    ensures Members(a + b, layout) == Members(a, layout) + Members(b, layout)
  {
  }

  lemma MembersOne(d: char, t: string, layout: Layout)
    requires !layout.debug && '0' <= d <= '9'
    ensures Members([Prop(['f', d], t)], layout) == [Named(d, t)]
  {
    DigitMemberCompact(d, t, layout);
  }

  lemma MembersFour(layout: Layout, t1: string, t2: string, t3: string, t4: string)
    requires !layout.debug
    ensures Members([Prop("f1", t1), Prop("f2", t2), Prop("f3", t3), Prop("f4", t4)], layout) ==
            [Named('1', t1), Named('2', t2), Named('3', t3), Named('4', t4)]
  {
    var p1, p2, p3, p4 := [Prop("f1", t1)], [Prop("f2", t2)], [Prop("f3", t3)], [Prop("f4", t4)];
    assert [Prop("f1", t1), Prop("f2", t2), Prop("f3", t3), Prop("f4", t4)] == p1 + p2 + p3 + p4;
    MembersAppend(p1 + p2 + p3, p4, layout);
    MembersAppend(p1 + p2, p3, layout);
    MembersAppend(p1, p2, layout);
    MembersOne('1', t1, layout);
    MembersOne('2', t2, layout);
    MembersOne('3', t3, layout);
    MembersOne('4', t4, layout);
  }

  lemma MembersThree(layout: Layout, t5: string, t6: string, t7: string)
    requires !layout.debug
    ensures Members([Prop("f5", t5), Prop("f6", t6), Prop("f7", t7)], layout) ==
            [Named('5', t5), Named('6', t6), Named('7', t7)]
  {
    var p5, p6, p7 := [Prop("f5", t5)], [Prop("f6", t6)], [Prop("f7", t7)];
    assert [Prop("f5", t5), Prop("f6", t6), Prop("f7", t7)] == p5 + p6 + p7;
    MembersAppend(p5 + p6, p7, layout);
    MembersAppend(p5, p6, layout);
    MembersOne('5', t5, layout);
    MembersOne('6', t6, layout);
    MembersOne('7', t7, layout);
  }

  lemma ByNameMembers(layout: Layout, t1: string, t2: string, t3: string, t4: string, t5: string, t6: string, t7: string)
    requires !layout.debug
    ensures Members(ByName(t1, t2, t3, t4, t5, t6, t7), layout) == MemberTexts(t1, t2, t3, t4, t5, t6, t7)
  {
    var front := [Prop("f1", t1), Prop("f2", t2), Prop("f3", t3), Prop("f4", t4)];
    var back := [Prop("f5", t5), Prop("f6", t6), Prop("f7", t7)];
    assert ByName(t1, t2, t3, t4, t5, t6, t7) == front + back;
    MembersAppend(front, back, layout);
    MembersFour(layout, t1, t2, t3, t4);
    MembersThree(layout, t5, t6, t7);
  }

  lemma FrontMemberTexts()
    ensures [Named('1', "null"), Named('2', "\"" + "hogehoge" + "\""), Named('3', "false"), Named('4', "true")] ==
            TestClassMembers[..4]
  {
    var m := [Named('1', "null"), Named('2', "\"" + "hogehoge" + "\""), Named('3', "false"), Named('4', "true")];
    forall k | 0 <= k < 4 ensures m[k] == TestClassMembers[k] {
    }
  }

  lemma F5Member()
    ensures Named('5', F5Text) == TestClassMembers[4]
  {
  }

  lemma F6Member()
    ensures Named('6', F6Text) == TestClassMembers[5]
  {
  }

  lemma F7Member()
    ensures Named('7', F7Text) == TestClassMembers[6]
  {
  }

  lemma BackMemberTexts()
    ensures [Named('5', F5Text), Named('6', F6Text), Named('7', F7Text)] == TestClassMembers[4..]
  {
    F5Member();
    F6Member();
    F7Member();
  }

  lemma TestClassMemberTexts()
    ensures MemberTexts("null", "\"" + "hogehoge" + "\"", "false", "true", F5Text, F6Text, F7Text) == TestClassMembers
  {
    FrontMemberTexts();
    BackMemberTexts();
    assert TestClassMembers == TestClassMembers[..4] + TestClassMembers[4..];
  }

  lemma TestClassMembersAre(layout: Layout)
    requires !layout.debug
    ensures Members(ByName("null", "\"" + "hogehoge" + "\"", "false", "true", F5Text, F6Text, F7Text), layout) == TestClassMembers
  {
    ByNameMembers(layout, "null", "\"" + "hogehoge" + "\"", "false", "true", F5Text, F6Text, F7Text);
    TestClassMemberTexts();
  }

  /** The compact text of one `TestClass`: its members as the unit test spells them. */
  const TestClassText := "{" + Join(TestClassMembers, ",") + "}"

  /** A `TestClass` dumps compactly to the text the unit test expects, at any depth. */
  lemma TestClassCompact(layout: Layout, indent: int)
    requires !layout.debug
    ensures Dump(TestClass(), layout, indent) == Ok(TestClassText)
  {
    F5Compact(layout, indent + 1);
    F6Compact(layout, indent + 1);
    F7Compact(layout, indent + 1);
    TestClassDump(layout, indent, F5Text, F6Text, F7Text);
    TestClassMembersAre(layout);
  }

  /** `Hoge` of the unit test: two public `TestClass` fields and only the methods of `Object`. */
  function Hoge(): Value
  {
    HogeOf(TestClass())
  }

  /** A `Hoge` whose two fields hold `x`. */
  function HogeOf(x: Value): Value
  {
    Obj("LoggerUtilTest$Hoge@2", [GetClass], [Field("tc1", true, false, Some(x)), Field("tc2", true, false, Some(x))])
  }

  /** The field scan of a `Hoge`: both fields, in declaration order. */
  lemma HogeFields(x: Value, layout: Layout, indent: int, t: string)
    requires Dump(x, layout, indent + 1) == Ok(t)
    ensures ScanFields(HogeOf(x).fields, layout, indent, []) == Some([Prop("tc1", t), Prop("tc2", t)])
  {
    var t1 := Field("tc1", true, false, Some(x));
    var t2 := Field("tc2", true, false, Some(x));
    var a1 := [Prop("tc1", t)];
    assert HogeOf(x).fields == [t1] + [t2];
    NotHas([], "tc1");
    FieldRead(t1, [t2], layout, indent, [], t);
    NotHas(a1, "tc2");
    FieldRead(t2, [], layout, indent, a1, t);
    assert [] + a1 == a1;
    assert a1 + [Prop("tc2", t)] == [Prop("tc1", t), Prop("tc2", t)];
  }

  /** `tc1` sorts before `tc2`. */
  lemma SortTc(t: string, u: string)
    ensures SortByName([Prop("tc1", t), Prop("tc2", u)]) == [Prop("tc1", t), Prop("tc2", u)]
  {
    var all := [Prop("tc1", t), Prop("tc2", u)];
    assert all == [all[0]] + [all[1]];
    SortCons(all[0], [all[1]]);
    SortCons(all[1], []);
    assert Less("tc1", "tc2") by {
      assert "tc1"[1..] == "c1" && "tc2"[1..] == "c2";
      LessDigit('1', '2');
      assert "c1" == ['c', '1'] && "c2" == ['c', '2'];
      assert Less(['c', '1'], ['c', '2']) by {
        assert ['c', '1'][1..] == ['1'] && ['c', '2'][1..] == ['2'];
        assert ['1'][1..] == [];
      }
    }
    InsertBefore(all[0], [all[1]]);
  }

  lemma TcMembers(t: string, u: string, layout: Layout)
    requires !layout.debug
    ensures Members([Prop("tc1", t), Prop("tc2", u)], layout) == ["\"tc1\":" + t, "\"tc2\":" + u]
  {
    MembersOneNamed("tc1", t, layout);
    MembersOneNamed("tc2", u, layout);
    assert "\"" + "tc1" + "\":" == "\"tc1\":" && "\"" + "tc2" + "\":" == "\"tc2\":";
    MembersAppend([Prop("tc1", t)], [Prop("tc2", u)], layout);
    assert [Prop("tc1", t)] + [Prop("tc2", u)] == [Prop("tc1", t), Prop("tc2", u)];
    assert "\"" + "tc1" + "\":" + t == "\"tc1\":" + t;
    assert "\"" + "tc2" + "\":" + u == "\"tc2\":" + u;
  }

  /** A compact `Hoge` is its two field members. */
  lemma HogeDump(x: Value, layout: Layout, indent: int, t: string)
    requires !layout.debug
    requires Dump(x, layout, indent + 1) == Ok(t)
    ensures Dump(HogeOf(x), layout, indent) == Ok("{" + Join(["\"tc1\":" + t, "\"tc2\":" + t], ",") + "}")
  {
    var all := [Prop("tc1", t), Prop("tc2", t)];
    ScanSkip(GetClass, [], layout, indent, []);
    HogeFields(x, layout, indent, t);
    ObjectBlock(HogeOf(x), layout, indent, [], all);
    SortTc(t, t);
    TcMembers(t, t, layout);
  }

  /** `dump(new Hoge(), false)` (lines 49-51 of the unit test). */
  lemma HogeCompact()
    ensures DumpWith(Hoge(), false, "") ==
              Ok("{" + Join(["\"tc1\":" + TestClassText, "\"tc2\":" + TestClassText], ",") + "}")
  {
    TestClassCompact(Layout("\t", "", false), 2);
    HogeDump(TestClass(), Layout("\t", "", false), 1, TestClassText);
  }

  /** Two equal compact elements in an array or list. */
  lemma TwiceCompact(x: Value, layout: Layout, indent: int, t: string)
    requires !layout.debug
    requires Dump(x, layout, indent + 1) == Ok(t)
    ensures Dump(Seq([x, x]), layout, indent) == Ok("[" + Join([t, t], ",") + "]")
  {
    SeqCompact([x, x], layout, indent, [t, t]);
  }

  /**
   * `dump(new TestClass[] {...}, false)` and `dump(Arrays.asList(...), false)`
   * (lines 57-61 and 67-69 of the unit test): an array and a list render alike.
   */
  lemma TwoTestClassesCompact()
    ensures DumpWith(Seq([TestClass(), TestClass()]), false, "") ==
              Ok("[" + Join([TestClassText, TestClassText], ",") + "]")
  {
    TestClassCompact(Layout("\t", "", false), 2);
    TwiceCompact(TestClass(), Layout("\t", "", false), 1, TestClassText);
  }

  /** The compact `KV` pair of a key and a value that render. */
  lemma PairCompact(key: Value, value: Value, layout: Layout, indent: int, k: string, x: string)
    requires !layout.debug
    requires Dump(key, layout, indent + 1) == Ok(k) && Dump(value, layout, indent + 1) == Ok(x)
    ensures Dump(KV(key, value), layout, indent) == Ok("{" + Join(["\"key\":" + k, "\"value\":" + x], ",") + "}")
  {
    KVDump(key, value, layout, indent);
    PairBlockCompact(k, x, layout, indent);
  }

  lemma PairBlockCompact(k: string, x: string, layout: Layout, indent: int)
    requires !layout.debug
    ensures PairBlock(k, x, layout, indent) == "{" + Join(["\"key\":" + k, "\"value\":" + x], ",") + "}"
  {
    MembersOneNamed("key", k, layout);
    MembersOneNamed("value", x, layout);
    MembersAppend([Prop("key", k)], [Prop("value", x)], layout);
    assert [Prop("key", k)] + [Prop("value", x)] == [Prop("key", k), Prop("value", x)];
    assert "\"" + "key" + "\":" + k == "\"key\":" + k;
    assert "\"" + "value" + "\":" + x == "\"value\":" + x;
  }

  /** A map of two entries whose keys and values render, in `entrySet` order. */
  lemma TwoEntriesCompact(a: Entry, b: Entry, layout: Layout, indent: int, ka: string, xa: string, kb: string, xb: string)
    requires !layout.debug
    requires Dump(a.key, layout, indent + 3) == Ok(ka) && Dump(a.value, layout, indent + 3) == Ok(xa)
    requires Dump(b.key, layout, indent + 3) == Ok(kb) && Dump(b.value, layout, indent + 3) == Ok(xb)
    ensures Dump(MapV([a, b]), layout, indent) ==
              Ok("[" + Join(["{" + Join(["\"key\":" + ka, "\"value\":" + xa], ",") + "}",
                             "{" + Join(["\"key\":" + kb, "\"value\":" + xb], ",") + "}"], ",") + "]")
  {
    MapAsKVList([a, b], layout, indent);
    PairCompact(a.key, a.value, layout, indent + 2, ka, xa);
    PairCompact(b.key, b.value, layout, indent + 2, kb, xb);
    var kvs := KVList([a, b]);
    assert kvs == [KV(a.key, a.value), KV(b.key, b.value)];
    SeqCompact(kvs, layout, indent + 1,
               ["{" + Join(["\"key\":" + ka, "\"value\":" + xa], ",") + "}",
                "{" + Join(["\"key\":" + kb, "\"value\":" + xb], ",") + "}"]);
  }

  /** A map from the string `b` and then the string `a` to `x`, dumped compactly at depth 1. */
  lemma PlainKeysCompact(b: string, a: string, x: Value, t: string)
    requires '\\' !in b && '"' !in b && '\\' !in a && '"' !in a
    requires Dump(x, Layout("\t", "", false), 4) == Ok(t)
    ensures DumpWith(MapV([Entry(Str(b), x), Entry(Str(a), x)]), false, "") ==
              Ok("[" + Join(["{" + Join(["\"key\":" + ("\"" + b + "\""), "\"value\":" + t], ",") + "}",
                             "{" + Join(["\"key\":" + ("\"" + a + "\""), "\"value\":" + t], ",") + "}"], ",") + "]")
  {
    var layout := Layout("\t", "", false);
    StrCompact(a, layout, 4);
    StrCompact(b, layout, 4);
    TwoEntriesCompact(Entry(Str(b), x), Entry(Str(a), x), layout, 1,
                      "\"" + b + "\"", t, "\"" + a + "\"", t);
  }

  /**
   * `dump(m, false)` for the map of the unit test (lines 76-81), whose
   * `entrySet` yields `b` before `a`.
   */
  lemma TestMapCompact()
    ensures DumpWith(MapV([Entry(Str("b"), TestClass()), Entry(Str("a"), TestClass())]), false, "") ==
              Ok("[" + Join(["{" + Join(["\"key\":" + ("\"" + "b" + "\""), "\"value\":" + TestClassText], ",") + "}",
                             "{" + Join(["\"key\":" + ("\"" + "a" + "\""), "\"value\":" + TestClassText], ",") + "}"], ",") + "]")
  {
    TestClassCompact(Layout("\t", "", false), 4);
    PlainKeysCompact("b", "a", TestClass(), TestClassText);
  }

  lemma F5Items(layout: Layout)
    ensures DumpAll([Scalar("1"), Scalar("3"), Scalar("5"), Scalar("7")], layout, 4) == Some(["1", "3", "5", "7"])
  {
    var es := [Scalar("1"), Scalar("3"), Scalar("5"), Scalar("7")];
    var items := ["1", "3", "5", "7"];
    var r := DumpAll(es, layout, 4);
    assert forall k :: 0 <= k < 4 ==> Dump(es[k], layout, 4) == Ok(items[k]);
    assert r.Some? && forall k :: 0 <= k < 4 ==> r.value[k] == items[k];
    assert r.value == items;
  }

  /** A compact member whose name needs no escaping. */
  lemma MembersOneNamed(name: string, t: string, layout: Layout)
    requires !layout.debug && '\\' !in name && '"' !in name
    ensures Members([Prop(name, t)], layout) == ["\"" + name + "\":" + t]
  {
    MemberCompact(Prop(name, t), layout);
  }
}
