/**
 * Debug mode only adds layout: removing the indentation, the line breaks
 * and the space after each colon from `dump(o, true)` gives `dump(o, false)`,
 * and one throws exactly when the other does. This holds when the dumped
 * texts themselves (scalars, `toString` texts, method and field names)
 * contain none of the layout characters.
 */
module Debug {
  import opened Wrappers
  import opened Text
  import opened Props
  import opened Getter
  import opened LoggerUtil

  /** No character of `s` is one of `w`. */
  predicate NoLayout(s: string, w: set<char>)
  {
    forall c :: c in s ==> c !in w
  }

  /**
   * `w` holds every character a debug layout adds (the indent unit's, the
   * line separator's, the space after a colon) and none that compact output
   * writes by itself: no lower-case letter (lower-cased property names,
   * `null`, `key`, `value`) and no punctuation of the format.
   */
  predicate LayoutSet(d: Layout, w: set<char>)
  {
    && d.debug
    && (forall c :: c in d.indentStr ==> c in w)
    && (forall c :: c in d.eol ==> c in w)
    && ' ' in w
    && (forall c :: c in w ==> !('a' <= c <= 'z'))
    && NoLayout("[]{},:\"\\", w)
  }

  /** The texts inside `v` hold no character of `w`. */
  ghost predicate Clean(v: Value, w: set<char>)
    decreases v, 1
  {
    match v
    case Null => true
    case Scalar(t) => NoLayout(t, w)
    case Seq(es) => CleanAll(es, w)
    case MapV(es) => CleanEntries(es, w)
    case Obj(_, _, _) => CleanObject(v, w)
  }

  ghost predicate CleanObject(v: Value, w: set<char>)
    requires v.Obj?
    decreases v, 0
  {
    NoLayout(v.asString, w) && CleanMethods(v.methods, w) && CleanFields(v.fields, w)
  }

  ghost predicate CleanAll(es: seq<Value>, w: set<char>)
    decreases es
  {
    es == [] || (Clean(es[0], w) && CleanAll(es[1..], w))
  }

  ghost predicate CleanEntries(es: seq<Entry>, w: set<char>)
    decreases es
  {
    es == [] || (CleanEntry(es[0], w) && CleanEntries(es[1..], w))
  }

  ghost predicate CleanEntry(e: Entry, w: set<char>)
    decreases e
  {
    Clean(e.key, w) && Clean(e.value, w)
  }

  ghost predicate CleanMethods(ms: seq<Method>, w: set<char>)
    decreases ms
  {
    if ms == [] then true
    else
      var m := ms[0];
      && NoLayout(m.name, w)
      && (match m.result case None => true case Some(x) => Clean(x, w))
      && CleanMethods(ms[1..], w)
  }

  ghost predicate CleanFields(fs: seq<Field>, w: set<char>)
    decreases fs
  {
    if fs == [] then true
    else
      var f := fs[0];
      && NoLayout(f.name, w)
      && (match f.read case None => true case Some(x) => Clean(x, w))
      && CleanFields(fs[1..], w)
  }

  /** A dump's outcome with the layout characters removed from its text. */
  function StripOutcome(o: Outcome, w: set<char>): Outcome
  {
    if o.Ok? then Ok(Strip(o.text, w)) else OutOfBounds
  }

  /** Two property tables with the same names, in the same order, whose texts agree once stripped. */
  ghost predicate Alike(p: seq<Prop>, q: seq<Prop>, w: set<char>)
  {
    |p| == |q| && forall k :: 0 <= k < |p| ==> PropAlike(p[k], q[k], w)
  }

  /** The same name, free of layout, and texts that agree once stripped. */
  ghost predicate PropAlike(a: Prop, b: Prop, w: set<char>)
  {
    a.name == b.name && NoLayout(a.name, w) && Strip(a.text, w) == b.text
  }

  /** Two method scans that end the same way, with alike tables when they run through. */
  ghost predicate ScansAlike(s: Scan, t: Scan, w: set<char>)
  {
    || (s.Found? && t.Found? && Alike(s.props, t.props, w))
    || (s.ToString? && t.ToString?)
    || (s.Thrown? && t.Thrown?)
  }

  /** Two field scans that both throw, or both complete with alike tables. */
  ghost predicate TablesAlike(s: Option<seq<Prop>>, t: Option<seq<Prop>>, w: set<char>)
  {
    (s.None? && t.None?) || (s.Some? && t.Some? && Alike(s.value, t.value, w))
  }

  // ---------------------------------------------------------------------
  // Tables
  // ---------------------------------------------------------------------

  lemma {:induction false} AlikeNames(p: seq<Prop>, q: seq<Prop>, w: set<char>)
    requires Alike(p, q, w)
    ensures Names(p) == Names(q)
  {
  }

  lemma {:induction false} PutAlike(p: seq<Prop>, q: seq<Prop>, name: string, s: string, t: string, w: set<char>)
    requires Alike(p, q, w) && NoLayout(name, w) && Strip(s, w) == t
    ensures Alike(Put(p, name, s), Put(q, name, t), w)
    decreases |p|
  {
    if p != [] && p[0].name != name {
      PutAlike(p[1..], q[1..], name, s, t, w);
      var r := Put(p, name, s);
      var u := Put(q, name, t);
      assert r == [p[0]] + Put(p[1..], name, s);
      assert u == [q[0]] + Put(q[1..], name, t);
      forall k | 0 < k < |r| ensures PropAlike(r[k], u[k], w) {
        assert r[k] == Put(p[1..], name, s)[k - 1];
      }
    }
  }

  lemma {:induction false} InsertAlike(x: Prop, y: Prop, p: seq<Prop>, q: seq<Prop>, w: set<char>)
    requires PropAlike(x, y, w) && Alike(p, q, w)
    ensures Alike(Insert(x, p), Insert(y, q), w)
    decreases |p|
  {
    if p == [] {
      ConsAlike(x, y, [], [], w);
    } else {
      assert PropAlike(p[0], q[0], w);
      if Less(p[0].name, x.name) {
        InsertAlike(x, y, p[1..], q[1..], w);
        ConsAlike(p[0], q[0], Insert(x, p[1..]), Insert(y, q[1..]), w);
      } else {
        InsertFront(x, p);
        InsertFront(y, q);
        ConsAlike(x, y, p, q, w);
      }
    }
  }

  lemma InsertFront(x: Prop, p: seq<Prop>)
    requires p != [] && !Less(p[0].name, x.name)
    ensures Insert(x, p) == [x] + p
  {
  }

  lemma ConsAlike(x: Prop, y: Prop, p: seq<Prop>, q: seq<Prop>, w: set<char>)
    requires PropAlike(x, y, w) && Alike(p, q, w)
    ensures Alike([x] + p, [y] + q, w)
  {
    var r := [x] + p;
    var u := [y] + q;
    forall k | 0 <= k < |r| ensures PropAlike(r[k], u[k], w) {
      if k > 0 {
        assert r[k] == p[k - 1] && u[k] == q[k - 1];
      }
    }
  }

  /** Sorting compares names only, so alike tables sort alike. */
  lemma {:induction false} SortAlike(p: seq<Prop>, q: seq<Prop>, w: set<char>)
    requires Alike(p, q, w)
    ensures Alike(SortByName(p), SortByName(q), w)
    decreases |p|
  {
    if p != [] {
      SortAlike(p[1..], q[1..], w);
      assert PropAlike(p[0], q[0], w);
      InsertAlike(p[0], q[0], SortByName(p[1..]), SortByName(q[1..]), w);
    }
  }

  // ---------------------------------------------------------------------
  // Blocks and members
  // ---------------------------------------------------------------------

  lemma PunctuationKept(w: set<char>)
    requires NoLayout("[]{},:\"\\", w)
    ensures '[' !in w && ']' !in w && '{' !in w && '}' !in w
    ensures ',' !in w && ':' !in w && '"' !in w && '\\' !in w
  {
    var punct := "[]{},:\"\\";
    assert punct[0] == '[' && punct[1] == ']' && punct[2] == '{' && punct[3] == '}';
    assert punct[4] == ',' && punct[5] == ':' && punct[6] == '"' && punct[7] == '\\';
  }

  /** A quoted text whose characters are kept stays as it is. */
  lemma QuotedKept(s: string, w: set<char>)
    requires NoLayout(s, w) && '"' !in w && '\\' !in w
    ensures NoLayout("\"" + Quote(s) + "\"", w)
    ensures Strip("\"" + Quote(s) + "\"", w) == "\"" + Quote(s) + "\""
  {
    forall c | c in "\"" + Quote(s) + "\"" ensures c !in w {
      if c in Quote(s) {
        QuoteChars(s, c);
      }
    }
    StripKeeps("\"" + Quote(s) + "\"", w);
  }

  /** A debug member strips to the compact member of the alike property. */
  lemma MemberStrip(p: Prop, q: Prop, d: Layout, c: Layout, w: set<char>)
    requires LayoutSet(d, w) && !c.debug
    requires p.name == q.name && NoLayout(p.name, w) && Strip(p.text, w) == q.text
    ensures Strip(Member(p, d), w) == Member(q, c)
  {
    var head := "\"" + Quote(p.name) + "\":";
    MemberHeadKept(p.name, w);
    MemberForms(p, q, d, c);
    StripAppend(head + " ", p.text, w);
    HeadSpaceStrip(head, w);
  }

  /** A debug member has a space after its colon, a compact one none. */
  lemma MemberForms(p: Prop, q: Prop, d: Layout, c: Layout)
    requires d.debug && !c.debug && p.name == q.name
    ensures Member(p, d) == "\"" + Quote(p.name) + "\":" + " " + p.text
    ensures Member(q, c) == "\"" + Quote(p.name) + "\":" + q.text
  {
  }

  lemma HeadSpaceStrip(head: string, w: set<char>)
    requires ' ' in w && Strip(head, w) == head
    ensures Strip(head + " ", w) == head
  {
    StripAppend(head, " ", w);
    StripAllLayout(" ", w);
  }

  /** The quoted name and the colon of a member carry no layout characters. */
  lemma MemberHeadKept(name: string, w: set<char>)
    requires NoLayout(name, w) && NoLayout("[]{},:\"\\", w)
    ensures Strip("\"" + Quote(name) + "\":", w) == "\"" + Quote(name) + "\":"
  {
    PunctuationKept(w);
    var head := "\"" + Quote(name) + "\":";
    forall ch | ch in head ensures ch !in w {
      if ch in Quote(name) {
        QuoteChars(name, ch);
      } else {
        assert ch in "\"" || ch in "\":";
      }
    }
    StripKeeps(head, w);
  }

  lemma MembersStrip(p: seq<Prop>, q: seq<Prop>, d: Layout, c: Layout, w: set<char>)
    requires LayoutSet(d, w) && !c.debug && Alike(p, q, w)
    ensures StripAll(Members(p, d), w) == Members(q, c)
  {
    forall k | 0 <= k < |p| ensures Strip(Members(p, d)[k], w) == Members(q, c)[k] {
      MemberStrip(p[k], q[k], d, c, w);
    }
  }

  /**
   * A debug block strips to the compact block of the stripped items: the
   * line breaks, the indentation and the line break in the delimiter go.
   */
  lemma BlockStrip(open: string, close: string, xs: seq<string>, ys: seq<string>,
                   d: Layout, i: int, c: Layout, j: int, w: set<char>)
    requires LayoutSet(d, w) && !c.debug
    requires NoLayout(open, w) && NoLayout(close, w)
    requires StripAll(xs, w) == ys
    ensures StripOutcome(Block(open, close, xs, d, i), w) == Block(open, close, ys, c, j)
  {
    if xs != [] {
      var opening := open + d.eol;
      var closing := d.eol + Repeat(d.indentStr, i - 1) + close;
      var body := Join(Prefixed(xs, Repeat(d.indentStr, i)), "," + d.eol);
      assert Block(open, close, xs, d, i) == Ok(opening + body + closing);
      assert Block(open, close, ys, c, j) == Ok(open + Join(ys, ",") + close);
      StripAppend(opening + body, closing, w);
      StripAppend(opening, body, w);
      OpeningStrip(open, d, w);
      ClosingStrip(close, d, i, w);
      BodyStrip(xs, ys, d, i, w);
    }
  }

  lemma OpeningStrip(open: string, d: Layout, w: set<char>)
    requires LayoutSet(d, w) && NoLayout(open, w)
    ensures Strip(open + d.eol, w) == open
  {
    StripAppend(open, d.eol, w);
    StripKeeps(open, w);
    StripAllLayout(d.eol, w);
  }

  lemma ClosingStrip(close: string, d: Layout, i: int, w: set<char>)
    requires LayoutSet(d, w) && NoLayout(close, w)
    ensures Strip(d.eol + Repeat(d.indentStr, i - 1) + close, w) == close
  {
    StripAppend(d.eol + Repeat(d.indentStr, i - 1), close, w);
    StripAppend(d.eol, Repeat(d.indentStr, i - 1), w);
    StripAllLayout(d.eol, w);
    StripRepeat(d.indentStr, i - 1, w);
    StripKeeps(close, w);
  }

  /** The indented children joined by a comma and a line break strip to the stripped children joined by a comma. */
  lemma BodyStrip(xs: seq<string>, ys: seq<string>, d: Layout, i: int, w: set<char>)
    requires LayoutSet(d, w) && xs != [] && StripAll(xs, w) == ys
    ensures Strip(Join(Prefixed(xs, Repeat(d.indentStr, i)), "," + d.eol), w) == Join(ys, ",")
  {
    PunctuationKept(w);
    var prefix := Repeat(d.indentStr, i);
    var lines := Prefixed(xs, prefix);
    StripJoin(lines, "," + d.eol, w);
    StripAppend(",", d.eol, w);
    StripKeeps(",", w);
    StripAllLayout(d.eol, w);
    StripRepeat(d.indentStr, i, w);
    forall k | 0 <= k < |xs| ensures StripAll(lines, w)[k] == ys[k] {
      StripAppend(prefix, xs[k], w);
    }
    assert StripAll(lines, w) == ys;
  }

  // ---------------------------------------------------------------------
  // The dump
  // ---------------------------------------------------------------------

  /**
   * The debug dump of a clean value, stripped of layout, is its compact
   * dump, at any depths; and the one throws exactly when the other does.
   */
  lemma {:induction false} DebugDump(v: Value, d: Layout, i: int, c: Layout, j: int, w: set<char>)
    requires LayoutSet(d, w) && !c.debug && Clean(v, w)
    ensures StripOutcome(Dump(v, d, i), w) == Dump(v, c, j)
    decreases v, 1
  {
    match v
    case Null =>
      assert forall ch :: ch in "null" ==> 'a' <= ch <= 'z';
      StripKeeps("null", w);
    case Scalar(t) =>
      StripKeeps(t, w);
    case Seq(es) =>
      DebugAll(es, d, i + 1, c, j + 1, w);
      var r := DumpAll(es, d, i + 1);
      if r.Some? {
        PunctuationKept(w);
        BlockStrip("[", "]", r.value, StripAll(r.value, w), d, i, c, j, w);
      }
    case MapV(es) =>
      DebugEntries(es, d, i + 2, c, j + 2, w);
      var r := DumpEntries(es, d, i + 2);
      if r.Some? {
        PunctuationKept(w);
        BlockStrip("[", "]", r.value, StripAll(r.value, w), d, i + 1, c, j + 1, w);
      }
    case Obj(_, _, _) =>
      DebugObject(v, d, i, c, j, w);
  }

  lemma {:induction false} DebugObject(v: Value, d: Layout, i: int, c: Layout, j: int, w: set<char>)
    requires LayoutSet(d, w) && !c.debug && v.Obj? && CleanObject(v, w)
    ensures StripOutcome(DumpObject(v, d, i), w) == DumpObject(v, c, j)
    decreases v, 0
  {
    PunctuationKept(w);
    DebugMethods(v.methods, d, i, c, j, [], [], w);
    var s := ScanMethods(v.methods, d, i, []);
    var t := ScanMethods(v.methods, c, j, []);
    if s.ToString? {
      QuotedKept(v.asString, w);
    } else if s.Found? {
      DebugFields(v.fields, d, i, c, j, s.props, t.props, w);
      var f := ScanFields(v.fields, d, i, s.props);
      var g := ScanFields(v.fields, c, j, t.props);
      if f.Some? {
        SortAlike(f.value, g.value, w);
        MembersStrip(SortByName(f.value), SortByName(g.value), d, c, w);
        BlockStrip("{", "}", Members(SortByName(f.value), d), Members(SortByName(g.value), c), d, i, c, j, w);
      }
    }
  }

  lemma {:induction false} DebugAll(es: seq<Value>, d: Layout, i: int, c: Layout, j: int, w: set<char>)
    requires LayoutSet(d, w) && !c.debug && CleanAll(es, w)
    ensures var r := DumpAll(es, d, i);
            DumpAll(es, c, j) == if r.Some? then Some(StripAll(r.value, w)) else None
    decreases es
  {
    if es != [] {
      DebugDump(es[0], d, i, c, j, w);
      DebugAll(es[1..], d, i, c, j, w);
      var r := DumpAll(es, d, i);
      if r.Some? {
        assert r.value == [Dump(es[0], d, i).text] + DumpAll(es[1..], d, i).value;
        assert StripAll(r.value, w) == [Strip(Dump(es[0], d, i).text, w)] + StripAll(DumpAll(es[1..], d, i).value, w);
      }
    }
  }

  lemma {:induction false} DebugEntries(es: seq<Entry>, d: Layout, i: int, c: Layout, j: int, w: set<char>)
    requires LayoutSet(d, w) && !c.debug && CleanEntries(es, w)
    ensures var r := DumpEntries(es, d, i);
            DumpEntries(es, c, j) == if r.Some? then Some(StripAll(r.value, w)) else None
    decreases es
  {
    if es != [] {
      DebugEntry(es[0], d, i, c, j, w);
      DebugEntries(es[1..], d, i, c, j, w);
      var r := DumpEntries(es, d, i);
      if r.Some? {
        assert r.value == [DumpEntry(es[0], d, i).value] + DumpEntries(es[1..], d, i).value;
        assert StripAll(r.value, w) ==
               [Strip(DumpEntry(es[0], d, i).value, w)] + StripAll(DumpEntries(es[1..], d, i).value, w);
      }
    }
  }

  lemma {:induction false} DebugEntry(e: Entry, d: Layout, i: int, c: Layout, j: int, w: set<char>)
    requires LayoutSet(d, w) && !c.debug && CleanEntry(e, w)
    ensures var r := DumpEntry(e, d, i);
            DumpEntry(e, c, j) == if r.Some? then Some(Strip(r.value, w)) else None
    decreases e
  {
    DebugDump(e.key, d, i + 1, c, j + 1, w);
    DebugDump(e.value, d, i + 1, c, j + 1, w);
    var k := Dump(e.key, d, i + 1);
    var x := Dump(e.value, d, i + 1);
    if k.Ok? && x.Ok? {
      PairStrip(k.text, x.text, d, i, c, j, w);
    }
  }

  /** A debug pair block strips to the compact pair block of the stripped key and value. */
  lemma PairStrip(k: string, x: string, d: Layout, i: int, c: Layout, j: int, w: set<char>)
    requires LayoutSet(d, w) && !c.debug
    ensures Strip(PairBlock(k, x, d, i), w) == PairBlock(Strip(k, w), Strip(x, w), c, j)
  {
    PunctuationKept(w);
    var p := [Prop("key", k), Prop("value", x)];
    var q := [Prop("key", Strip(k, w)), Prop("value", Strip(x, w))];
    assert forall ch :: ch in "key" ==> 'a' <= ch <= 'z';
    assert forall ch :: ch in "value" ==> 'a' <= ch <= 'z';
    assert Alike(p, q, w);
    MembersStrip(p, q, d, c, w);
    BlockStrip("{", "}", Members(p, d), Members(q, c), d, i, c, j, w);
  }

  lemma {:induction false} DebugMethods(ms: seq<Method>, d: Layout, i: int, c: Layout, j: int,
                                        p: seq<Prop>, q: seq<Prop>, w: set<char>)
    requires LayoutSet(d, w) && !c.debug && CleanMethods(ms, w) && Alike(p, q, w)
    ensures ScansAlike(ScanMethods(ms, d, i, p), ScanMethods(ms, c, j, q), w)
    decreases ms
  {
    if ms != [] {
      var m := ms[0];
      if Scanned(m) && m.name != "toString" && PropertyName(m.name).Some? && m.result.Some? {
        var name := PropertyName(m.name).value;
        DebugDump(m.result.value, d, i + 1, c, j + 1, w);
        var x := Dump(m.result.value, d, i + 1);
        if x.Ok? {
          forall ch | ch in name ensures ch !in w {
            PropertyNameChars(m.name, ch);
          }
          PutAlike(p, q, name, x.text, Strip(x.text, w), w);
          DebugMethods(ms[1..], d, i, c, j, Put(p, name, x.text), Put(q, name, Strip(x.text, w)), w);
        }
      } else {
        DebugMethods(ms[1..], d, i, c, j, p, q, w);
      }
    }
  }

  lemma {:induction false} DebugFields(fs: seq<Field>, d: Layout, i: int, c: Layout, j: int,
                                       p: seq<Prop>, q: seq<Prop>, w: set<char>)
    requires LayoutSet(d, w) && !c.debug && CleanFields(fs, w) && Alike(p, q, w)
    ensures TablesAlike(ScanFields(fs, d, i, p), ScanFields(fs, c, j, q), w)
    decreases fs
  {
    if fs != [] {
      var f := fs[0];
      AlikeNames(p, q, w);
      if Readable(f) && !Has(p, f.name) && f.read.Some? {
        DebugDump(f.read.value, d, i + 1, c, j + 1, w);
        var x := Dump(f.read.value, d, i + 1);
        if x.Ok? {
          PutAlike(p, q, f.name, x.text, Strip(x.text, w), w);
          DebugFields(fs[1..], d, i, c, j, Put(p, f.name, x.text), Put(q, f.name, Strip(x.text, w)), w);
        }
      } else {
        DebugFields(fs[1..], d, i, c, j, p, q, w);
      }
    }
  }

  /**
   * `dump(o, true)` is `dump(o, false)` with layout added: stripping the
   * tabs, the line separator's characters and the spaces gives the compact
   * text back.
   */
  lemma DebugIsCompactWithLayout(v: Value, eol: string, w: set<char>)
    requires '\t' in w && ' ' in w && (forall c :: c in eol ==> c in w)
    requires (forall c :: c in w ==> !('a' <= c <= 'z')) && NoLayout("[]{},:\"\\", w)
    requires Clean(v, w)
    ensures StripOutcome(DumpWith(v, true, eol), w) == DumpWith(v, false, eol)
  {
    var d := Layout("\t", eol, true);
    assert forall c :: c in d.indentStr ==> c == '\t';
    DebugDump(v, d, 1, Layout("\t", eol, false), 1, w);
  }
}
