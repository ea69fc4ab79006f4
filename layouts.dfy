/**
 * What the layout of a dump changes. Compact output (debug off) never uses
 * the indent unit, the line separator or the depth, which is why `dump(o)`
 * can be `dump(o, false)` under any line separator.
 */
module Layouts {
  import opened Wrappers
  import opened Text
  import opened Props
  import opened Getter
  import opened LoggerUtil

  /** Two layouts with debug off. */
  predicate BothCompact(a: Layout, b: Layout)
  {
    !a.debug && !b.debug
  }

  lemma MembersCompact(ps: seq<Prop>, a: Layout, b: Layout)
    requires BothCompact(a, b)
    ensures Members(ps, a) == Members(ps, b)
  {
  }

  /** A compact block depends on its items only. */
  lemma BlockCompact(open: string, close: string, items: seq<string>, a: Layout, i: int, b: Layout, j: int)
    requires BothCompact(a, b)
    ensures Block(open, close, items, a, i) == Block(open, close, items, b, j)
  {
  }

  /** Compact output is the same for every indent unit, line separator and depth. */
  lemma {:induction false} CompactDump(v: Value, a: Layout, i: int, b: Layout, j: int)
    requires BothCompact(a, b)
    ensures Dump(v, a, i) == Dump(v, b, j)
    decreases v, 1
  {
    match v
    case Null =>
    case Scalar(_) =>
    case Seq(es) =>
      CompactAll(es, a, i + 1, b, j + 1);
    case MapV(es) =>
      CompactEntries(es, a, i + 2, b, j + 2);
    case Obj(_, _, _) =>
      CompactObject(v, a, i, b, j);
  }

  lemma {:induction false} CompactObject(v: Value, a: Layout, i: int, b: Layout, j: int)
    requires BothCompact(a, b) && v.Obj?
    ensures DumpObject(v, a, i) == DumpObject(v, b, j)
    decreases v, 0
  {
    CompactMethods(v.methods, a, i, b, j, []);
    var s := ScanMethods(v.methods, a, i, []);
    if s.Found? {
      CompactFields(v.fields, a, i, b, j, s.props);
      var f := ScanFields(v.fields, a, i, s.props);
      if f.Some? {
        MembersCompact(SortByName(f.value), a, b);
      }
    }
  }

  lemma {:induction false} CompactAll(es: seq<Value>, a: Layout, i: int, b: Layout, j: int)
    requires BothCompact(a, b)
    ensures DumpAll(es, a, i) == DumpAll(es, b, j)
    decreases es
  {
    if es != [] {
      CompactDump(es[0], a, i, b, j);
      CompactAll(es[1..], a, i, b, j);
    }
  }

  lemma {:induction false} CompactEntries(es: seq<Entry>, a: Layout, i: int, b: Layout, j: int)
    requires BothCompact(a, b)
    ensures DumpEntries(es, a, i) == DumpEntries(es, b, j)
    decreases es
  {
    if es != [] {
      CompactEntry(es[0], a, i, b, j);
      CompactEntries(es[1..], a, i, b, j);
    }
  }

  lemma {:induction false} CompactEntry(e: Entry, a: Layout, i: int, b: Layout, j: int)
    requires BothCompact(a, b)
    ensures DumpEntry(e, a, i) == DumpEntry(e, b, j)
    decreases e
  {
    CompactDump(e.key, a, i + 1, b, j + 1);
    CompactDump(e.value, a, i + 1, b, j + 1);
    var k := Dump(e.key, a, i + 1);
    var x := Dump(e.value, a, i + 1);
    if k.Ok? && x.Ok? {
      MembersCompact([Prop("key", k.text), Prop("value", x.text)], a, b);
    }
  }

  lemma {:induction false} CompactMethods(ms: seq<Method>, a: Layout, i: int, b: Layout, j: int, acc: seq<Prop>)
    requires BothCompact(a, b)
    ensures ScanMethods(ms, a, i, acc) == ScanMethods(ms, b, j, acc)
    decreases ms
  {
    if ms != [] {
      var m := ms[0];
      if Scanned(m) && m.name != "toString" && PropertyName(m.name).Some? && m.result.Some? {
        CompactDump(m.result.value, a, i + 1, b, j + 1);
        var d := Dump(m.result.value, a, i + 1);
        if d.Ok? {
          CompactMethods(ms[1..], a, i, b, j, Put(acc, PropertyName(m.name).value, d.text));
        }
      } else {
        CompactMethods(ms[1..], a, i, b, j, acc);
      }
    }
  }

  lemma {:induction false} CompactFields(fs: seq<Field>, a: Layout, i: int, b: Layout, j: int, acc: seq<Prop>)
    requires BothCompact(a, b)
    ensures ScanFields(fs, a, i, acc) == ScanFields(fs, b, j, acc)
    decreases fs
  {
    if fs != [] {
      var f := fs[0];
      if Readable(f) && !Has(acc, f.name) && f.read.Some? {
        CompactDump(f.read.value, a, i + 1, b, j + 1);
        var d := Dump(f.read.value, a, i + 1);
        if d.Ok? {
          CompactFields(fs[1..], a, i, b, j, Put(acc, f.name, d.text));
        }
      } else {
        CompactFields(fs[1..], a, i, b, j, acc);
      }
    }
  }

  /** `dump(o)` is `dump(o, false)`, whatever the platform's line separator. */
  lemma DumpDefaultIsCompact(v: Value, eol: string)
    ensures DumpDefault(v) == DumpWith(v, false, eol)
  {
    CompactDump(v, Layout("\t", "", false), 1, Layout("\t", eol, false), 1);
  }
}
