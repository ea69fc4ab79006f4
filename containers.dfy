/**
 * Arrays, iterables and maps: children in order, one level deeper, and the
 * exception `joinTo` throws when there are none.
 */
module Containers {
  import opened Wrappers
  import opened Text
  import opened Props
  import opened LoggerUtil

  /**
   * An array or iterable renders exactly when it has an element and every
   * element renders; then its text is the block of the element texts, each
   * dumped one level deeper, in iteration order.
   */
  lemma SeqDump(es: seq<Value>, layout: Layout, indent: int)
    ensures Dump(Seq(es), layout, indent).Ok? <==>
              es != [] && forall k :: 0 <= k < |es| ==> Dump(es[k], layout, indent + 1).Ok?
    ensures Dump(Seq(es), layout, indent).Ok? ==>
              exists items: seq<string> ::
                && |items| == |es|
                && (forall k :: 0 <= k < |es| ==> Dump(es[k], layout, indent + 1) == Ok(items[k]))
                && Dump(Seq(es), layout, indent) == Block("[", "]", items, layout, indent)
  {
    var r := DumpAll(es, layout, indent + 1);
    if r.Some? {
      assert Dump(Seq(es), layout, indent) == Block("[", "]", r.value, layout, indent);
    }
  }

  /** In compact mode an array is `[`, its element texts joined by commas, `]`. */
  lemma SeqCompact(es: seq<Value>, layout: Layout, indent: int, items: seq<string>)
    requires !layout.debug && es != []
    requires |items| == |es|
    requires forall k :: 0 <= k < |es| ==> Dump(es[k], layout, indent + 1) == Ok(items[k])
    ensures Dump(Seq(es), layout, indent) == Ok("[" + Join(items, ",") + "]")
  {
    var r := DumpAll(es, layout, indent + 1);
    assert r.Some?;
    assert r.value == items;
  }

  /**
   * The entries of a map become their pair blocks, in order: every key and
   * value dumped one level deeper than the pair.
   */
  lemma {:induction false} DumpEntriesPairs(es: seq<Entry>, layout: Layout, indent: int)
    ensures DumpEntries(es, layout, indent).Some? <==>
              forall k :: 0 <= k < |es| ==> EntryRenders(es[k], layout, indent)
    ensures DumpEntries(es, layout, indent).Some? ==>
              && |DumpEntries(es, layout, indent).value| == |es|
              && forall k :: 0 <= k < |es| ==>
                   DumpEntries(es, layout, indent).value[k] == EntryBlock(es[k], layout, indent)
    decreases |es|
  {
    if es != [] {
      DumpEntriesPairs(es[1..], layout, indent);
      DumpEntryBlock(es[0], layout, indent);
      EntriesCons(es, layout, indent);
    }
  }

  /** One entry gives a pair block exactly when its key and value render. */
  lemma DumpEntryBlock(e: Entry, layout: Layout, indent: int)
    ensures DumpEntry(e, layout, indent).Some? <==> EntryRenders(e, layout, indent)
    ensures DumpEntry(e, layout, indent).Some? ==> DumpEntry(e, layout, indent).value == EntryBlock(e, layout, indent)
  {
  }

  /** The step of `DumpEntriesPairs`: the first entry's block, then the rest's. */
  lemma EntriesCons(es: seq<Entry>, layout: Layout, indent: int)
    requires es != []
    requires DumpEntry(es[0], layout, indent).Some? <==> EntryRenders(es[0], layout, indent)
    requires DumpEntry(es[0], layout, indent).Some? ==>
               DumpEntry(es[0], layout, indent).value == EntryBlock(es[0], layout, indent)
    requires DumpEntries(es[1..], layout, indent).Some? <==>
               forall k :: 0 <= k < |es[1..]| ==> EntryRenders(es[1..][k], layout, indent)
    requires DumpEntries(es[1..], layout, indent).Some? ==>
               && |DumpEntries(es[1..], layout, indent).value| == |es[1..]|
               && forall k :: 0 <= k < |es[1..]| ==>
                    DumpEntries(es[1..], layout, indent).value[k] == EntryBlock(es[1..][k], layout, indent)
    ensures DumpEntries(es, layout, indent).Some? <==>
              forall k :: 0 <= k < |es| ==> EntryRenders(es[k], layout, indent)
    ensures DumpEntries(es, layout, indent).Some? ==>
              && |DumpEntries(es, layout, indent).value| == |es|
              && forall k :: 0 <= k < |es| ==>
                   DumpEntries(es, layout, indent).value[k] == EntryBlock(es[k], layout, indent)
  {
    var first := DumpEntry(es[0], layout, indent);
    var rest := DumpEntries(es[1..], layout, indent);
    if first.Some? && rest.Some? {
      assert EntryRenders(es[0], layout, indent);
      EntriesBoth(es, layout, indent, first.value, rest.value);
    } else if first.Some? {
      EntriesRestFails(es, layout, indent);
    }
  }

  lemma EntriesBoth(es: seq<Entry>, layout: Layout, indent: int, first: string, rest: seq<string>)
    requires es != []
    requires EntryRenders(es[0], layout, indent)
    requires DumpEntry(es[0], layout, indent) == Some(first) && first == EntryBlock(es[0], layout, indent)
    requires DumpEntries(es[1..], layout, indent) == Some(rest)
    requires forall k :: 0 <= k < |es[1..]| ==> EntryRenders(es[1..][k], layout, indent)
    requires |rest| == |es[1..]| && forall k :: 0 <= k < |es[1..]| ==> rest[k] == EntryBlock(es[1..][k], layout, indent)
    ensures DumpEntries(es, layout, indent) == Some([first] + rest)
    ensures forall k :: 0 <= k < |es| ==>
              EntryRenders(es[k], layout, indent) && ([first] + rest)[k] == EntryBlock(es[k], layout, indent)
  {
    EntriesStep(es, layout, indent, first, rest);
    BlocksCons(es, layout, indent, first, rest);
  }

  lemma EntriesStep(es: seq<Entry>, layout: Layout, indent: int, first: string, rest: seq<string>)
    requires es != []
    requires DumpEntry(es[0], layout, indent) == Some(first)
    requires DumpEntries(es[1..], layout, indent) == Some(rest)
    ensures DumpEntries(es, layout, indent) == Some([first] + rest)
  {
  }

  lemma BlocksCons(es: seq<Entry>, layout: Layout, indent: int, first: string, rest: seq<string>)
    requires es != []
    requires EntryRenders(es[0], layout, indent) && first == EntryBlock(es[0], layout, indent)
    requires forall k :: 0 <= k < |es[1..]| ==> EntryRenders(es[1..][k], layout, indent)
    requires |rest| == |es[1..]| && forall k :: 0 <= k < |es[1..]| ==> rest[k] == EntryBlock(es[1..][k], layout, indent)
    ensures forall k :: 0 <= k < |es| ==>
              EntryRenders(es[k], layout, indent) && ([first] + rest)[k] == EntryBlock(es[k], layout, indent)
  {
    var all := [first] + rest;
    forall k | 0 <= k < |es| ensures EntryRenders(es[k], layout, indent) && all[k] == EntryBlock(es[k], layout, indent) {
      if k > 0 {
        assert es[k] == es[1..][k - 1];
        assert all[k] == rest[k - 1];
      }
    }
  }

  lemma EntriesRestFails(es: seq<Entry>, layout: Layout, indent: int)
    requires es != [] && DumpEntry(es[0], layout, indent).Some?
    requires DumpEntries(es[1..], layout, indent).None?
    requires !forall k :: 0 <= k < |es[1..]| ==> EntryRenders(es[1..][k], layout, indent)
    ensures DumpEntries(es, layout, indent).None?
    ensures !forall k :: 0 <= k < |es| ==> EntryRenders(es[k], layout, indent)
  {
    var k :| 0 <= k < |es[1..]| && !EntryRenders(es[1..][k], layout, indent);
    assert es[1..][k] == es[k + 1];
  }

  /** Both the key and the value of an entry render, dumped one level deeper than the pair. */
  predicate EntryRenders(e: Entry, layout: Layout, indent: int)
  {
    Dump(e.key, layout, indent + 1).Ok? && Dump(e.value, layout, indent + 1).Ok?
  }

  /** The pair block of an entry whose key and value render. */
  function EntryBlock(e: Entry, layout: Layout, indent: int): string
    requires EntryRenders(e, layout, indent)
  {
    PairBlock(Dump(e.key, layout, indent + 1).text, Dump(e.value, layout, indent + 1).text, layout, indent)
  }

  /** The `KV` pair object of a key and a value, dumped at `indent`. */
  lemma KVDump(key: Value, value: Value, layout: Layout, indent: int)
    ensures var k, x := Dump(key, layout, indent + 1), Dump(value, layout, indent + 1);
            Dump(KV(key, value), layout, indent) ==
              if k.Ok? && x.Ok? then Ok(PairBlock(k.text, x.text, layout, indent)) else OutOfBounds
  {
    var o := KV(key, value);
    assert Dump(o, layout, indent) == DumpObject(o, layout, indent);
    assert ScanMethods(o.methods, layout, indent, []) == Found([]);
    KVFields(key, value, layout, indent);
    var dk := Dump(key, layout, indent + 1);
    var dv := Dump(value, layout, indent + 1);
    if dk.Ok? && dv.Ok? {
      var all := [Prop("key", dk.text), Prop("value", dv.text)];
      PairSorted(dk.text, dv.text);
      ObjectFound(o, layout, indent, all);
    }
  }

  lemma ObjectFound(o: Value, layout: Layout, indent: int, all: seq<Prop>)
    requires o.Obj? && ScanMethods(o.methods, layout, indent, []) == Found([])
    requires ScanFields(o.fields, layout, indent, []) == Some(all)
    ensures DumpObject(o, layout, indent) == Block("{", "}", Members(SortByName(all), layout), layout, indent)
  {
  }

  /** The field scan of a `KV`: `key`, then `value`, each dumped one level deeper. */
  lemma KVFields(key: Value, value: Value, layout: Layout, indent: int)
    ensures var k, x := Dump(key, layout, indent + 1), Dump(value, layout, indent + 1);
            ScanFields(KV(key, value).fields, layout, indent, []) ==
              if k.Ok? && x.Ok? then Some([Prop("key", k.text), Prop("value", x.text)]) else None
  {
    var fk := Field("key", true, false, Some(key));
    var fv := Field("value", true, false, Some(value));
    var dk := Dump(key, layout, indent + 1);
    var dv := Dump(value, layout, indent + 1);
    assert [fk, fv][1..] == [fv];
    assert [fv][1..] == [];
    assert !Has([], "key");
    if dk.Ok? {
      var one := [Prop("key", dk.text)];
      assert Put([], "key", dk.text) == one;
      assert !Has(one, "value") by {
        assert Names(one) == ["key"];
      }
      assert ScanFields([fk, fv], layout, indent, []) == ScanFields([fv], layout, indent, one);
      if dv.Ok? {
        var two := [Prop("key", dk.text), Prop("value", dv.text)];
        assert Put(one, "value", dv.text) == two by {
          assert one[1..] == [];
        }
        assert ScanFields([fv], layout, indent, one) == ScanFields([], layout, indent, two);
      } else {
        assert ScanFields([fv], layout, indent, one) == None;
      }
    } else {
      assert ScanFields([fk, fv], layout, indent, []) == None;
    }
  }

  /** `"key"` sorts before `"value"`. */
  lemma PairSorted(k: string, x: string)
    ensures SortByName([Prop("key", k), Prop("value", x)]) == [Prop("key", k), Prop("value", x)]
  {
    var ps := [Prop("key", k), Prop("value", x)];
    assert Less("key", "value");
    assert ps[1..] == [Prop("value", x)];
    assert ps[1..][1..] == [];
    assert SortByName(ps[1..]) == [Prop("value", x)];
  }

  /** One map entry renders as the `KV` object made of it. */
  lemma DumpEntryIsKV(e: Entry, layout: Layout, indent: int)
    ensures DumpEntry(e, layout, indent) ==
              if Dump(KV(e.key, e.value), layout, indent).Ok?
              then Some(Dump(KV(e.key, e.value), layout, indent).text) else None
  {
    KVDump(e.key, e.value, layout, indent);
  }

  /** The `KV` objects of a map's entries, in `entrySet` order. */
  function KVList(es: seq<Entry>): (r: seq<Value>)
    ensures |r| == |es|
    ensures forall k :: 0 <= k < |es| ==> r[k] == KV(es[k].key, es[k].value)
  {
    seq(|es|, k requires 0 <= k < |es| => KV(es[k].key, es[k].value))
  }

  lemma {:induction false} EntriesAsKVList(es: seq<Entry>, layout: Layout, indent: int)
    ensures DumpEntries(es, layout, indent) == DumpAll(KVList(es), layout, indent)
    decreases |es|
  {
    if es != [] {
      var kvs := KVList(es);
      EntriesAsKVList(es[1..], layout, indent);
      HeadIsKV(es, layout, indent);
      KVListTail(es);
      ConsAgree(DumpEntry(es[0], layout, indent), Dump(kvs[0], layout, indent),
                DumpEntries(es[1..], layout, indent), DumpAll(kvs[1..], layout, indent));
    }
  }

  lemma HeadIsKV(es: seq<Entry>, layout: Layout, indent: int)
    requires es != []
    ensures var o := Dump(KVList(es)[0], layout, indent);
            DumpEntry(es[0], layout, indent) == if o.Ok? then Some(o.text) else None
  {
    DumpEntryIsKV(es[0], layout, indent);
  }

  lemma KVListTail(es: seq<Entry>)
    requires es != []
    ensures KVList(es)[1..] == KVList(es[1..])
  {
  }

  /** The step of `EntriesAsKVList`: equal heads and equal rests give equal lists. */
  lemma ConsAgree(e: Option<string>, o: Outcome, es: Option<seq<string>>, os: Option<seq<string>>)
    requires e == (if o.Ok? then Some(o.text) else None) && es == os
    ensures (match e case None => None
             case Some(first) => match es case None => None case Some(rest) => Some([first] + rest)) ==
            (match o case OutOfBounds => None
             case Ok(first) => match os case None => None case Some(rest) => Some([first] + rest))
  {
  }

  /**
   * A map renders as the list of its `KV` pairs dumped one level deeper:
   * what `dump` does by building `kvList` and recursing at `indent + 1`.
   */
  lemma MapAsKVList(es: seq<Entry>, layout: Layout, indent: int)
    ensures Dump(MapV(es), layout, indent) == Dump(Seq(KVList(es)), layout, indent + 1)
  {
    EntriesAsKVList(es, layout, indent + 2);
  }

  /**
   * `joinTo` on an empty list throws: an empty array, iterable or map never
   * renders as `[]`, and the exception ends the enclosing dump.
   */
  lemma EmptyContainersThrow(layout: Layout, indent: int)
    ensures Dump(Seq([]), layout, indent) == OutOfBounds
    ensures Dump(MapV([]), layout, indent) == OutOfBounds
  {
    assert DumpAll([], layout, indent + 1) == Some([]);
    assert DumpEntries([], layout, indent + 2) == Some([]);
  }

  /** A child that throws ends the dump of the array that holds it. */
  lemma ThrowingElementThrows(es: seq<Value>, k: nat, layout: Layout, indent: int)
    requires k < |es|
    requires Dump(es[k], layout, indent + 1) == OutOfBounds
    ensures Dump(Seq(es), layout, indent) == OutOfBounds
  {
    SeqDump(es, layout, indent);
  }
}
