/**
 * How `dump` renders an object that is neither null, a container nor a
 * boxed scalar: which getters and fields become members, where the scan
 * stops, which value wins for a name, and the order the members come out in.
 */
module Objects {
  import opened Wrappers
  import opened Text
  import opened Props
  import opened Getter
  import opened LoggerUtil

  /** The text of a dump that succeeded, None for one that threw. */
  function Rendered(o: Outcome): (r: Option<string>)
    ensures r.Some? <==> o.Ok?
    ensures r.Some? ==> o == Ok(r.value)
  {
    if o.Ok? then Some(o.text) else None
  }

  // ---------------------------------------------------------------------
  // The method scan
  // ---------------------------------------------------------------------

  /**
   * A method at which the scan stops: the class's own `toString`, or a
   * getter whose result throws when dumped one level deeper.
   */
  predicate StopsScan(m: Method, layout: Layout, indent: int)
  {
    && Scanned(m)
    && (|| m.name == "toString"
        || (PropertyName(m.name).Some? && m.result.Some? && Dump(m.result.value, layout, indent + 1).OutOfBounds?))
  }

  /** A scanned `toString`. */
  predicate OwnToString(m: Method)
  {
    Scanned(m) && m.name == "toString"
  }

  /** No method before index `k` stops the scan. */
  ghost predicate ClearBefore(ms: seq<Method>, k: int, layout: Layout, indent: int)
  {
    forall j :: 0 <= j < k && j < |ms| ==> !StopsScan(ms[j], layout, indent)
  }

  /**
   * How the method scan ends, whatever was gathered before: it runs through
   * exactly when no method stops it, and it meets `toString` exactly when a
   * scanned `toString` comes before every getter whose result throws.
   */
  lemma {:induction false} ScanOutcome(ms: seq<Method>, layout: Layout, indent: int, acc: seq<Prop>)
    ensures ScanMethods(ms, layout, indent, acc).Found? <==> ClearBefore(ms, |ms|, layout, indent)
    ensures ScanMethods(ms, layout, indent, acc).ToString? <==>
              exists k :: 0 <= k < |ms| && OwnToString(ms[k]) && ClearBefore(ms, k, layout, indent)
    decreases |ms|
  {
    if ms != [] {
      var m := ms[0];
      var tail := ms[1..];
      assert forall j :: 0 < j < |ms| ==> ms[j] == tail[j - 1];
      if OwnToString(m) {
        assert StopsScan(m, layout, indent);
        assert ClearBefore(ms, 0, layout, indent);
      } else if StopsScan(m, layout, indent) {
        assert ScanMethods(ms, layout, indent, acc) == Thrown;
        forall k | 0 < k <= |ms| ensures !ClearBefore(ms, k, layout, indent) {
          assert StopsScan(ms[0], layout, indent);
        }
      } else {
        var acc' := NextAcc(m, layout, indent, acc);
        assert ScanMethods(ms, layout, indent, acc) == ScanMethods(tail, layout, indent, acc');
        ScanOutcome(tail, layout, indent, acc');
        assert ClearBefore(ms, |ms|, layout, indent) <==> ClearBefore(tail, |tail|, layout, indent);
        if ScanMethods(tail, layout, indent, acc').ToString? {
          var k :| 0 <= k < |tail| && OwnToString(tail[k]) && ClearBefore(tail, k, layout, indent);
          assert OwnToString(ms[k + 1]) && ClearBefore(ms, k + 1, layout, indent);
        } else {
          forall k | 0 <= k < |ms| && OwnToString(ms[k]) ensures !ClearBefore(ms, k, layout, indent) {
            assert k > 0;
            assert !ClearBefore(tail, k - 1, layout, indent);
          }
        }
      }
    }
  }

  /** What the scan holds after a method that does not stop it. */
  function NextAcc(m: Method, layout: Layout, indent: int, acc: seq<Prop>): seq<Prop>
    requires !StopsScan(m, layout, indent)
  {
    if Scanned(m) && PropertyName(m.name).Some? && m.result.Some?
    then Put(acc, PropertyName(m.name).value, Dump(m.result.value, layout, indent + 1).text)
    else acc
  }

  /**
   * The class's own `toString`, reached before any getter that throws,
   * decides the whole rendering: the object becomes its `toString` text,
   * escaped and quoted, and whatever the scan had gathered is dropped.
   */
  lemma ToStringEarlyExit(v: Value, k: nat, layout: Layout, indent: int)
    requires v.Obj? && k < |v.methods|
    requires OwnToString(v.methods[k]) && ClearBefore(v.methods, k, layout, indent)
    ensures Dump(v, layout, indent) == Ok("\"" + Quote(v.asString) + "\"")
  {
    ScanOutcome(v.methods, layout, indent, []);
  }

  /**
   * A getter whose result throws, reached before any `toString`, ends the
   * whole dump: the exception is not one of those the scan catches.
   */
  lemma ThrowingGetterEndsDump(v: Value, k: nat, layout: Layout, indent: int)
    requires v.Obj? && k < |v.methods|
    requires StopsScan(v.methods[k], layout, indent) && !OwnToString(v.methods[k])
    requires ClearBefore(v.methods, k, layout, indent)
    ensures Dump(v, layout, indent) == OutOfBounds
  {
    var ms := v.methods;
    ScanOutcome(ms, layout, indent, []);
    forall j | 0 <= j < |ms| && OwnToString(ms[j]) ensures !ClearBefore(ms, j, layout, indent) {
      if j < k {
        assert StopsScan(ms[j], layout, indent);
      } else if j > k {
        assert StopsScan(ms[k], layout, indent);
      }
    }
  }

  /** `m` is a getter the scan dumps under property name `name`. */
  predicate Yields(m: Method, name: string)
  {
    Scanned(m) && m.name != "toString" && PropertyName(m.name) == Some(name) && m.result.Some?
  }

  /** The getter at `k` is the last one in `ms` that yields its property name. */
  ghost predicate LastYield(ms: seq<Method>, k: int)
  {
    && 0 <= k < |ms|
    && PropertyName(ms[k].name).Some?
    && Yields(ms[k], PropertyName(ms[k].name).value)
    && forall j :: k < j < |ms| ==> !Yields(ms[j], PropertyName(ms[k].name).value)
  }

  /**
   * What a completed method scan gathered: a name no getter yields keeps
   * what it had, and a name getters yield holds the dumped result of the
   * last of them (`put` overwrites, so `getFoo` after `isFoo` wins). The
   * table stays a map.
   */
  lemma {:induction false} ScanGathers(ms: seq<Method>, layout: Layout, indent: int, acc: seq<Prop>, props: seq<Prop>)
    requires ScanMethods(ms, layout, indent, acc) == Found(props)
    ensures forall n :: (forall k :: 0 <= k < |ms| ==> !Yields(ms[k], n)) ==> Get(props, n) == Get(acc, n)
    ensures forall k :: LastYield(ms, k) ==>
              Get(props, PropertyName(ms[k].name).value) == Rendered(Dump(ms[k].result.value, layout, indent + 1))
    ensures UniqueNames(acc) ==> UniqueNames(props)
    decreases |ms|
  {
    if ms != [] {
      var m := ms[0];
      var tail := ms[1..];
      assert forall j :: 0 < j < |ms| ==> ms[j] == tail[j - 1];
      ScanOutcome(ms, layout, indent, acc);
      assert !StopsScan(m, layout, indent);
      var acc' := NextAcc(m, layout, indent, acc);
      assert ScanMethods(ms, layout, indent, acc) == ScanMethods(tail, layout, indent, acc');
      ScanGathers(tail, layout, indent, acc', props);
      if Scanned(m) && PropertyName(m.name).Some? && m.result.Some? {
        var name := PropertyName(m.name).value;
        var s := Dump(m.result.value, layout, indent + 1).text;
        assert Yields(m, name);
        forall n | forall k :: 0 <= k < |ms| ==> !Yields(ms[k], n)
          ensures Get(props, n) == Get(acc, n)
        {
          assert n != name;
          PutGet(acc, name, s, n);
        }
        forall k | LastYield(ms, k)
          ensures Get(props, PropertyName(ms[k].name).value) == Rendered(Dump(ms[k].result.value, layout, indent + 1))
        {
          if k == 0 {
            PutGet(acc, name, s, name);
            assert forall j :: 0 <= j < |tail| ==> !Yields(tail[j], name);
          } else {
            assert LastYield(tail, k - 1);
          }
        }
        if UniqueNames(acc) {
          PutUnique(acc, name, s);
        }
      } else {
        forall k | LastYield(ms, k)
          ensures Get(props, PropertyName(ms[k].name).value) == Rendered(Dump(ms[k].result.value, layout, indent + 1))
        {
          assert k != 0;
          assert LastYield(tail, k - 1);
        }
      }
    }
  }

  /** A method the scan passes over without effect. */
  predicate InertMethod(m: Method)
  {
    !Scanned(m) || (m.name != "toString" && (PropertyName(m.name).None? || m.result.None?))
  }

  /**
   * A method declared by `Object`, not public, static or with parameters,
   * one whose name is not a getter's, and a getter whose invocation fails,
   * change nothing: the scan is the same without them.
   */
  lemma {:induction false} InertMethodIgnored(xs: seq<Method>, m: Method, ys: seq<Method>,
                                              layout: Layout, indent: int, acc: seq<Prop>)
    requires InertMethod(m)
    ensures ScanMethods(xs + [m] + ys, layout, indent, acc) == ScanMethods(xs + ys, layout, indent, acc)
    decreases |xs|
  {
    if xs == [] {
      assert ([m] + ys)[1..] == ys;
      assert xs + [m] + ys == [m] + ys && xs + ys == ys;
    } else {
      var x := xs[0];
      assert (xs + [m] + ys)[0] == x && (xs + ys)[0] == x;
      assert (xs + [m] + ys)[1..] == xs[1..] + [m] + ys;
      assert (xs + ys)[1..] == xs[1..] + ys;
      if Scanned(x) && x.name != "toString" && PropertyName(x.name).Some? && x.result.Some?
         && Dump(x.result.value, layout, indent + 1).Ok? {
        var acc' := Put(acc, PropertyName(x.name).value, Dump(x.result.value, layout, indent + 1).text);
        InertMethodIgnored(xs[1..], m, ys, layout, indent, acc');
      } else {
        InertMethodIgnored(xs[1..], m, ys, layout, indent, acc);
      }
    }
  }

  // ---------------------------------------------------------------------
  // The field scan
  // ---------------------------------------------------------------------

  /** A field the scan reads and that is read without an exception. */
  predicate Offers(f: Field)
  {
    Readable(f) && f.read.Some?
  }

  /**
   * The field at `k` is the one the scan dumps for its name: no getter
   * claimed the name and no earlier field offered it.
   */
  ghost predicate UsedField(fs: seq<Field>, k: int, acc: seq<Prop>)
  {
    && 0 <= k < |fs|
    && Offers(fs[k])
    && !Has(acc, fs[k].name)
    && forall j :: 0 <= j < k ==> !(Offers(fs[j]) && fs[j].name == fs[k].name)
  }

  /** Moving past the first field: a later field is used against the table the first one leaves. */
  lemma UsedFieldTail(fs: seq<Field>, acc: seq<Prop>, acc': seq<Prop>, k: int)
    requires fs != [] && 1 <= k < |fs|
    requires forall n :: Has(acc', n) <==> Has(acc, n) || (Offers(fs[0]) && n == fs[0].name)
    ensures UsedField(fs, k, acc) <==> UsedField(fs[1..], k - 1, acc')
  {
    assert forall j :: 0 < j < |fs| ==> fs[j] == fs[1..][j - 1];
    if UsedField(fs[1..], k - 1, acc') {
      assert Has(acc', fs[0].name) ==> fs[k].name != fs[0].name;
    }
  }

  /** Moving past the first field: the table it leaves and the fields used after it. */
  lemma FieldStep(fs: seq<Field>, layout: Layout, indent: int, acc: seq<Prop>, acc': seq<Prop>)
    requires fs != []
    requires acc' == if Offers(fs[0]) && !Has(acc, fs[0].name) && Dump(fs[0].read.value, layout, indent + 1).Ok?
                     then Put(acc, fs[0].name, Dump(fs[0].read.value, layout, indent + 1).text) else acc
    requires Offers(fs[0]) && !Has(acc, fs[0].name) ==> Dump(fs[0].read.value, layout, indent + 1).Ok?
    ensures ScanFields(fs, layout, indent, acc) == ScanFields(fs[1..], layout, indent, acc')
    ensures forall n :: Has(acc', n) <==> Has(acc, n) || (Offers(fs[0]) && n == fs[0].name)
    ensures forall k :: 1 <= k < |fs| ==> (UsedField(fs, k, acc) <==> UsedField(fs[1..], k - 1, acc'))
  {
    var f := fs[0];
    forall n ensures Has(acc', n) <==> Has(acc, n) || (Offers(f) && n == f.name) {
      if Offers(f) && !Has(acc, f.name) {
        PutGet(acc, f.name, Dump(f.read.value, layout, indent + 1).text, n);
      }
    }
    forall k | 1 <= k < |fs| ensures UsedField(fs, k, acc) <==> UsedField(fs[1..], k - 1, acc') {
      UsedFieldTail(fs, acc, acc', k);
    }
  }

  /** The field scan throws exactly when the value of a used field throws. */
  lemma {:induction false} ScanFieldsThrows(fs: seq<Field>, layout: Layout, indent: int, acc: seq<Prop>)
    ensures ScanFields(fs, layout, indent, acc).None? <==>
              exists k :: UsedField(fs, k, acc) && Dump(fs[k].read.value, layout, indent + 1).OutOfBounds?
    decreases |fs|
  {
    if fs != [] {
      var f := fs[0];
      var tail := fs[1..];
      if Offers(f) && !Has(acc, f.name) && Dump(f.read.value, layout, indent + 1).OutOfBounds? {
        assert UsedField(fs, 0, acc);
      } else {
        var acc' := if Offers(f) && !Has(acc, f.name)
                    then Put(acc, f.name, Dump(f.read.value, layout, indent + 1).text) else acc;
        FieldStep(fs, layout, indent, acc, acc');
        ScanFieldsThrows(tail, layout, indent, acc');
        if ScanFields(fs, layout, indent, acc).None? {
          var k :| UsedField(tail, k, acc') && Dump(tail[k].read.value, layout, indent + 1).OutOfBounds?;
          assert fs[k + 1] == tail[k];
          assert UsedField(fs, k + 1, acc);
        } else {
          forall k | UsedField(fs, k, acc) ensures Dump(fs[k].read.value, layout, indent + 1).Ok? {
            if k > 0 {
              assert fs[k] == tail[k - 1];
              assert UsedField(tail, k - 1, acc');
            }
          }
        }
      }
    }
  }

  /**
   * A completed field scan: a name the getters claimed keeps the getter's
   * value, a used field puts its dumped value under its name, nothing else
   * is added, and the table stays a map.
   */
  lemma {:induction false} ScanFieldsSpec(fs: seq<Field>, layout: Layout, indent: int, acc: seq<Prop>)
    requires ScanFields(fs, layout, indent, acc).Some?
    ensures forall n :: Has(acc, n) ==> Get(ScanFields(fs, layout, indent, acc).value, n) == Get(acc, n)
    ensures forall k :: UsedField(fs, k, acc) ==>
              Get(ScanFields(fs, layout, indent, acc).value, fs[k].name) ==
                Rendered(Dump(fs[k].read.value, layout, indent + 1))
    ensures forall n :: !Has(acc, n) && (forall k :: 0 <= k < |fs| ==> !(Offers(fs[k]) && fs[k].name == n)) ==>
              !Has(ScanFields(fs, layout, indent, acc).value, n)
    ensures UniqueNames(acc) ==> UniqueNames(ScanFields(fs, layout, indent, acc).value)
    decreases |fs|
  {
    if fs != [] {
      var f := fs[0];
      var tail := fs[1..];
      var acc' := if Offers(f) && !Has(acc, f.name)
                  then Put(acc, f.name, Dump(f.read.value, layout, indent + 1).text) else acc;
      FieldStep(fs, layout, indent, acc, acc');
      ScanFieldsSpec(tail, layout, indent, acc');
      var props := ScanFields(fs, layout, indent, acc).value;
      forall n | Has(acc, n) ensures Get(props, n) == Get(acc, n) {
        if Offers(f) && !Has(acc, f.name) {
          PutGet(acc, f.name, Dump(f.read.value, layout, indent + 1).text, n);
        }
      }
      forall k | UsedField(fs, k, acc)
        ensures Get(props, fs[k].name) == Rendered(Dump(fs[k].read.value, layout, indent + 1))
      {
        if k == 0 {
          PutGet(acc, f.name, Dump(f.read.value, layout, indent + 1).text, f.name);
        } else {
          assert fs[k] == tail[k - 1];
          assert UsedField(tail, k - 1, acc');
        }
      }
      forall n | !Has(acc, n) && (forall k :: 0 <= k < |fs| ==> !(Offers(fs[k]) && fs[k].name == n))
        ensures !Has(props, n)
      {
        assert !(Offers(fs[0]) && fs[0].name == n);
        forall k | 0 <= k < |tail| ensures !(Offers(tail[k]) && tail[k].name == n) {
          assert tail[k] == fs[k + 1];
        }
      }
      if UniqueNames(acc) && Offers(f) && !Has(acc, f.name) {
        PutUnique(acc, f.name, Dump(f.read.value, layout, indent + 1).text);
      }
    }
  }

  /** A field that is not public, static, or whose read fails changes nothing. */
  lemma {:induction false} InertFieldIgnored(xs: seq<Field>, f: Field, ys: seq<Field>,
                                             layout: Layout, indent: int, acc: seq<Prop>)
    requires !Offers(f)
    ensures ScanFields(xs + [f] + ys, layout, indent, acc) == ScanFields(xs + ys, layout, indent, acc)
    decreases |xs|
  {
    if xs == [] {
      assert ([f] + ys)[1..] == ys;
      assert xs + [f] + ys == [f] + ys && xs + ys == ys;
    } else {
      var x := xs[0];
      assert (xs + [f] + ys)[0] == x && (xs + ys)[0] == x;
      assert (xs + [f] + ys)[1..] == xs[1..] + [f] + ys;
      assert (xs + ys)[1..] == xs[1..] + ys;
      if Offers(x) && !Has(acc, x.name) && Dump(x.read.value, layout, indent + 1).Ok? {
        InertFieldIgnored(xs[1..], f, ys, layout, indent, Put(acc, x.name, Dump(x.read.value, layout, indent + 1).text));
      } else {
        InertFieldIgnored(xs[1..], f, ys, layout, indent, acc);
      }
    }
  }

  // ---------------------------------------------------------------------
  // The rendered object
  // ---------------------------------------------------------------------

  /**
   * The members an object renders with, when both scans complete: the
   * getters' table completed by the field scan.
   */
  function ScannedMembers(v: Value, layout: Layout, indent: int): Option<seq<Prop>>
    requires v.Obj?
  {
    match ScanMethods(v.methods, layout, indent, [])
    case Found(props) => ScanFields(v.fields, layout, indent, props)
    case _ => None
  }

  /**
   * When both scans complete, the object is the block of its members in
   * ascending name order, whatever order they were discovered in: any
   * name-sorted arrangement of the table gives the same text. With no
   * members at all, `joinTo` throws.
   */
  lemma ObjectMembersSorted(v: Value, layout: Layout, indent: int, q: seq<Prop>)
    requires v.Obj? && ScannedMembers(v, layout, indent).Some?
    requires SortedByName(q) && multiset(q) == multiset(ScannedMembers(v, layout, indent).value)
    ensures Dump(v, layout, indent) == Block("{", "}", Members(q, layout), layout, indent)
    ensures Dump(v, layout, indent).Ok? <==> q != []
  {
    var props := ScanMethods(v.methods, layout, indent, []).props;
    var all := ScannedMembers(v, layout, indent).value;
    ScanGathers(v.methods, layout, indent, [], props);
    ScanFieldsSpec(v.fields, layout, indent, props);
    SortByNameSorted(all);
    SortByNamePermutes(all);
    SortedUnique(SortByName(all), q);
  }
}
