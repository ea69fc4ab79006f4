/**
 * The property table that `dump` fills for an object (`fieldMap`, a
 * `HashMap<String, KV>` whose `KV.value` is the rendered value), and the
 * ordering in which its entries are emitted (`Collections.sort` over the
 * names, `String.compareTo`).
 *
 * The table is an association list: `put` replaces the entry of a name
 * that is already there and adds one otherwise, so names stay unique. The
 * hash order of `keySet` is not modelled; it is sorted away before output.
 */
module Props {
  import opened Wrappers

  /** One property: its canonical name and its rendered value. */
  datatype Prop = Prop(name: string, text: string)

  function Names(ps: seq<Prop>): (r: seq<string>)
    ensures |r| == |ps|
    ensures forall k :: 0 <= k < |ps| ==> r[k] == ps[k].name
  {
    if ps == [] then [] else [ps[0].name] + Names(ps[1..])
  }

  lemma NamesCons(p: Prop, ps: seq<Prop>)
    ensures Names([p] + ps) == [p.name] + Names(ps)
  {
    assert ([p] + ps)[1..] == ps;
  }

  /** No name occurs twice: the keys of a map. */
  ghost predicate UniqueNames(ps: seq<Prop>)
  {
    ps == [] || (ps[0].name !in Names(ps[1..]) && UniqueNames(ps[1..]))
  }

  lemma {:induction false} UniqueNamesAt(ps: seq<Prop>, i: nat, j: nat)
    requires UniqueNames(ps)
    requires i < |ps| && j < |ps| && i != j
    ensures ps[i].name != ps[j].name
  {
    var tail := ps[1..];
    assert ps[0].name !in Names(tail) && UniqueNames(tail);
    if i > 0 && j > 0 {
      assert tail[i - 1] == ps[i] && tail[j - 1] == ps[j];
      UniqueNamesAt(tail, i - 1, j - 1);
    } else if i > 0 {
      assert tail[i - 1] == ps[i];
      assert Names(tail)[i - 1] == ps[i].name;
    } else {
      assert tail[j - 1] == ps[j];
      assert Names(tail)[j - 1] == ps[j].name;
    }
  }

  /** `containsKey` */
  predicate Has(ps: seq<Prop>, name: string)
  {
    name in Names(ps)
  }

  /** `get`: the rendered value stored under `name`, if any. */
  function Get(ps: seq<Prop>, name: string): (r: Option<string>)
    ensures r.Some? <==> Has(ps, name)
    ensures r.Some? ==> Prop(name, r.value) in ps
  {
    if ps == [] then None
    else if ps[0].name == name then Some(ps[0].text)
    else
      assert Names(ps) == [ps[0].name] + Names(ps[1..]);
      Get(ps[1..], name)
  }

  /** `put`: the entry of `name` now holds `text`; a new name is added at the end. */
  function Put(ps: seq<Prop>, name: string, text: string): seq<Prop>
  {
    if ps == [] then [Prop(name, text)]
    else if ps[0].name == name then [Prop(name, text)] + ps[1..]
    else [ps[0]] + Put(ps[1..], name, text)
  }

  /** `put` keeps the order of the names, and appends a name the table did not hold. */
  lemma {:induction false} PutNames(ps: seq<Prop>, name: string, text: string)
    ensures Names(Put(ps, name, text)) == if Has(ps, name) then Names(ps) else Names(ps) + [name]
  {
    if ps != [] {
      NamesCons(ps[0], ps[1..]);
      if ps[0].name == name {
        NamesCons(Prop(name, text), ps[1..]);
      } else {
        var rest := Put(ps[1..], name, text);
        PutNames(ps[1..], name, text);
        NamesCons(ps[0], rest);
        PutNamesStep(ps[0].name, Names(ps[1..]), Names(rest), name);
      }
    }
  }

  /** The step of `Put`'s contract past an entry of another name. */
  lemma PutNamesStep(x: string, ns: seq<string>, rs: seq<string>, name: string)
    requires x != name
    requires rs == if name in ns then ns else ns + [name]
    ensures [x] + rs == if name in [x] + ns then [x] + ns else [x] + ns + [name]
  {
    assert name in [x] + ns <==> name in ns;
  }

  /** After `put`, `name` holds `text` and every other name keeps its value (or absence). */
  lemma {:induction false} PutGet(ps: seq<Prop>, name: string, text: string, other: string)
    ensures Get(Put(ps, name, text), other) == if other == name then Some(text) else Get(ps, other)
  {
    if ps != [] && ps[0].name != name {
      PutGet(ps[1..], name, text, other);
    }
  }

  /** `put` keeps the names unique: the table stays a map. */
  lemma {:induction false} PutUnique(ps: seq<Prop>, name: string, text: string)
    requires UniqueNames(ps)
    ensures UniqueNames(Put(ps, name, text))
  {
    if ps != [] {
      var r := Put(ps, name, text);
      if ps[0].name == name {
        assert r[1..] == ps[1..];
      } else {
        PutUnique(ps[1..], name, text);
        assert r[1..] == Put(ps[1..], name, text);
        PutGet(ps[1..], name, text, ps[0].name);
        assert !Has(ps[1..], ps[0].name);
      }
    }
  }

  // ---------------------------------------------------------------------
  // String order: String.compareTo
  // ---------------------------------------------------------------------

  /**
   * `a.compareTo(b) < 0`: at the first position where the two differ, `a`
   * has the smaller character; a proper prefix comes first, and no string
   * comes before one of its own prefixes.
   */
  predicate Less(a: string, b: string)
    ensures a < b ==> Less(a, b)
    ensures b <= a ==> !Less(a, b)
  {
    if a == [] then b != []
    else if b == [] then false
    else if a[0] != b[0] then a[0] < b[0]
    else Less(a[1..], b[1..])
  }

  lemma {:induction false} LessIrreflexive(a: string)
    ensures !Less(a, a)
  {
    if a != [] {
      LessIrreflexive(a[1..]);
    }
  }

  lemma {:induction false} LessTransitive(a: string, b: string, c: string)
    requires Less(a, b) && Less(b, c)
    ensures Less(a, c)
  {
    if a != [] && b != [] && c != [] && a[0] == b[0] && b[0] == c[0] {
      LessTransitive(a[1..], b[1..], c[1..]);
    }
  }

  /** Two different names are always ordered one way or the other. */
  lemma {:induction false} LessTotal(a: string, b: string)
    ensures a == b || Less(a, b) || Less(b, a)
  {
    if a != [] && b != [] && a[0] == b[0] {
      LessTotal(a[1..], b[1..]);
      if a[1..] == b[1..] {
        assert a == [a[0]] + a[1..] && b == [b[0]] + b[1..];
      }
    }
  }

  lemma {:induction false} LessAsymmetric(a: string, b: string)
    requires Less(a, b)
    ensures !Less(b, a)
  {
    if a != [] && b != [] && a[0] == b[0] {
      LessAsymmetric(a[1..], b[1..]);
    }
  }

  // ---------------------------------------------------------------------
  // Sorting the table by name
  // ---------------------------------------------------------------------

  /** Ascending by name: no later entry's name is smaller than an earlier one's. */
  ghost predicate SortedByName(ps: seq<Prop>)
  {
    forall i, j :: 0 <= i < j < |ps| ==> !Less(ps[j].name, ps[i].name)
  }

  /** Places `p` before the first entry whose name is not smaller than its own. */
  function Insert(p: Prop, ps: seq<Prop>): (r: seq<Prop>)
    ensures |r| == |ps| + 1
  {
    if ps == [] then [p]
    else if Less(ps[0].name, p.name) then [ps[0]] + Insert(p, ps[1..])
    else [p] + ps
  }

  /** Insertion adds `p` and loses nothing. */
  lemma {:induction false} InsertPermutes(p: Prop, ps: seq<Prop>)
    ensures multiset(Insert(p, ps)) == multiset(ps) + multiset{p}
  {
    if ps != [] {
      assert ps == [ps[0]] + ps[1..];
      if Less(ps[0].name, p.name) {
        InsertPermutes(p, ps[1..]);
      }
    }
  }

  lemma {:induction false} InsertSorted(p: Prop, ps: seq<Prop>)
    requires SortedByName(ps)
    ensures SortedByName(Insert(p, ps))
  {
    var r := Insert(p, ps);
    if ps != [] && Less(ps[0].name, p.name) {
      var tail := Insert(p, ps[1..]);
      InsertSorted(p, ps[1..]);
      forall j | 0 < j < |r| ensures !Less(r[j].name, r[0].name) {
        assert r[j] == tail[j - 1];
        InsertPermutes(p, ps[1..]);
        assert r[j] in multiset(ps[1..]) + multiset{p};
        if r[j] == p {
          LessAsymmetric(ps[0].name, p.name);
        } else {
          var k :| 0 <= k < |ps[1..]| && ps[1..][k] == r[j];
          assert r[j] == ps[k + 1];
        }
      }
    } else if ps != [] {
      forall j | 0 < j < |r| ensures !Less(r[j].name, p.name) {
        assert r[j] == ps[j - 1];
        if j > 1 {
          assert !Less(ps[j - 1].name, ps[0].name);
        } else {
          LessIrreflexive(ps[0].name);
        }
        NotLessTransitive(p.name, ps[0].name, ps[j - 1].name);
      }
    }
  }

  /** "Not below" is transitive. */
  lemma {:induction false} NotLessTransitive(a: string, b: string, c: string)
    requires !Less(b, a) && !Less(c, b)
    ensures !Less(c, a)
  {
    LessTotal(a, b);
    LessTotal(b, c);
    if Less(a, b) && Less(b, c) {
      LessTransitive(a, b, c);
      LessAsymmetric(a, c);
    } else if Less(a, b) {
      LessAsymmetric(a, b);
    } else if a == b && Less(b, c) {
      LessAsymmetric(b, c);
    } else {
      LessIrreflexive(a);
    }
  }

  /** Insertion keeps the names unique when the inserted name is new. */
  lemma {:induction false} InsertNames(p: Prop, ps: seq<Prop>)
    requires UniqueNames(ps) && p.name !in Names(ps)
    ensures UniqueNames(Insert(p, ps))
    ensures forall n :: n in Names(Insert(p, ps)) <==> n == p.name || n in Names(ps)
  {
    var r := Insert(p, ps);
    if ps != [] && Less(ps[0].name, p.name) {
      assert p.name !in Names(ps[1..]) by {
        assert Names(ps) == [ps[0].name] + Names(ps[1..]);
      }
      InsertNames(p, ps[1..]);
      assert r[1..] == Insert(p, ps[1..]);
      assert Names(r) == [ps[0].name] + Names(r[1..]);
      assert Names(ps) == [ps[0].name] + Names(ps[1..]);
    } else if ps != [] {
      assert r[1..] == ps;
      assert Names(r) == [p.name] + Names(ps);
    }
  }

  /**
   * The table in ascending name order. With unique names this is the order
   * that sorting `keySet` and looking each name up yields.
   */
  function SortByName(ps: seq<Prop>): (r: seq<Prop>)
    ensures |r| == |ps|
  {
    if ps == [] then [] else Insert(ps[0], SortByName(ps[1..]))
  }

  /** Sorting rearranges the table and loses nothing. */
  lemma {:induction false} SortByNamePermutes(ps: seq<Prop>)
    ensures multiset(SortByName(ps)) == multiset(ps)
  {
    if ps != [] {
      assert ps == [ps[0]] + ps[1..];
      SortByNamePermutes(ps[1..]);
      InsertPermutes(ps[0], SortByName(ps[1..]));
    }
  }

  /** Sorting yields ascending names, and a map stays a map. */
  lemma {:induction false} SortByNameSorted(ps: seq<Prop>)
    ensures SortedByName(SortByName(ps))
    ensures UniqueNames(ps) ==> UniqueNames(SortByName(ps))
    ensures forall n :: n in Names(SortByName(ps)) <==> n in Names(ps)
  {
    if ps != [] {
      SortByNameSorted(ps[1..]);
      InsertSorted(ps[0], SortByName(ps[1..]));
      assert Names(ps) == [ps[0].name] + Names(ps[1..]);
      if UniqueNames(ps) {
        InsertNames(ps[0], SortByName(ps[1..]));
      } else {
        forall n ensures n in Names(SortByName(ps)) <==> n in Names(ps) {
          InsertHasNames(ps[0], SortByName(ps[1..]), n);
        }
      }
    }
  }

  lemma {:induction false} InsertHasNames(p: Prop, ps: seq<Prop>, n: string)
    ensures n in Names(Insert(p, ps)) <==> n == p.name || n in Names(ps)
  {
    var r := Insert(p, ps);
    if ps != [] && Less(ps[0].name, p.name) {
      InsertHasNames(p, ps[1..], n);
      assert r[1..] == Insert(p, ps[1..]);
      assert Names(r) == [ps[0].name] + Names(r[1..]);
      assert Names(ps) == [ps[0].name] + Names(ps[1..]);
    } else if ps != [] {
      assert r[1..] == ps;
      assert Names(r) == [p.name] + Names(ps);
    }
  }

  /**
   * A table with unique names has exactly one ascending arrangement: two
   * sorted lists with the same entries are equal.
   */
  lemma {:induction false} SortedUnique(a: seq<Prop>, b: seq<Prop>)
    requires SortedByName(a) && SortedByName(b)
    requires UniqueNames(a)
    requires multiset(a) == multiset(b)
    ensures a == b
    decreases |a|
  {
    assert |a| == |multiset(a)| == |b|;
    if a != [] {
      SortedHeads(a, b);
      MultisetTail(a, b);
      SortedTail(a);
      SortedTail(b);
      SortedUnique(a[1..], b[1..]);
      assert a == [a[0]] + a[1..] && b == [b[0]] + b[1..];
    }
  }

  lemma MultisetTail(a: seq<Prop>, b: seq<Prop>)
    requires a != [] && b != [] && a[0] == b[0]
    requires multiset(a) == multiset(b)
    ensures multiset(a[1..]) == multiset(b[1..])
  {
    assert a == [a[0]] + a[1..];
    assert b == [b[0]] + b[1..];
    assert multiset(a) == multiset{a[0]} + multiset(a[1..]);
    assert multiset(b) == multiset{b[0]} + multiset(b[1..]);
    assert multiset(a[1..]) == multiset(a) - multiset{a[0]};
    assert multiset(b[1..]) == multiset(b) - multiset{b[0]};
  }

  lemma SortedTail(a: seq<Prop>)
    requires SortedByName(a) && a != []
    ensures SortedByName(a[1..])
  {
  }

  lemma SortedHeads(a: seq<Prop>, b: seq<Prop>)
    requires SortedByName(a) && SortedByName(b)
    requires UniqueNames(a)
    requires multiset(a) == multiset(b)
    requires a != [] && b != []
    ensures a[0] == b[0]
  {
    assert a[0] in multiset(b) && b[0] in multiset(a);
    var k :| 0 <= k < |b| && b[k] == a[0];
    var j :| 0 <= j < |a| && a[j] == b[0];
    LessIrreflexive(a[0].name);
    LessIrreflexive(b[0].name);
    assert !Less(a[j].name, a[0].name);
    assert !Less(b[k].name, b[0].name);
    LessTotal(a[0].name, b[0].name);
    if j != 0 {
      UniqueNamesAt(a, 0, j);
    }
  }

  /**
   * Sorting the same table, discovered in two different orders, gives one
   * result: the output order does not depend on discovery order.
   */
  lemma SortIgnoresDiscoveryOrder(ps: seq<Prop>, qs: seq<Prop>)
    requires UniqueNames(ps)
    requires multiset(ps) == multiset(qs)
    ensures SortByName(ps) == SortByName(qs)
  {
    SortByNameSorted(ps);
    SortByNameSorted(qs);
    SortByNamePermutes(ps);
    SortByNamePermutes(qs);
    SortedUnique(SortByName(ps), SortByName(qs));
  }
}
