/**
 * LoggerUtil's recursive dumper: any value becomes JSON-like text.
 *
 * Reflection is replaced by an inductive description of the value. An
 * object carries what `getMethods()` and `getFields()` would report about
 * its class, in that order, together with what invoking each getter and
 * reading each field yields (None when the call fails with one of the
 * caught exceptions), and the text its `toString()` returns.
 *
 * The only failure the model represents is `joinTo` reading index -1 of an
 * empty item list: an `IndexOutOfBoundsException` that no catch clause of
 * `dump` catches, so it ends the whole dump. That is `OutOfBounds` here.
 * Exceptions thrown by the object's own code outside every catch list
 * (`toString`, an iterator, `entrySet`) are not represented.
 */
module LoggerUtil {
  import opened Wrappers
  import opened Text
  import opened Props
  import opened Getter

  /** What `dump` is given, with its class's reflective view made explicit. */
  datatype Value =
    | Null
      /** Boolean, Byte, Character, Short, Integer, Long or Float: the text of its `toString` */
    | Scalar(text: string)
      /** an array or an Iterable, elements in iteration order */
    | Seq(elems: seq<Value>)
      /** a Map, entries in `entrySet` order */
    | MapV(entries: seq<Entry>)
      /** anything else: `toString()`'s text, then `getMethods()` and `getFields()` in order */
    | Obj(asString: string, methods: seq<Method>, fields: seq<Field>)

  datatype Entry = Entry(key: Value, value: Value)

  /**
   * A method of the object's class: its name, modifiers, parameter count,
   * whether `Object` declares it, and what invoking it on the object
   * returns (None when the invocation throws).
   */
  datatype Method = Method(name: string, isPublic: bool, isStatic: bool, arity: nat,
                           declaredByObject: bool, result: Option<Value>)

  /** A field of the object's class and what reading it yields (None when the read throws). */
  datatype Field = Field(name: string, isPublic: bool, isStatic: bool, read: Option<Value>)

  /** The indent unit, the line separator and the debug switch of one dump. */
  datatype Layout = Layout(indentStr: string, eol: string, debug: bool)

  /** A rendered text, or the exception thrown by `joinTo` on an empty list. */
  datatype Outcome = Ok(text: string) | OutOfBounds

  /** How the method scan of an object ended. */
  datatype Scan =
    | Found(props: seq<Prop>)   // ran through every method
    | ToString                  // met the class's own `toString`
    | Thrown                    // dumping a getter's result threw

  // ---------------------------------------------------------------------
  // Entry points
  // ---------------------------------------------------------------------

  /** `dump(o, debug)`: indent unit one tab, depth 1. */
  function DumpWith(v: Value, debug: bool, eol: string): Outcome
  {
    Dump(v, Layout("\t", eol, debug), 1)
  }

  /**
   * `dump(o)`, which is `dump(o, false)`: compact output never contains the
   * line separator, so none is needed here.
   */
  function DumpDefault(v: Value): Outcome
  {
    DumpWith(v, false, "")
  }

  // ---------------------------------------------------------------------
  // Formatting
  // ---------------------------------------------------------------------

  /** The indentation in front of every child: `repeat(indentStr, indent)` in debug mode. */
  function Prefix(layout: Layout, indent: int): string
  {
    if layout.debug then Repeat(layout.indentStr, indent) else ""
  }

  /** The delimiter handed to `joinTo`: a comma, and a line break in debug mode. */
  function Delimiter(layout: Layout): string
  {
    "," + (if layout.debug then layout.eol else "")
  }

  function Prefixed(items: seq<string>, prefix: string): (r: seq<string>)
    ensures |r| == |items|
    ensures forall k :: 0 <= k < |items| ==> r[k] == prefix + items[k]
  {
    seq(|items|, k requires 0 <= k < |items| => prefix + items[k])
  }

  /**
   * The bracketed block shared by arrays and objects: `open`, a line break
   * in debug mode, the prefixed children joined by `joinTo`, then in debug
   * mode a line break and the indentation of depth `indent - 1`, and
   * `close`. With no children `joinTo` throws.
   */
  function Block(open: string, close: string, items: seq<string>, layout: Layout, indent: int): (r: Outcome)
    ensures r.Ok? <==> items != []
    ensures !layout.debug && items != [] ==> r == Ok(open + Join(items, ",") + close)
  {
    if items == [] then OutOfBounds
    else
      var opening := open + (if layout.debug then layout.eol else "");
      var closing := (if layout.debug then layout.eol + Repeat(layout.indentStr, indent - 1) else "") + close;
      var lines := Prefixed(items, Prefix(layout, indent));
      assert !layout.debug ==> lines == items && opening == open && closing == close && Delimiter(layout) == "," by {
        if !layout.debug {
          assert forall k :: 0 <= k < |items| ==> lines[k] == items[k] by {
            forall k | 0 <= k < |items| ensures lines[k] == items[k] {
              assert lines[k] == "" + items[k];
            }
          }
        }
      }
      Ok(opening + Join(lines, Delimiter(layout)) + closing)
  }

  /**
   * The block as `dump` builds it: a `StringBuilder` that receives the
   * opening bracket, the prefixed children collected into a list and
   * handed to `joinTo`, the closing indentation and the closing bracket.
   */
  method AppendBlock(open: string, close: string, items: seq<string>, layout: Layout, indent: int)
    returns (r: Outcome)
    ensures r == Block(open, close, items, layout, indent)
  {
    var sb := open;
    if layout.debug {
      sb := sb + layout.eol;
    }
    var prefix := "";
    if layout.debug {
      prefix := RepeatLoop(layout.indentStr, indent);
    }
    var lines: seq<string> := [];
    for i := 0 to |items|
      invariant |lines| == i
      invariant forall k :: 0 <= k < i ==> lines[k] == prefix + items[k]
    {
      lines := lines + [prefix + items[i]];
    }
    assert lines == Prefixed(items, Prefix(layout, indent));
    var joined := JoinTo(sb, Delimiter(layout), lines);
    if joined.None? {
      return OutOfBounds;
    }
    sb := joined.value;
    if layout.debug {
      var closing := RepeatLoop(layout.indentStr, indent - 1);
      sb := sb + layout.eol + closing;
    }
    sb := sb + close;
    r := Ok(sb);
  }

  /**
   * One object member: `"name":` (a space after the colon in debug mode),
   * then the value. It opens with a double quote and ends with the value's text.
   */
  function Member(p: Prop, layout: Layout): (r: string)
    ensures |p.text| < |r| && r[0] == '"'
    ensures r[|r| - |p.text|..] == p.text
  {
    "\"" + Quote(p.name) + "\":" + (if layout.debug then " " else "") + p.text
  }

  function Members(ps: seq<Prop>, layout: Layout): (r: seq<string>)
    ensures |r| == |ps|
    ensures forall k :: 0 <= k < |ps| ==> r[k] == Member(ps[k], layout)
  {
    seq(|ps|, k requires 0 <= k < |ps| => Member(ps[k], layout))
  }

  // ---------------------------------------------------------------------
  // dump
  // ---------------------------------------------------------------------

  /** `dump(o, indentStr, indent, debug)` */
  function Dump(v: Value, layout: Layout, indent: int): Outcome
    decreases v, 1
  {
    match v
    case Null => Ok("null")
    case Scalar(t) => Ok(t)
    case Seq(elems) =>
      (match DumpAll(elems, layout, indent + 1)
       case None => OutOfBounds
       case Some(items) => Block("[", "]", items, layout, indent))
    case MapV(entries) =>
      // the list of key/value pairs is dumped one level deeper
      (match DumpEntries(entries, layout, indent + 2)
       case None => OutOfBounds
       case Some(items) => Block("[", "]", items, layout, indent + 1))
    case Obj(_, _, _) => DumpObject(v, layout, indent)
  }

  /**
   * An object: the method scan, then the field scan, then its members in
   * ascending name order; or its own `toString` text, quoted.
   */
  function DumpObject(v: Value, layout: Layout, indent: int): Outcome
    requires v.Obj?
    decreases v, 0
  {
    match ScanMethods(v.methods, layout, indent, [])
    case Thrown => OutOfBounds
    case ToString => Ok("\"" + Quote(v.asString) + "\"")
    case Found(props) =>
      match ScanFields(v.fields, layout, indent, props)
      case None => OutOfBounds
      case Some(all) => Block("{", "}", Members(SortByName(all), layout), layout, indent)
  }

  /**
   * The elements of an array or iterable, each dumped at `indent`, in
   * order; None as soon as one of them throws.
   */
  function DumpAll(es: seq<Value>, layout: Layout, indent: int): (r: Option<seq<string>>)
    ensures r.Some? <==> forall k :: 0 <= k < |es| ==> Dump(es[k], layout, indent).Ok?
    ensures r.Some? ==> |r.value| == |es|
    ensures r.Some? ==> forall k :: 0 <= k < |es| ==> Dump(es[k], layout, indent) == Ok(r.value[k])
    decreases es
  {
    if es == [] then Some([])
    else
      match Dump(es[0], layout, indent)
      case OutOfBounds => None
      case Ok(first) =>
        match DumpAll(es[1..], layout, indent)
        case None => None
        case Some(rest) => Some([first] + rest)
  }

  /**
   * The entries of a map, each as the `KV` pair object it becomes, dumped
   * at `indent`: key and value dumped at `indent + 1`.
   */
  function DumpEntries(es: seq<Entry>, layout: Layout, indent: int): Option<seq<string>>
    decreases es
  {
    if es == [] then Some([])
    else
      match DumpEntry(es[0], layout, indent)
      case None => None
      case Some(first) =>
        match DumpEntries(es[1..], layout, indent)
        case None => None
        case Some(rest) => Some([first] + rest)
  }

  /** One map entry as its `KV` pair object, dumped at `indent`. */
  function DumpEntry(e: Entry, layout: Layout, indent: int): Option<string>
    decreases e
  {
    match (Dump(e.key, layout, indent + 1), Dump(e.value, layout, indent + 1))
    case (Ok(k), Ok(x)) => Some(PairBlock(k, x, layout, indent))
    case _ => None
  }

  /**
   * A `KV` object: it has no methods of its own and the public fields `key`
   * and `value`, so it renders as those two members in name order.
   */
  function PairBlock(key: string, value: string, layout: Layout, indent: int): string
  {
    Block("{", "}", Members([Prop("key", key), Prop("value", value)], layout), layout, indent).text
  }

  /**
   * `new KV(key, value)` as `dump` sees it: every method it has is declared
   * by `Object`, and it has the two public fields `key` and `value`. What its
   * inherited `toString` returns is never read.
   */
  function KV(key: Value, value: Value): Value
  {
    Obj("", [], [Field("key", true, false, Some(key)), Field("value", true, false, Some(value))])
  }

  /** A method the scan looks at: not from `Object`, public, not static, no parameters. */
  predicate Scanned(m: Method)
  {
    !m.declaredByObject && m.isPublic && !m.isStatic && m.arity == 0
  }

  /**
   * The method scan of an object dumped at `indent`: each scanned getter's
   * result is dumped at `indent + 1` and put under its property name; a
   * scanned `toString` ends the scan, whatever was gathered.
   */
  function ScanMethods(ms: seq<Method>, layout: Layout, indent: int, acc: seq<Prop>): Scan
    decreases ms
  {
    if ms == [] then Found(acc)
    else
      var m := ms[0];
      if !Scanned(m) then ScanMethods(ms[1..], layout, indent, acc)
      else if m.name == "toString" then ToString
      else
        match PropertyName(m.name)
        case None => ScanMethods(ms[1..], layout, indent, acc)
        case Some(name) =>
          match m.result
          case None => ScanMethods(ms[1..], layout, indent, acc)
          case Some(x) =>
            match Dump(x, layout, indent + 1)
            case OutOfBounds => Thrown
            case Ok(s) => ScanMethods(ms[1..], layout, indent, Put(acc, name, s))
  }

  /** A field the scan looks at: public and not static. */
  predicate Readable(f: Field)
  {
    f.isPublic && !f.isStatic
  }

  /**
   * The field scan: each readable field whose name no getter (and no earlier
   * field) has claimed is dumped at `indent + 1` and put under its name.
   */
  function ScanFields(fs: seq<Field>, layout: Layout, indent: int, acc: seq<Prop>): Option<seq<Prop>>
    decreases fs
  {
    if fs == [] then Some(acc)
    else
      var f := fs[0];
      if !Readable(f) || Has(acc, f.name) then ScanFields(fs[1..], layout, indent, acc)
      else
        match f.read
        case None => ScanFields(fs[1..], layout, indent, acc)
        case Some(x) =>
          match Dump(x, layout, indent + 1)
          case OutOfBounds => None
          case Ok(s) => ScanFields(fs[1..], layout, indent, Put(acc, f.name, s))
  }
}
