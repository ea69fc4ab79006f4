# LoggerUtil dumper, modelled in Dafny

LoggerUtil renders any Java object as JSON-like text for log messages:
- `null` becomes `null`.
- Boxed booleans, bytes, characters, shorts, ints, longs and floats become their `toString` text.
- Arrays and `Iterable`s become `[...]`.
- Maps become a list of `{"key":…,"value":…}` pairs.
- Every other object becomes `{...}`. Its members come from its public no-argument getters (`GETTER_PATTERN`, `^(get|is)([A-Z]+)(.+)$`) and its public fields, sorted by name.
- A class that declares its own `toString` is rendered as that text, escaped by `quote` and put in double quotes.

In debug mode, children go on their own lines, indented by `repeat(indentStr, depth)`, and a space follows each colon.

The model has these modules:

- `LoggerUtil` (logger_util.dfy): the recursive `dump`. Reflection is replaced by an inductive `Value`. An object carries what `getMethods()` and `getFields()` report, in order, what each getter call and field read yields, and its `toString` text. Also in this file:
  - the method scan and the field scan;
  - the `KV` pair object;
  - the bracketed block shared by arrays and objects, with its `StringBuilder` method.
- `Text` (text.dfy): `quote`, `repeat` (a loop method), `joinTo` (a loop method) and the `Join` function that specifies it.
- `Props` (props.dfy): `fieldMap`, an association list with `put` and `get`; `String.compareTo`; and `Collections.sort` over the names.
- `Getter` (getter.dfy): `GETTER_PATTERN` and the property name built from its groups.
- `Objects`, `Containers`, `Layouts`, `Debug` (objects.dfy, containers.dfy, layouts.dfy, debug.dfy): what the source promises about objects, containers and maps, compact output, and debug output.
- `Fixtures` (fixtures.dfy): the unit test's `TestClass` and `Hoge` as values, with the compact texts the unit test expects.
- `DebugFixtures` (fixtures_debug.dfy): debug output as lines, and the debug text the unit test expects for `Hoge`.

`joinTo` reads `items.get(items.size() - 1)` after its loop. For an empty list that index is -1, so the read throws `IndexOutOfBoundsException`. No catch clause in `dump` catches it, so the whole dump fails. The model follows the code here:
- an empty array, iterable or map, and an object with no members, are not rendered as `[]` or `{}`;
- they produce `OutOfBounds`, and every enclosing dump propagates it.

## Model

| member | source | states |
|---|---|---|
| Text.Quote | src/main/java/LoggerUtil.java:204-206 | a string with neither a backslash nor a double quote comes back unchanged; the escaping itself is stated by `Text.QuoteIsSinglePass`, `Text.QuoteLength` and `Text.UnescapeQuote` |
| Text.QuoteIsSinglePass | src/main/java/LoggerUtil.java:204-206 | the two `replace` passes of `quote` equal escaping each character once: the backslash added before a `"` is never doubled |
| Text.QuoteLength | src/main/java/LoggerUtil.java:204-206 | `quote` adds exactly one character per backslash and one per double quote |
| Text.UnescapeQuote | src/main/java/LoggerUtil.java:204-206 | reading the escapes back gives the original string, so `quote` loses nothing |
| Text.QuoteChars | src/main/java/LoggerUtil.java:204-206 | `quote` adds no character except `\` and `"` |
| Text.Repeat | src/main/java/LoggerUtil.java:250-256 | the repetition is empty exactly when the count is not positive or the string is empty; its length and characters are stated by `Text.RepeatLength` and `Text.RepeatChars` |
| Text.RepeatLoop | src/main/java/LoggerUtil.java:250-256 | the builder loop returns `count` copies of `str`, and nothing when `count <= 0` |
| Text.RepeatLength | src/main/java/LoggerUtil.java:250-256 | `repeat`'s result is `count * \|str\|` long, or empty for a non-positive count |
| Text.RepeatSplit | src/main/java/LoggerUtil.java:250-256 | `a + b` copies are `a` copies followed by `b` copies |
| Text.RepeatChars | src/main/java/LoggerUtil.java:250-256 | every character of a repetition comes from the repeated string |
| Text.Join | src/main/java/LoggerUtil.java:234-241 | the text `joinTo` appends, with no contract of its own: `Text.JoinTo`, `Text.JoinIsTerminatedThenLast`, `Text.JoinAppend` and `Text.JoinLength` state what it is |
| Text.JoinTo | src/main/java/LoggerUtil.java:234-241 | `joinTo` appends the items to the builder with the delimiter between consecutive items and none after the last; an empty list throws |
| Text.JoinIsTerminatedThenLast | src/main/java/LoggerUtil.java:235-240 | the join is the loop's "item, delimiter" rounds over all items but the last, followed by the last item |
| Text.JoinAppend | src/main/java/LoggerUtil.java:234-241 | joining two non-empty lists gives the two joins with one delimiter between them |
| Text.JoinLength | src/main/java/LoggerUtil.java:234-241 | the joined length is the sum of the item lengths plus one delimiter per gap |
| Props.Get | src/main/java/LoggerUtil.java:186 | `get` finds a value exactly when the table has the name, and the value is stored under that name |
| Props.Put | src/main/java/LoggerUtil.java:150-153 | `HashMap.put` on the property table, with no contract of its own: `Props.PutGet`, `Props.PutUnique` and `Props.PutNames` state what it does |
| Props.PutGet | src/main/java/LoggerUtil.java:150-153 | after `put(name, text)`, `name` maps to `text` and every other name keeps its value |
| Props.PutUnique | src/main/java/LoggerUtil.java:150-153 | `put` keeps the table's names unique, as a `HashMap`'s keys are |
| Props.PutNames | src/main/java/LoggerUtil.java:150-153 | `put` keeps the order of the names already held, and appends a name the table did not hold |
| Props.Less | src/main/java/LoggerUtil.java:181 | `String.compareTo`'s order on names: a proper prefix sorts before the longer string, and no string sorts before one of its own prefixes; the order laws are the four lemmas below |
| Props.LessIrreflexive | src/main/java/LoggerUtil.java:181 | no name sorts before itself under `String.compareTo` |
| Props.LessTransitive | src/main/java/LoggerUtil.java:181 | the name order is transitive |
| Props.LessTotal | src/main/java/LoggerUtil.java:181 | of two different names, one sorts before the other |
| Props.LessAsymmetric | src/main/java/LoggerUtil.java:181 | if `a` sorts before `b`, `b` does not sort before `a` |
| Props.InsertPermutes | src/main/java/LoggerUtil.java:181 | one insertion step adds exactly the inserted entry |
| Props.InsertSorted | src/main/java/LoggerUtil.java:181 | inserting into a sorted table keeps it sorted |
| Props.InsertNames | src/main/java/LoggerUtil.java:181 | inserting a new name keeps names unique and adds exactly that name |
| Props.SortByName | src/main/java/LoggerUtil.java:180-181 | `Collections.sort` over the names, keeping the table's length; `Props.SortByNamePermutes` and `Props.SortByNameSorted` state that it is the sorted permutation |
| Props.SortByNamePermutes | src/main/java/LoggerUtil.java:180-181 | sorting the names returns a permutation of the table |
| Props.SortByNameSorted | src/main/java/LoggerUtil.java:180-181 | the sorted table is in ascending name order, keeps names unique, and holds the same names |
| Props.SortedUnique | src/main/java/LoggerUtil.java:180-181 | two name-sorted permutations of a table with unique names are equal |
| Props.SortIgnoresDiscoveryOrder | src/main/java/LoggerUtil.java:180-182 | the output order does not depend on the order in which getters and fields filled the `HashMap` |
| Getter.PropertyName | src/main/java/LoggerUtil.java:144-148 | a produced name is as long as the method name without its `get`/`is` prefix, is at least two characters long and starts with a lower-case letter; `Getter.PropertyNameMatches` states it is the pattern's groups |
| Getter.PropertyNameMatches | src/main/java/LoggerUtil.java:144-148 | `PropertyName` yields a name exactly when the whole name matches `GETTER_PATTERN`; the name is group 2 lower-cased plus group 3, where group 2 is the longest capital run any match allows |
| Getter.MatchIsGreedy | src/main/java/LoggerUtil.java:28 | every match has the `get`/`is` prefix the model finds, and no more capitals than the greedy run |
| Getter.GreedyMatches | src/main/java/LoggerUtil.java:144-145 | when a name is produced, the greedy split is a match of the pattern |
| Getter.PropertyNameChars | src/main/java/LoggerUtil.java:148 | a property name contains only characters of the method name and lower-case letters |
| Getter.PropertyNameGetters | src/test/java/LoggerUtilTest.java:18-20 | `getF2` and `getF7` give the properties `f2` and `f7` |
| Getter.PropertyNameIsGetter | src/test/java/LoggerUtilTest.java:22 | `isF4` gives the property `f4` |
| Getter.PropertyNameAllCapitals | src/main/java/LoggerUtil.java:28 | a capital run with nothing after it gives back its last capital: `getURL` gives `urL` |
| Getter.PropertyNameRejects | src/main/java/LoggerUtil.java:144-147 | `getX`, `isY` (nothing after the capital), `getter` (no capital) and `toString` are not getters |
| LoggerUtil.DumpDefault | src/main/java/LoggerUtil.java:46-48 | `dump(o)`, with no contract of its own: `Layouts.DumpDefaultIsCompact` states it is `dump(o, false)` under any line separator |
| LoggerUtil.DumpWith | src/main/java/LoggerUtil.java:57-59 | `dump(o, debug)`: the four-argument dump with a tab as indent unit at depth 1; `Fixtures.HogeCompact` and `DebugFixtures.HogeDebug` state its texts for the unit test's `Hoge` |
| LoggerUtil.Dump | src/main/java/LoggerUtil.java:71-196 | the four-argument `dump` by cases on the value, with no contract of its own: `Containers.SeqDump`, `Containers.MapAsKVList`, `Objects.ObjectMembersSorted`, `Objects.ToStringEarlyExit`, `Layouts.CompactDump` and `Debug.DebugDump` state what it returns |
| LoggerUtil.DumpObject | src/main/java/LoggerUtil.java:124-195 | the object branch: the method scan, the field scan, then the sorted block or the quoted `toString` text; stated by `Objects.ObjectMembersSorted`, `Objects.ToStringEarlyExit` and `Objects.ThrowingGetterEndsDump` |
| LoggerUtil.ScanMethods | src/main/java/LoggerUtil.java:126-158 | the loop over `getMethods()`, with no contract of its own: `Objects.ScanOutcome`, `Objects.ScanGathers` and `Objects.InertMethodIgnored` state what it finds |
| LoggerUtil.ScanFields | src/main/java/LoggerUtil.java:159-173 | the loop over `getFields()`, with no contract of its own: `Objects.ScanFieldsThrows`, `Objects.ScanFieldsSpec` and `Objects.InertFieldIgnored` state what it adds |
| LoggerUtil.KV | src/main/java/LoggerUtil.java:30-38 | the `KV` object as a value with the public fields `key` and `value`; `Containers.KVDump` states how it renders |
| LoggerUtil.PairBlock | src/main/java/LoggerUtil.java:106-114 | the text of the `KV` built from an entry; `Containers.KVDump` and `Containers.DumpEntryIsKV` state that it is the `KV`'s object block |
| LoggerUtil.DumpEntries | src/main/java/LoggerUtil.java:109-113 | the texts of a map's entries; `Containers.DumpEntriesPairs` and `Containers.EntriesAsKVList` state them |
| LoggerUtil.DumpEntry | src/main/java/LoggerUtil.java:110-111 | one entry's text; `Containers.DumpEntryIsKV` states it is the dump of the `KV` built from it |
| LoggerUtil.Member | src/main/java/LoggerUtil.java:183-187 | one member after the indentation: it opens with a double quote and ends with the member's value text |
| LoggerUtil.Block | src/main/java/LoggerUtil.java:93-104 | a block renders exactly when it has a child; in compact mode it is the open bracket, the children joined by commas, and the close bracket |
| LoggerUtil.AppendBlock | src/main/java/LoggerUtil.java:93-104 | the `StringBuilder` code has these steps: bracket; line break in debug mode; children prefixed by `repeat(indentStr, indent)` and passed to `joinTo`; closing indentation; bracket. Its result equals the `Block` specification |
| LoggerUtil.DumpAll | src/main/java/LoggerUtil.java:98-100 | the element list exists exactly when every element renders, and then it holds each element's text, in order |
| Objects.ScanOutcome | src/main/java/LoggerUtil.java:126-158 | the method scan goes through every method exactly when no method stops it. It ends at `toString` exactly when a scanned `toString` comes before every getter whose result throws |
| Objects.ToStringEarlyExit | src/main/java/LoggerUtil.java:137-143 | a class's own `toString`, reached before any throwing getter, makes the whole result that text, quoted and escaped |
| Objects.ThrowingGetterEndsDump | src/main/java/LoggerUtil.java:149-157 | a getter whose result throws when dumped, reached before `toString`, makes the whole dump throw: the catch list does not cover that exception |
| Objects.ScanGathers | src/main/java/LoggerUtil.java:144-158 | a name no getter yields keeps its old value. The last getter yielding a name decides its value, which is its result dumped one level deeper. Names stay unique |
| Objects.InertMethodIgnored | src/main/java/LoggerUtil.java:127-157 | a method that is declared by `Object`, not public, static, takes parameters, has no getter-style name or throws on invocation changes nothing |
| Objects.ScanFieldsThrows | src/main/java/LoggerUtil.java:159-173 | the field scan throws exactly when a field it dumps throws |
| Objects.ScanFieldsSpec | src/main/java/LoggerUtil.java:159-173 | a getter's value wins over a field of the same name. Each field used holds its value dumped one level deeper. No other name is added, and names stay unique |
| Objects.InertFieldIgnored | src/main/java/LoggerUtil.java:160-172 | a non-public, static or unreadable field changes nothing |
| Objects.ObjectMembersSorted | src/main/java/LoggerUtil.java:178-195 | an object renders as the block of its members in ascending name order, whatever order they were found in. It throws exactly when it has no member |
| Containers.SeqDump | src/main/java/LoggerUtil.java:76-104 | an array or iterable renders exactly when it is non-empty and every element renders. Its text is then the block of the element texts, each dumped one level deeper, in order |
| Containers.SeqCompact | src/main/java/LoggerUtil.java:93-104 | a compact array is `[`, then the element texts joined by commas, then `]` |
| Containers.DumpEntriesPairs | src/main/java/LoggerUtil.java:106-113 | a map's entries become their pair blocks in `entrySet` order, exactly when every key and value renders |
| Containers.KVDump | src/main/java/LoggerUtil.java:30-38 | a `KV` renders as its `key` and `value` members, in that order, and throws when either throws |
| Containers.DumpEntryIsKV | src/main/java/LoggerUtil.java:110-111 | an entry renders as the `KV` object built from it |
| Containers.EntriesAsKVList | src/main/java/LoggerUtil.java:109-113 | the entry texts are the element texts of the `kvList` |
| Containers.MapAsKVList | src/main/java/LoggerUtil.java:106-114 | a map is rendered as the list of its `KV` pairs, dumped one level deeper |
| Containers.EmptyContainersThrow | src/main/java/LoggerUtil.java:240 | an empty array, iterable or map throws instead of rendering `[]` |
| Containers.ThrowingElementThrows | src/main/java/LoggerUtil.java:98-100 | one element that throws makes the whole array throw |
| Layouts.CompactDump | src/main/java/LoggerUtil.java:71-196 | with debug off, the result depends neither on the indent unit, the line separator nor the depth |
| Layouts.DumpDefaultIsCompact | src/main/java/LoggerUtil.java:46-48 | `dump(o)` is `dump(o, false)` under any line separator |
| Debug.DebugDump | src/main/java/LoggerUtil.java:178-195 | at any depths, removing layout characters from the debug dump of a clean value gives its compact dump. One throws exactly when the other does |
| Debug.DebugIsCompactWithLayout | src/main/java/LoggerUtil.java:57-59 | `dump(o, true)` is `dump(o, false)` plus tabs, line separators and spaces after colons |
| Fixtures.TestClassMethods | src/test/java/LoggerUtilTest.java:18-39 | the method scan of `TestClass` finds `f2`, `f4` and `f7` and skips the static `getX` and `isY` |
| Fixtures.TestClassFields | src/test/java/LoggerUtilTest.java:16-34 | the field scan adds `f1`, `f3`, `f5` and `f6` after the getters; the private `f2` is not among `getFields()` and is a property only through `getF2` |
| Fixtures.SortDiscovered | src/main/java/LoggerUtil.java:180-181 | sorting the `TestClass` table gives `f1` through `f7` |
| Fixtures.TestClassCompact | src/test/java/LoggerUtilTest.java:50 | a `TestClass` renders compactly, at any depth, to the text the unit test expects for it |
| Fixtures.HogeCompact | src/test/java/LoggerUtilTest.java:49-51 | `dump(new Hoge(), false)` is `{"tc1":…,"tc2":…}` with that `TestClass` text twice |
| Fixtures.TwoTestClassesCompact | src/test/java/LoggerUtilTest.java:57-69 | an array and a list of two `TestClass` objects render as the expected `[…,…]` |
| Fixtures.TestMapCompact | src/test/java/LoggerUtilTest.java:76-81 | the map whose `entrySet` yields `b` first renders as the expected list of `key`/`value` pairs |
| DebugFixtures.PrependFirst | src/main/java/LoggerUtil.java:96-99 | text put in front of a child's multi-line text goes in front of its first line |
| DebugFixtures.AppendLast | src/main/java/LoggerUtil.java:101 | text put after a child's multi-line text ends its last line |
| DebugFixtures.JoinGroups | src/main/java/LoggerUtil.java:101 | joining multi-line child texts with a comma and a line separator puts each comma at the end of that child's last line |
| DebugFixtures.DebugBlock | src/main/java/LoggerUtil.java:93-104 | a debug block is the opening bracket's line, then each child's lines with the first one indented and a comma after every child but the last, then the closing bracket behind the enclosing level's indentation |
| DebugFixtures.MemberLines | src/main/java/LoggerUtil.java:183-187 | a debug member whose value spans several lines has `"name": ` in front of the value's first line |
| DebugFixtures.F5Debug | src/test/java/LoggerUtilTest.java:93-98 | in debug mode at depth 3, `f5` puts each element on its own line behind three tabs and its closing bracket behind two |
| DebugFixtures.F6Debug | src/test/java/LoggerUtilTest.java:99-104 | the same for `f6`, each string quoted |
| DebugFixtures.F7Debug | src/test/java/LoggerUtilTest.java:105-109 | the same for `f7` |
| DebugFixtures.TestClassDebug | src/test/java/LoggerUtilTest.java:88-110 | a `TestClass` at depth 2 in debug mode is its brace, its members sorted by name behind two tabs with the lines the unit test lists, and its closing brace behind one tab |
| DebugFixtures.HogeDebug | src/test/java/LoggerUtilTest.java:85-135 | `dump(new Hoge(), true)` is the unit test's expected text, its lines separated by the line separator, whatever that separator is |

## Left out

- Reflection: `getClass`, `getMethods`, `getFields`, `Method.invoke` and `Field.get` are replaced by the `Value` description. The model does not decide which classes are arrays, iterables, maps or boxed scalars. Their order is given in the value.
- The primitive-class branch (`String.valueOf(c)`) is not modelled. A value passed as `Object` is never of a primitive class.
- `wrap` is not modelled. It only chooses the component type of the copied array; elements come out boxed either way.
- `Double` is not a scalar in the source's list. It is dumped as an object, which a `Value` can describe. Number formatting is whatever `toString` returns, given as text.
- The key of a getter's `KV` (its return type and method name) is never read. Only the value is kept.
- `toString` returning `null` (a `NullPointerException` inside `quote`) is not modelled. The `toString` text is a string.
- Exceptions thrown by the dumped object's own code where no catch clause covers them end the whole dump in the source: `toString` (src/main/java/LoggerUtil.java:140), the iterator's `iterator`, `hasNext` and `next` (src/main/java/LoggerUtil.java:86-89), and a map's `entrySet` (src/main/java/LoggerUtil.java:110). The model does not represent them: the `toString` text, the elements and the entries are given in the value.
- A `SecurityException` from the reflection calls, which leaves the property table partly filled, is not modelled.
- A getter or field read that fails with a caught exception is given as None in the value, and the scan skips it.
- Cyclic object graphs (which overflow the stack) are not modelled. A `Value` is finite.
- The line separator is a parameter rather than `System.lineSeparator()`.
- `toLowerCase` is modelled for ASCII capitals, the only characters group 2 holds. Locale-specific lowering is not modelled.
- `String.compareTo` compares UTF-16 code units. The model compares Unicode characters, so names with characters beyond the Basic Multilingual Plane may sort differently.
- `HashMap` iteration order is not modelled. The `entrySet` order of a map is part of the value, and the property table is sorted before output.
- Fixtures.TestClassMethods: a `String` is described by its one `toString` method. A real `String` also has getters such as `getBytes` and `isEmpty`, and their results are discarded when `toString` ends the scan. For the empty string, `getBytes` yields an empty array, whose dump throws if it comes before `toString`.
- Debug.DebugIsCompactWithLayout: stated for values whose own texts contain no layout character. Otherwise stripping would also remove characters from the data.
