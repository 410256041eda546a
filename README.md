# groovy-marc helpers, modelled in Dafny

This project models the helper classes of groovy-marc, a library that lets
Groovy code read and write MARC bibliographic records through path
expressions. Four pieces are modelled:

- **FieldInfo** and its **FieldInfoBuilder** (`field_info.dfy`, module
  `Schema`): the schema node for a MARC tag. A node holds a tag, a
  description, a repeatable flag that starts out true, and a map from subfield
  code to a child node. `isControlField` tests the tag against the MARC 21
  control tags "001" to "009". `getMarc4JClass` sorts a tag into control field,
  data field or subfield by its shape: three ASCII digits or not. The builder
  changes the node in place. `build()` returns that same live node.
- **NullDataField** (`null_data_field.dfy`, module `NullFields`): the
  placeholder returned for a data field that a record does not have. It keeps
  the record and the requested tag. It is false in a boolean context, every
  other read gives a fixed default, and every write is ignored.
- **StringBuilderWriter** (`string_builder_writer.dfy`, module `Writers`): an
  append-only character sink that is drained with `getAndReset` and then
  reused. It counts its drains in a Java `int`. The class follows `Step`, a
  function on (buffer, usage count). The lemmas describe any sequence of writes
  and drains.
- **SubfieldExtension.leftShift** (`subfield_extension.dfy`, module
  `SubfieldExtensions`): appends text to a subfield's data and returns the new
  data.

`marc4j.dfy` (module `Marc4j`) stands in for the external marc4j library. A
`Record` is an opaque reference. A `Subfield` is a mutable cell holding a code
and its data. `wrappers.dfy` holds `Option`, used for the strings and ids that Java may
leave null. References that may be null (a child node, a subfield, a record)
use Dafny's nullable class types, such as `FieldInfo?`.

`StringBuilderWriter` and `SubfieldExtension` exist twice in the repository,
under `src/main/groovy` and `src/main/java`, with identical bodies. One model
covers both copies. The table cites whichever copy the row was written from.

Points where the code is looser than its names and comments suggest, and
where the model follows the code:

- `build()` hands out the builder's own node, not a frozen copy. Later builder
  calls stay visible through it, as `BuildReturnsLiveNode` shows.
- `ExpressionType` lists five path-expression categories. None of the
  modelled classes maps anything to them, so no such mapping is modelled.
- Subfield codes are single characters in MARC, and `getSubfield(char)` looks
  them up as one-character strings. The map itself accepts any string as a
  key, and so does the model.
- MARC control fields have no subfields. `FieldInfoBuilder` does not enforce
  this for control tags, and neither does the model.

## Model

| member | source | states |
|---|---|---|
| `Schema.ControlTagsAreControlRange` | src/main/jaaaava/edu/ncsu/lib/marc/FieldInfo.java:36 | The nine listed control tags are exactly the strings of shape "00" followed by a digit 1-9. |
| `Schema.IsControlTag` | src/main/jaaaava/edu/ncsu/lib/marc/FieldInfo.java:36 | Membership in the control set holds exactly for the "00X" shape. Every control tag also matches `\d\d\d`. |
| `Schema.TagClass` | src/main/jaaaava/edu/ncsu/lib/marc/FieldInfo.java:34 | The result is a control field exactly for "00X" tags. It is a data field exactly for other three-ASCII-digit tags. It is a subfield exactly when the tag is not three ASCII digits. |
| `Schema.FieldInfo.constructor` | src/main/jaaaava/edu/ncsu/lib/marc/FieldInfo.java:38-44 | A new node has no tag, no description and no subfields, and is repeatable. |
| `Schema.FieldInfo.GetTag` | src/main/jaaaava/edu/ncsu/lib/marc/FieldInfo.java:46-48 | Reads only the tag and returns it; null (None) for a subfield node. |
| `Schema.FieldInfo.GetDescription` | src/main/jaaaava/edu/ncsu/lib/marc/FieldInfo.java:92-94 | Reads only the description and returns it; null (None) until one is set. |
| `Schema.FieldInfo.IsControlField` | src/main/jaaaava/edu/ncsu/lib/marc/FieldInfo.java:54-56 | Reads only the tag. True exactly when the tag is present and has the "00X" shape. |
| `Schema.FieldInfo.GetMarc4JClass` | src/main/jaaaava/edu/ncsu/lib/marc/FieldInfo.java:58-63 | Reads only the tag and requires it to be present. The answer is the tag's shape classification, and it is ControlField exactly when `IsControlField` holds. |
| `Schema.FieldInfo.IsRepeatable` | src/main/jaaaava/edu/ncsu/lib/marc/FieldInfo.java:65-67 | Reads only the repeatable flag and returns it. |
| `Schema.FieldInfo.GetSubfield` | src/main/jaaaava/edu/ncsu/lib/marc/FieldInfo.java:69-71 | Returns null exactly when the code was never registered, and otherwise the registered child. |
| `Schema.FieldInfo.GetSubfieldByChar` | src/main/jaaaava/edu/ncsu/lib/marc/FieldInfo.java:73-75 | Lookup by a character is lookup by the one-character string. |
| `Schema.FieldInfo.SetRepeatable` | src/main/jaaaava/edu/ncsu/lib/marc/FieldInfo.java:77-79 | Sets the flag and writes nothing else. |
| `Schema.FieldInfo.SetDescription` | src/main/jaaaava/edu/ncsu/lib/marc/FieldInfo.java:88-90 | Sets the description and writes nothing else. |
| `Schema.FieldInfo.AddSubField` | src/main/jaaaava/edu/ncsu/lib/marc/FieldInfo.java:81-86 | Puts a fresh child under the code, with no tag, no subfields, and the given flag and description. It replaces any earlier child for that code and keeps every other entry. The one-level invariant `Valid` is preserved. |
| `Schema.FieldInfoBuilder.constructor` | src/main/jaaaava/edu/ncsu/lib/marc/FieldInfo.java:104-107 | The builder's fresh node has the given tag, no description and no subfields, and is repeatable. |
| `Schema.FieldInfoBuilder.Build` | src/main/jaaaava/edu/ncsu/lib/marc/FieldInfo.java:109-111 | Returns the builder's own node, not a copy. |
| `Schema.FieldInfoBuilder.AddSubfield` | src/main/jaaaava/edu/ncsu/lib/marc/FieldInfo.java:119-122 | The code now maps to a fresh non-repeatable child with the description. Other codes, the node's tag and the node's flag are unchanged. Returns the builder. |
| `Schema.FieldInfoBuilder.AddRepeatableSubfield` | src/main/jaaaava/edu/ncsu/lib/marc/FieldInfo.java:134-137 | The same as `AddSubfield`, except that the child is repeatable. |
| `Schema.FieldInfoBuilder.MakeRepeatable` | src/main/jaaaava/edu/ncsu/lib/marc/FieldInfo.java:124-127 | The node becomes repeatable. Its tag and subfields are untouched. |
| `Schema.FieldInfoBuilder.MakeNonRepeatable` | src/main/jaaaava/edu/ncsu/lib/marc/FieldInfo.java:129-132 | The node becomes non-repeatable. Its tag and subfields are untouched. |
| `Schema.BuildTitleSchema` | src/main/jaaaava/edu/ncsu/lib/marc/FieldInfo.java:100-137 | Builds 245 as non-repeatable, with a non-repeatable "a" and a repeatable "9". Reading back gives a data field, non-repeatable 245 and "a", repeatable "9", and no "b". |
| `Schema.BuildReturnsLiveNode` | src/main/jaaaava/edu/ncsu/lib/marc/FieldInfo.java:109-132 | A `makeNonRepeatable` made after `build()` is seen through the node that `build()` returned. |
| `Schema.LaterCallsWin` | src/main/jaaaava/edu/ncsu/lib/marc/FieldInfo.java:81-86 | Registering a code twice keeps the later child and its description. The last repeatability call on the field decides the flag. |
| `NullFields.NullDataField.constructor` | src/main/java/edu/ncsu/lib/marc/NullDataField.java:33-36 | Keeps the record and the tag exactly as given. |
| `NullFields.NullDataField.AsBoolean` | src/main/java/edu/ncsu/lib/marc/NullDataField.java:42-44 | Always false. |
| `NullFields.NullDataField.SetId` | src/main/java/edu/ncsu/lib/marc/NullDataField.java:59-62 | Has no modifies clause, so it changes nothing. The id still reads as null. |
| `NullFields.NullDataField.GetId` | src/main/java/edu/ncsu/lib/marc/NullDataField.java:64-67 | Always null. |
| `NullFields.NullDataField.GetTag` | src/main/java/edu/ncsu/lib/marc/NullDataField.java:69-72 | Returns the tag given at construction. |
| `NullFields.NullDataField.SetTag` | src/main/java/edu/ncsu/lib/marc/NullDataField.java:74-77 | Changes nothing. The tag still reads as the constructed one. |
| `NullFields.NullDataField.Find` | src/main/java/edu/ncsu/lib/marc/NullDataField.java:79-82 | False for every pattern. |
| `NullFields.NullDataField.CompareTo` | src/main/java/edu/ncsu/lib/marc/NullDataField.java:84-87 | 0 for every argument. |
| `NullFields.NullDataField.GetIndicator1` | src/main/java/edu/ncsu/lib/marc/NullDataField.java:89-92 | Always char 0. |
| `NullFields.NullDataField.SetIndicator1` | src/main/java/edu/ncsu/lib/marc/NullDataField.java:94-97 | Changes nothing. Indicator 1 still reads as char 0. |
| `NullFields.NullDataField.GetIndicator2` | src/main/java/edu/ncsu/lib/marc/NullDataField.java:99-102 | Always char 0. |
| `NullFields.NullDataField.SetIndicator2` | src/main/java/edu/ncsu/lib/marc/NullDataField.java:104-107 | Changes nothing. Indicator 2 still reads as char 0. |
| `NullFields.NullDataField.GetSubfields` | src/main/java/edu/ncsu/lib/marc/NullDataField.java:113-116 | Always the empty list. |
| `NullFields.NullDataField.GetSubfieldsWithCode` | src/main/java/edu/ncsu/lib/marc/NullDataField.java:123-126 | The empty list for every code. |
| `NullFields.NullDataField.CountSubfields` | src/main/java/edu/ncsu/lib/marc/NullDataField.java:133-135 | Always 0. |
| `NullFields.NullDataField.GetSubfield` | src/main/java/edu/ncsu/lib/marc/NullDataField.java:137-139 | Null for every code. |
| `NullFields.NullDataField.AddSubfield` | src/main/java/edu/ncsu/lib/marc/NullDataField.java:141-144 | Changes nothing. The subfield list stays empty. |
| `NullFields.NullDataField.AddSubfieldAt` | src/main/java/edu/ncsu/lib/marc/NullDataField.java:146-149 | Changes nothing. The subfield list stays empty. |
| `NullFields.NullDataField.RemoveSubfield` | src/main/java/edu/ncsu/lib/marc/NullDataField.java:151-154 | Changes nothing. The subfield list stays empty. |
| `NullFields.NullDataField.GetRecord` | src/main/java/edu/ncsu/lib/marc/NullDataField.java:160-162 | Returns the record given at construction. |
| `NullFields.ReadsAgreeWithEmptyField` | src/main/java/edu/ncsu/lib/marc/NullDataField.java:113-139 | The placeholder's subfield reads agree with each other as a data field's would. The per-code list is the code filter of the full list, and the count is the list's length. The single lookup is null exactly when the filtered list is empty. |
| `NullFields.PlaceholderIgnoresWrites` | src/main/java/edu/ncsu/lib/marc/NullDataField.java:33-162 | A placeholder for 600 is written with a tag, an indicator, an id and two subfields. It still reports tag 600, its record, false, 0 subfields, indicator char 0 and a null id. |
| `Writers.Increment` | src/main/groovy/edu/ncsu/lib/marc/StringBuilderWriter.java:53 | Java `int` increment: the result is congruent to x + 1 modulo 2^32 and lies in the `int` range. It is larger than x unless x is the largest `int`. |
| `Writers.StringBuilderWriter.constructor` | src/main/groovy/edu/ncsu/lib/marc/StringBuilderWriter.java:35-43 | For any non-negative capacity, the writer starts with an empty buffer and usage count 0. |
| `Writers.StringBuilderWriter.Default` | src/main/groovy/edu/ncsu/lib/marc/StringBuilderWriter.java:39-43 | The no-argument writer also starts empty with usage count 0. |
| `Writers.StringBuilderWriter.Write` | src/main/groovy/edu/ncsu/lib/marc/StringBuilderWriter.java:45-48 | Follows `Step`. The buffer becomes the old buffer followed by `cbuf[off..off+len]`, and the usage count is unchanged. |
| `Writers.StringBuilderWriter.GetAndReset` | src/main/groovy/edu/ncsu/lib/marc/StringBuilderWriter.java:50-55 | Follows `Step`. Returns the whole old buffer and leaves the buffer empty. Raises the usage count by one in `int` arithmetic. |
| `Writers.StringBuilderWriter.GetUsageCount` | src/main/groovy/edu/ncsu/lib/marc/StringBuilderWriter.java:57-59 | Reads only the counter and returns the state's usage count. |
| `Writers.StringBuilderWriter.Flush` | src/main/groovy/edu/ncsu/lib/marc/StringBuilderWriter.java:68-72 | Leaves the buffer and the usage count as they were. |
| `Writers.StringBuilderWriter.Close` | src/main/groovy/edu/ncsu/lib/marc/StringBuilderWriter.java:74-78 | Leaves the buffer and the usage count as they were. |
| `Writers.RunAppend` | src/main/groovy/edu/ncsu/lib/marc/StringBuilderWriter.java:45-55 | Running two operation sequences in turn is the same as running their concatenation. The outputs are concatenated too. |
| `Writers.RunConservesCharacters` | src/main/groovy/edu/ncsu/lib/marc/StringBuilderWriter.java:45-55 | The drained texts followed by what is still buffered equal the initial buffer followed by every written character, in order. Nothing is lost, duplicated or reordered. |
| `Writers.RunCountsDrains` | src/main/groovy/edu/ncsu/lib/marc/StringBuilderWriter.java:43-59 | Every drain yields exactly one output. The usage count grows by the number of drains, wrapped to `int`, and writes never change it. |
| `Writers.UsageCountFromFresh` | src/main/java/edu/ncsu/lib/marc/StringBuilderWriter.java:26-42 | From a new writer, below 2^31 drains the usage count equals the number of drains. |
| `Writers.RunWithoutDrains` | src/main/groovy/edu/ncsu/lib/marc/StringBuilderWriter.java:45-48 | Writes with no drain between them only append their characters, in order, and return nothing. |
| `Writers.DrainIsolates` | src/main/groovy/edu/ncsu/lib/marc/StringBuilderWriter.java:45-55 | After a drain, the buffer holds only what was written since. The next drain returns exactly that, whatever came before. |
| `Writers.ReuseForTwoRecords` | src/main/java/edu/ncsu/lib/marc/StringBuilderWriter.java:22-61 | One writer serialises two records. Each drain returns exactly that record's characters. A further drain returns "", and the usage count is 3. |
| `SubfieldExtensions.LeftShift` | src/main/groovy/edu/ncsu/lib/marc/SubfieldExtension.java:35-38 | The data becomes the old data followed by the value, so its length grows by the value's length. The result is the new data. The code is untouched. |
| `SubfieldExtensions.LeftShiftInOrder` | src/main/java/edu/ncsu/lib/marc/SubfieldExtension.java:11-14 | Appending a, then b, then "" leaves the old data followed by a then b. The code is untouched. |
| `SubfieldExtensions.AppendToNewSubfield` | src/main/java/edu/ncsu/lib/marc/SubfieldExtension.java:11-14 | On a new subfield, `sf << a << b` gives its initial data followed by a and b. The code stays the same. |

## Left out

- `NullDataField.invokeMethod` is left out. It is Groovy's dynamic-dispatch hook and prints to stderr. `asBoolean` is modelled as an ordinary method, not as Groovy truthiness.
- `ExpressionType` (both copies) is left out. It is a bare enum, and none of the modelled classes maps tags or flags to its values.
- `SubfieldExtension.fromString` is left out. It ignores its receiver and delegates to `Util.makeSubfield`. Util is not part of this model.
- `StringBuilderWriter.getBuilder` is left out. It hands out the internal builder, and that aliasing is not modelled. The buffer is modelled as a `string` value.
- The `java.io.Writer` methods that `StringBuilderWriter` inherits are not part of this model. Neither are the `IOException`s that its methods declare and never throw.
- The capacity of `StringBuilderWriter` is not stored. It only sizes the builder and never affects its contents. A negative capacity makes Java's `StringBuilder` throw, so the constructor requires a non-negative one.
- `FieldInfo.toString` is left out. So is the `tagPattern` regex object itself: `\d\d\d` with `matches()` is modelled as "exactly three characters, each '0'-'9'".
- The marc4j `Record`, `DataField` and `VariableField` types are opaque. A `Subfield` is a mutable cell with a code and data. `compareTo` takes any object.
- Inserting a real field into the record in place of a placeholder happens in evaluator code. That code is not part of this model.
- A registry that maps many tags to their FieldInfo nodes is not part of this model. Only the single node and its builder are.
- Schema.FieldInfo.GetMarc4JClass: requires the tag to be present. In Java, a subfield node has a null tag, and calling this on it throws NullPointerException.
- Schema.FieldInfoBuilder.constructor: the tag is a non-null string. Java would also accept a null tag, giving a node whose `isControlField` is false.
- Schema.FieldInfoBuilder.AddSubfield: the code and the description are non-null strings. Java's `HashMap` would also accept a null code, and the child would keep a null description. The same holds for `Schema.FieldInfoBuilder.AddRepeatableSubfield`.
- SubfieldExtensions.LeftShift: the data and the value are non-null strings. Java would concatenate the text "null" for a null operand.
- Writers.StringBuilderWriter.Write: requires `0 <= off`, `0 <= len` and `off + len <= cbuf.length`. Otherwise Java's `StringBuilder.append` throws `IndexOutOfBoundsException`, and the source does not catch it.
- NullFields.NullDataField.constructor: the tag is a non-null string. Java would also accept and return a null tag.
- Java `char` is a UTF-16 code unit, while Dafny's `char` is a Unicode scalar value. The difference is not modelled.
- Java `long` ids are modelled as unbounded integers, and `compareTo` and `countSubfields` results as `int` values. They are always 0, so their width never matters.
