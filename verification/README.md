# DataFrame codec and object dispatcher, modelled in Dafny

This project models the core of an on-disk object serialization library. The
library stores objects as directories. Each directory holds an `OBJECT` envelope
that names the object's type. A DataFrame directory also holds a hierarchical
container, `basic_contents.h5`, with groups, typed datasets and attributes.
Four parts are modelled:

- **The DataFrame codec** (`src/DataFrame.js`).
  - `readDataFrame` decodes every column child of the container's `data` group by its kind and `type` attribute:
    - integer, number, boolean and string datasets;
    - factor and VLS groups.
  - A slot equal to the recorded `missing-value-placeholder` decodes to null.
  - A column with no child becomes a request to read the object stored at `other_contents/<i>`.
  - `saveDataFrame` classifies each column, by typed-array kind or, for a plain array, by the kinds of its non-null entries.
  - It chooses a placeholder for nulls and writes the column inline, or queues it for the dispatcher.
- **The dispatcher** (`src/general.js`).
  - `readObject` routes on the envelope's type tag. A registered reader comes first, then the built-in DataFrame reader.
  - `saveObject` scans the registered (class, saver) pairs from the newest, then falls back to the DataFrame saver.
- **`joinPath`** (`src/utils.js`). It joins path components with `/`, and a `.` component stands for "here".
- **Annotated metadata** (`src/metadata.js`).
  - On read, it chooses between nothing, an option's own reader, and the dispatcher.
  - On save, an empty object is skipped.

How the model is laid out:

- **The container** is an abstract tree (`Container.Node`): groups with named children, datasets with one payload, and other objects.
  - Attributes map a name to the first element of the values the storage layer returns.
- **Numbers** are `Numbers.Float`: NaN, the two infinities, and finite values held as exact reals.
  - Datatype equality on `Float` is the NaN-aware equality the decoder uses.
- **Functions and methods.** Each loop of the source is a method, proved equal to a specification function. The properties are lemmas about those functions.
- **Round trip.** `RoundTrip.FrameRoundTrip` ties the two halves together. Reading back what `saveDataFrame` wrote gives:
  - the names, the row count and the row names;
  - every inline column with its nulls in the same slots and its other values unchanged;
  - every queued column as a request for its own side path.

The library's description of the on-disk format (its account of the DataFrame layout, the placeholder rules and the dispatcher) is called "the format description" below. Where the format description and the code differ, the model follows the code:

- The file is `basic_contents.h5`, not `basic_columns.h5`. Side objects go under `other_contents/`, not `other_columns/`.
- The envelope holds `type` and `version` side by side.
- `Uint32Array` columns are written with their own element type, tagged `number`. The format description says they are written as floating point.
- The numeric candidates are tried in the order 0, +∞, −∞, MAX_VALUE, −MAX_VALUE. The format description gives +∞ first.
- The code has no integer placeholder search and no overflow demotion, so neither is modelled.
- `Float32Array` and `Float64Array` columns are queued for the dispatcher, because no typed-array branch takes them (lines 239-293). The format description says floating-point arrays are written inline, tagged `number`.
- A string array sent to VLS is queued after its nulls have been replaced by the placeholder (lines 386-396, 407-408, 423). The object saved for it therefore holds the placeholder string where the nulls were, and reading it back cannot restore them. `ColumnEncode.PlainClassification` states this, and the model keeps it.
- The reader reads the row count after the columns, and that order decides which error wins.

The code as written cannot run: `src/DataFrame.js` has syntax errors and several undefined names. Where it cannot run, the model follows what the surrounding code evidently means:

- `var i` inside the body of a `for (const [i, …] of …)` loop redeclares the loop's `const i`, which is an early syntax error. This happens under the reader's loop (line 23) at lines 50, 56, 69, 77, 85, 97, 132, 140, 163 and 175, and under the writer's loop (line 236) at line 366. Each inner `var i` is read as a fresh loop counter, and the outer `i` keeps naming the column.
- `dec new TextDecoder` (line 162) is read as a declaration. The decoder is the opaque parameter `text`.
- `children` means `kids` (line 26). `H5Dataset` means `H5DataSet` (line 35). `child` means `child_handle` (lines 110-111).
- `column_names` means `col_names` (line 207). `handle` means `fhandle` (line 227).
- `Uint64Array` and `Int64Array` (lines 281, 288) are the BigInt typed arrays. Their values are widened to numbers.
- A dataset's contents are read with the storage interface's `values()`. The source calls `.value()` (lines 37, 116, 122, 150, 156, 202).
- A dataset is created with the storage interface's `createDataSet`. The source calls `writeDataSet` (lines 230-410).
- The `type` attribute is compared through its first value, not as the `{values, shape}` object `readAttribute` returns (lines 38-102, 111-187).
- A placeholder attribute is compared through its first value, not through the `{values, shape}` object (lines 43, 57, 70).
  - The row count is read the same way (line 196).
- The factor placeholder is the one listed on the `codes` dataset (lines 123, 130-131). The source reads the attribute from the group `child` (line 131), and the model takes that read as the `codes` dataset's attribute. The VLS placeholder is the one on `pointers` (lines 157, 174).
- Decoded columns form the result's column list, in column-name order. The source keeps them as keyed properties of `handle_stack` (lines 108, 145, 182).
- On save, the type tag goes under `type` and the placeholder under `missing-value-placeholder`. The source writes the placeholder under `type`, and so leaves plain arrays with at least one non-null entry without a tag (lines 358, 377, 413). The all-null branch does tag its dataset `boolean` (line 311).
- A delegated column is read with no preset metadata. The source passes `globals` where the metadata goes (line 27).
- A queued column is saved at its side path. The source passes path and object swapped (line 438).

## Model

| member | source | states |
|---|---|---|
| Utils.JoinPath | src/utils.js:9-20 | the loop's result is the fold `Joined`; it is `.` when every component is `.`, and otherwise the non-`.` components joined by single slashes; one argument comes back unchanged |
| Utils.JoinedCharacterization | src/utils.js:9-20 | all-`.` arguments give `.`; otherwise the result is the non-`.` components, kept verbatim, joined by `/` |
| Utils.NoDotsJoinAll | src/utils.js:9-20 | with no `.` component the result is every argument joined by `/` |
| Utils.JoinPathExamples | tests/utils.test.js:3-10 | the six cases of the unit test |
| ColumnDecode.IndexOf | src/DataFrame.js:166 | the first index holding the value, or -1 when none does |
| ColumnDecode.HeapSlice | src/DataFrame.js:165 | `slice(offset, offset + length)` clamped to the heap: the exact span when it fits, the tail when it overruns, empty when it starts past the end |
| ColumnDecode.Kept | src/DataFrame.js:164-169 | the kept bytes are a prefix of the pointer's span, contain no zero, and stop only at a zero byte or the span's end |
| ColumnDecode.ReplacePlaceholder | src/DataFrame.js:82-102 | same length as the raw values; slot i is null exactly when raw[i] equals the placeholder, otherwise raw[i]; with no placeholder an unchanged copy |
| ColumnDecode.DecodeNumbers | src/DataFrame.js:46-64 | a NaN placeholder nulls exactly the NaN slots, any other placeholder exactly the equal slots; kept slots are unchanged; no placeholder keeps every slot |
| ColumnDecode.DecodeBooleans | src/DataFrame.js:66-80 | slot i is null exactly when raw[i] equals the placeholder, otherwise true iff raw[i] is non-zero |
| ColumnDecode.DecodeFactor | src/DataFrame.js:113-145 | one slot per code: null for the placeholder code, `levels[code]` for an in-range code, null (undefined) for an out-of-range code |
| ColumnDecode.DecodeVls | src/DataFrame.js:147-182 | one slot per pointer holding the text of its kept bytes; a slot is null exactly when that text equals the placeholder |
| ColumnDecode.FactorExample | src/DataFrame.js:129-143 | codes [0,1,1,2] over levels [bar_A, bar_B] with placeholder 2 read as bar_A, bar_B, bar_B, null |
| FrameDecode.DecodeDataSet | src/DataFrame.js:35-108 | a missing `type` is a storage failure; a `type` other than number, boolean, integer or string fails with an unknown-column-type error naming the column and path; success gives the column kind its `type` names; no other error arises |
| FrameDecode.DecodeGroup | src/DataFrame.js:110-186 | a missing `type` is a storage failure; a group `type` other than factor or vls fails with an unknown-column-type error naming the column and path; success is a string column from a factor or vls group |
| FrameDecode.DecodeChild | src/DataFrame.js:35-190 | a child that is neither dataset nor group fails with an unknown-column-kind error naming the column and path, and only such a child gives that error; a decoded child is never a delegation |
| FrameDecode.DecodeColumn | src/DataFrame.js:24-31 | a column with no child under `data` is a request for `other_contents/<i>`, and only such a column is |
| FrameDecode.DecodeColumns | src/DataFrame.js:24-194 | success gives one column per name, each its own decoding; failure is the error of the first failing column, all earlier ones decoding |
| FrameDecode.DecodeColumnsPrefixErr | src/DataFrame.js:24-194 | once a column fails, reading the whole DataFrame fails with that column's error |
| FrameDecode.DecodeFrame | src/DataFrame.js:5-207 | a decoded DataFrame has one column per name, and its container has a `data_frame` child whose `data` child is a group; a `data` child that is not a group fails, since its `children()` cannot be listed (line 22) |
| FrameDecode.ReadColumn | src/DataFrame.js:24-194 | the branch-by-branch column decode equals `DecodeColumn` |
| FrameDecode.ReadDataFrame | src/DataFrame.js:5-215 | the reader, stopping at the first failing column and failing on a `data` child that is not a group, equals `DecodeFrame` |
| FrameDecode.ColumnErrorsNameTheColumn | src/DataFrame.js:104-190 | an unknown-type or unknown-kind error names the DataFrame's path and one of its column names |
| Placeholders.StringPlaceholder | src/DataFrame.js:384-390 | `NA` followed by the fewest underscores that make it absent: absent from the column, and every shorter candidate present |
| Placeholders.ChooseStringPlaceholder | src/DataFrame.js:387-390 | the growing loop ends with `StringPlaceholder`, which no entry equals |
| Placeholders.PlaceholderAvoidsNA | src/DataFrame.js:387-390 | a column holding null and `NA` gets `NA_` |
| Placeholders.FirstAbsent | src/DataFrame.js:325-330 | a candidate no entry equals, with every earlier candidate present, so the first absent one; none when every candidate is present |
| Placeholders.LeastFiniteAbove | src/DataFrame.js:334-345 | a value above the bound, at most every finite entry above the bound, and either an entry of the column or the default, so the least finite entry above the bound |
| Placeholders.NumericPlaceholder | src/DataFrame.js:319-346 | the chosen placeholder equals no entry of the column |
| Placeholders.ChooseNumericPlaceholder | src/DataFrame.js:319-346 | the candidate scan and midpoint search give `NumericPlaceholder`, which no entry equals |
| ColumnEncode.ScanEntries | src/DataFrame.js:297-305 | the set of kinds of the non-null entries, and whether a null was seen |
| ColumnEncode.FillNulls | src/DataFrame.js:348-352 | a copy of the column with exactly the null slots replaced by the filler |
| ColumnEncode.EncodeBooleans | src/DataFrame.js:365-372 | one code per entry: null gives 2, true 1, false 0 |
| ColumnEncode.MeasureStrings | src/DataFrame.js:399-406 | the longest length, attained by some string, and the total length |
| ColumnEncode.VlsNeedsShortString | src/DataFrame.js:407 | an array goes to VLS only when some string is more than 16 characters shorter than the longest |
| ColumnEncode.UniformLengthsStayFixed | src/DataFrame.js:407 | strings of one common length are never sent to VLS |
| ColumnEncode.EncodePlain | src/DataFrame.js:295-428 | an inline plain array carries a known type tag and has a placeholder attribute exactly when it had a null; more than one kind is queued unchanged |
| ColumnEncode.PlainClassification | src/DataFrame.js:307-428 | no kind or booleans go inline as `boolean`, numbers as `number`, strings as `string` exactly when padding is cheap enough; a queued array without a foreign kind is a string array or has several kinds |
| ColumnEncode.BooleanSentinelExample | src/DataFrame.js:364-381 | `[true, false, null]` is stored as `[1, 0, 2]` with placeholder 2 |
| ColumnEncode.EncodeColumn | src/DataFrame.js:239-428 | 8/16-bit and Int32 arrays are tagged `integer`, Uint32 and 64-bit arrays `number`; float arrays and non-arrays are queued |
| ColumnEncode.WriteColumn | src/DataFrame.js:237-428 | the branch-by-branch column encode equals `EncodeColumn` |
| IndexNames.ParseIndexName | src/DataFrame.js:25 | `String(i)` is non-empty and reads back as i |
| IndexNames.IndexNameInjective | src/DataFrame.js:25 | distinct columns get distinct keys |
| FrameEncode.InlineKidsLookup | src/DataFrame.js:236-240 | column i has a child `String(i)` in `data` exactly when it is stored inline, and that child is its encoding |
| FrameEncode.Requests | src/DataFrame.js:422-439 | every queued column is requested at its side path, and every request is for a queued column |
| FrameEncode.EncodeFrame | src/DataFrame.js:217-236 | the envelope's tag is `data_frame`; the container has `data_frame` and `data`, and `row_names` exactly when there are row names |
| FrameEncode.SaveDataFrame | src/DataFrame.js:217-445 | the writer's loop over the columns produces `EncodeFrame` |
| RoundTrip.NumbersRoundTrip | src/DataFrame.js:316-362 | a number array is stored inline and reads back with nulls in the same slots and the other values unchanged |
| RoundTrip.BooleansRoundTrip | src/DataFrame.js:364-381 | a boolean or all-null array is stored inline and reads back with nulls in the same slots and the other values unchanged |
| RoundTrip.StringsRoundTrip | src/DataFrame.js:383-418 | a fixed-width string array reads back with nulls in the same slots and the other values unchanged |
| RoundTrip.ColumnRoundTrip | src/DataFrame.js:239-428 | any column, as written, reads back as its expected reading: its values, or a request for its side path |
| RoundTrip.FrameRoundTrip | src/DataFrame.js:5-207 | reading what the writer wrote gives the names, row count, row names and the expected reading of every column |
| RoundTrip.DelegatedColumnsAreSaved | src/DataFrame.js:422-439 | a column reads back as a request exactly when it was queued, and then the writer requested it at that same path |
| RoundTrip.RequestPathsDistinct | src/DataFrame.js:437-439 | no two requests share a side path |
| AsWritten.BooleanCodesAsWritten | src/DataFrame.js:374 | every null is written as 0, the code of false; every boolean gets the same code as in the intended encoding |
| AsWritten.NullsReadFalse | src/DataFrame.js:374 | as written, for every boolean array, each null reads back as false and each boolean unchanged |
| AsWritten.NullBooleanReadsFalse | src/DataFrame.js:374 | as written, `[true, false, null]` reads back as `[true, false, false]`; corrected, as `[true, false, null]` |
| AsWritten.AllNullLosesLength | src/DataFrame.js:308-314 | as written, `[null, null]` reads back with no entries; corrected, with two nulls |
| AsWritten.NaNReadsAsNull | src/DataFrame.js:320-331 | as written, `[NaN, null]` picks NaN as placeholder and reads back as two nulls; corrected, as `[NaN, null]` |
| AsWritten.RequestsAsWritten | src/DataFrame.js:422-428 | as written, at most one column is requested |
| AsWritten.SecondDelegationOverwritesFirst | src/DataFrame.js:422-428 | as written, two float-array columns leave one request, at `other_contents/iname`; corrected, one per column at its own path |
| General.ReadObjectFile | src/general.js:4-8 | the envelope is found exactly when `OBJECT` exists at the path |
| General.Write | src/DataFrame.js:219-224 | after saving, the path's envelope and container are the ones written; every other envelope and file is unchanged, and no other path is added |
| General.LastMatchNewest | src/general.js:32-38 | the chosen registration matches and none after it does; none is chosen only when no registration matches |
| General.RegistrationShadows | src/general.js:29-38 | a later registration for a class of x takes over; one for another class changes nothing for x |
| General.Registries.constructor | src/general.js:10-29 | both registries start empty |
| General.Registries.RegisterReader | src/general.js:10 | the reader registry gains the tag and nothing else changes |
| General.Registries.RegisterSaver | src/general.js:29 | the saver registry gains one pair at the end and nothing else changes |
| General.Registries.ReadObject | src/general.js:12-27 | the envelope is the metadata when given, else the stored one, whose absence is the error; a tag with a registered reader is read by that reader with the path; `data_frame` with no registered reader gives exactly what decoding the stored container gives, its column errors included, or fails when there is no container, and only then is a DataFrame loaded; any other tag fails as unsupported |
| General.Registries.RegisteredReaderWins | src/general.js:18-19 | corollary of `ReadObject`'s contract: a registered reader is used for its tag, even for `data_frame` |
| General.Registries.FindSaver | src/general.js:32-38 | the countdown scan returns the newest matching registration, or none when none matches |
| General.Registries.SaveObject | src/general.js:31-47 | a registered saver of a class of x, else the DataFrame saver, else an error naming x's constructor; it fails exactly when x is no DataFrame and no registration matches; a DataFrame written by the built-in saver is an instance of `DataFrame`, whose class list is required to agree with its contents |
| General.Registries.DispatchRoundTrip | src/general.js:12-47 | a DataFrame saved and read back through the dispatcher gives its names, row count, row names and expected columns |
| Metadata.ReadAnnotatedMetadata | src/metadata.js:3-19 | nothing when the path is absent or the option is false, and only then; a function option is called with the path and the stored envelope, or the envelope read fails; an absent or true option reads through the dispatcher |
| Metadata.SaveAnnotatedMetadata | src/metadata.js:21-26 | a zero-length object is not saved, and only it; anything else is what `saveObject` does |
| Metadata.OptionBypassesRegistries | src/metadata.js:8-15 | corollary of `ReadAnnotatedMetadata`'s contract: with a false or function option, the result does not depend on the registries |

## Left out

- I/O and the storage layer are left out: opening and closing handles, the handle stack, async sequencing and deleting the directory when a save fails. The file system's answers become parameters: the `Store`, and the `pathExists` flag of `ReadAnnotatedMetadata`.
- The bytes-to-text decoder (`TextDecoder`) and the JSON parsing of `OBJECT` are opaque. The decoder is the function parameter `text`; envelopes are stored already parsed.
- Floating point is modelled exactly: rounding, −0, and NaN or null inside the sort comparator of the midpoint search are not. The midpoint is `(-MAX_VALUE + m) / 2`, with m the least finite value above −MAX_VALUE. This is the first midpoint the source's scan accepts, taken over exact reals.
- 64-bit integers beyond 2^53 lose precision when widened to numbers in the source. The model widens them exactly.
- FrameDecode.DecodeDataSet: a dataset whose element type does not match its `type` tag is a storage failure in the model, where the source decodes it. Examples are an `integer` or `boolean` tag on floating-point data, which the source tests with `!= 0` (lines 73, 78) or copies (lines 84, 91), and a `string` tag on numbers, which it copies (line 95). The model's columns hold one element type each, so these mixed readings are not modelled. The same holds for a `row-count` attribute that is not an integer: the source applies `Number(...)` to it (line 196), and the model fails.
- Loose equality between different kinds is not modelled. A placeholder attribute of the wrong kind for its column is a storage failure in the model.
- String lengths in the VLS size test count characters. The source counts UTF-16 code units.
- The source does not await the dispatcher calls it makes for delegated columns (lines 27 and 438). A delegated column reads back as `Delegated(path)`, and a queued one appears in `Saved.requests`. Neither dispatch is chained into the model.
- The source keys decoded columns by name on a plain object, so two columns with one name collapse. The model keeps one column per name, in order.
- A factor code outside the levels reads as `undefined` in the source (`ColumnDecode.Level`, line 136). The model reads it as null, since the model has no separate undefined value.
- `objtype in readObject_registry` (src/general.js:18) also matches keys inherited by every JavaScript object, such as `toString`. The model's registry is a plain map, so only registered tags match.
- An option that is neither a boolean nor a function makes `readAnnotatedMetadata` fail with a TypeError when it is called (src/metadata.js:12-14). `Metadata.OptionSetting` has no case for such a value.
- General.Registries.SaveObject: the model holds an object's classes and its contents separately. `General.ClassesAgree` requires that `DataFrame` is among its classes exactly when it carries a DataFrame's contents, because in the source `instanceof DataFrame` and the contents come from one object and cannot disagree.
- JavaScript `undefined` entries in plain arrays are not modelled.
- Registered readers and savers are opaque handlers. Only which handler is called, and with what path, is modelled.
- `General.Registries.DispatchRoundTrip`: it covers the DataFrame saved at the top level. It does not cover objects saved by registered handlers or by delegation.

## Findings

| source | as written | input that shows it | evidently intended | confidence | as-written member | corrected member |
|---|---|---|---|---|---|---|
| src/DataFrame.js:374 | writes `new Uint8Array(col)`, discarding the codes built just before, so null is stored as 0 | `[true, false, null]` is stored as `[1, 0, 0]` with placeholder 2 and reads back as `[true, false, false]` | write the computed codes, null as 2 | high; not executed | AsWritten.NullBooleanReadsFalse | RoundTrip.BooleansRoundTrip |
| src/DataFrame.js:309 | an array with no non-null entry is written as a zero-length dataset | `[null, null]` reads back with no entries | one null slot per entry | medium; not executed | AsWritten.AllNullLosesLength | RoundTrip.BooleansRoundTrip |
| src/DataFrame.js:322 | NaN is chosen as the placeholder exactly when the column already holds a NaN | `[NaN, null]` stores `[NaN, NaN]` with placeholder NaN and reads back as `[null, null]` | NaN only when no NaN is present | high; not executed | AsWritten.NaNReadsAsNull | Placeholders.NumericPlaceholder |
| src/DataFrame.js:423 | every queued column is stored under the key `"iname"`, so each overwrites the one before | two float-array columns leave one request, at `other_contents/iname`, where the reader never looks | key each column by its index `String(i)` | high; not executed | AsWritten.SecondDelegationOverwritesFirst | RoundTrip.RequestPathsDistinct |
