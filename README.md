# bysir-zl/orm in Dafny

A model of the query-construction and metadata core of the Go package
`orm`, a small MySQL mapper. The package has two generations of query
object, and the model keeps both.

- **`Model`** (model.go) binds a struct and holds a fluent query state with a
  sticky error. The state is the field list, the condition map, the order
  list, the limit and a log of the latest statements, capped at ten entries
  after each `saveSql`. It builds SELECT, INSERT,
  UPDATE, DELETE and COUNT statements and sends them to a driver.
- **`WithOutModel`** (with_out_model.go) is a table-level query object with
  the same sticky error. **`WithModel`** (with_model.go) wraps it with the
  registry entry of a struct type. Its `Insert` turns struct fields into
  columns. Its `Select` turns rows back into fields, applying the `json`
  and `time` transforms. For a list it batches the lookups of linked
  records: one query per `(table, condition)` group, deduplicated keys, and
  an index from key to row.
- **Annotation parsers.** `EncodeTag`, `Field2TagMap` and `FieldType`
  (util.go) read struct tags. `DecodeColumn` (tests/default_test.go) reads
  the `name;key(v1,v2);` column annotation.

How the model treats Go's behaviour:

- **Map order.** Go map iteration order is unspecified. Builders take an
  explicit enumeration of the map's keys. Methods that iterate a map obtain
  one nondeterministically, and their contracts hold for every order.
- **Panics and errors.** A panic in the source (an out-of-range slice, a nil
  type) is a precondition. An error the source returns is an `Option<Error>`
  result.
- **Library calls.** The database driver is a reply passed in, and the
  statement that would be sent is returned. The clock is a parameter. The
  JSON codec and the loose conversions are given functions.
- **Modules.** `Values`, `Maps` and `GoStrings` hold the shared vocabulary:
  the value type, map enumerations and renamings, and Go's `strings` calls.
  `SqlBuilder` and `SqlProperties` hold the builders and the
  placeholder/argument balance of every statement. `QueryModel` models
  `Model` and `modelInfo`. `TableQuery` models `WithOutModel`. `Registry`,
  `Transforms`, `Association` and `MappedQuery` model with_model.go.
  `Tags` models util.go, and `ColumnSpec` models the column annotation.

`Where` (model.go:99, :109) overwrites the error slot on every failure,
so the last failure wins. Some other behaviour is kept exactly as the code
has it:

- `WithOutModel.Update` returns the insert id, not the number of rows
  changed.
- `InsertMap` builds its SQL, and reports empty data, before it looks at
  the sticky error.
- Without a bound struct, `getReadConnect` and `getWriteConnect` test the
  configuration for the still-empty read or write name (model.go:199,
  :230). When an entry "" exists they take the connect name plus "_read",
  `getWriteConnect` included.

## Model

| member | source | states |
|---|---|---|
| QueryModel.RenameAll | model.go:41-48 | Field renames each listed name through the db tag map, keeping the list's length. |
| QueryModel.CloseAt | model.go:91 | The closing backquote of a match of "`(.+?)`": the first backquote at least two places on, with no newline before it; -1 when there is none. |
| QueryModel.Rewrite | model.go:89-103 | A condition without backquotes is left as written; a reported missing name is one the db tag map does not map. |
| QueryModel.RewriteSegment | model.go:91-102 | A backquoted name at the front becomes its backquoted column name ("" when unmapped), the rest is rewritten on its own, and the name is reported missing when unmapped unless the rest reports a later one. |
| QueryModel.WrapInt64 | model.go:320-330 | The 64-bit wrap-around Page's skip undergoes: the result is an int64 congruent to the input modulo 2^64, so an int64 is unchanged. |
| QueryModel.Model.constructor | orm.go:50-55 | A new Model holds only its configuration: no struct, no log, no error, empty composition state. |
| QueryModel.Model.Field | model.go:39-53 | Fields are renamed through the db tags when the model has any, else kept as given (nil when none). Nothing else changes. |
| QueryModel.Model.SetLimit | model.go:55-58 | Limit sets the limit pair and nothing else. |
| QueryModel.Model.OrderBy | model.go:60-82 | OrderBy appends one item, the field renamed, "DESC" or "", creating the list when nil. |
| QueryModel.Model.Where | model.go:84-113 | Where always records the rewritten condition with its values. The error is set from the `?` count and the unmapped names, and consistency is kept. |
| QueryModel.Model.WhereIn | model.go:143-159 | WhereIn records `field IN (?,..,?)` with one mark per parameter bound to the parameters; requires at least one parameter. |
| QueryModel.Model.Reset | model.go:116-122 | Reset clears fields, condition, limit and order, and keeps the error, the log, the table and the connection names. |
| QueryModel.Model.Sqls | model.go:125-129 | Sqls returns the log and leaves it empty. |
| QueryModel.LogAppend | model.go:131-141 | The log after saveSql holds one to ten entries, the newest last; it is the old log plus the statement when that had fewer than ten, and otherwise its ten newest entries. |
| QueryModel.ExecLogLength | model.go:655-659 | After a successful Exec the log ends with the statement twice, and holds eleven entries exactly when it held nine or more before. |
| QueryModel.Model.SaveSql | model.go:131-141 | saveSql appends to the log, keeping at most the ten newest entries, the newest last. |
| QueryModel.Model.SetConnect | model.go:163-171 | Connect to an unconfigured name sets the error and keeps the old name; otherwise it switches. |
| QueryModel.Model.ConnectAdd | model.go:175-180 | ConnectAdd registers the configuration and switches to it. |
| QueryModel.Model.Table | model.go:183-186 | Table sets only the table name. |
| QueryModel.PickConnect | model.go:189-250 | The names a connection lookup leaves: unchanged for a bound struct or a set read/write name, else the connect name defaulted to "default"; the error is "undefined" exactly when the resulting name is not configured (and the early "" entry did not answer). |
| QueryModel.PickSettles | model.go:189-250 | A second lookup keeps the names the first one settled. |
| QueryModel.Model.GetReadConnect | model.go:189-218 | getReadConnect changes only the connect and read names, as PickConnect says, and reports its error. |
| QueryModel.Model.GetWriteConnect | model.go:220-250 | getWriteConnect changes only the connect and write names, as PickConnect says, and reports its error. |
| QueryModel.Model.Page | model.go:320-330 | Page clamps page to at least 1 and the size to 1..200 (over 200 becomes 40), then sets limit = ((page-1)*size, size). |
| QueryModel.Model.ExecSql | model.go:638-663 | The write lookup settles the names; its error or the driver's is returned; a statement that reached the driver is logged; on success it is logged again, the counts are the driver's and the query is cleared, otherwise counts are 0 and the query is kept. |
| QueryModel.Model.QuerySql | model.go:252-270 | The read lookup settles the names; its error or the driver's is returned; a statement that reached the driver is logged; on success the rows are returned and the query is cleared, otherwise no rows and the query is kept. |
| QueryModel.Model.QueryToMap | model.go:273-295 | The sticky error is returned with nothing changed; otherwise the SELECT of the state is sent, the error is the lookup's or driver's, an empty result is no data, success clears the query and failure keeps it. |
| QueryModel.Model.First | model.go:371-384 | The limit becomes (0,1) before the sticky error is read; otherwise the SELECT is sent, no row is NotFound, else the first row; success clears the query, failure keeps it with the new limit. |
| QueryModel.Model.CountRows | model.go:386-405 | The COUNT of the table and condition is sent without consulting the sticky error; on success the driver's count and a cleared query, otherwise 0, the error and the query kept. |
| QueryModel.Model.GetAutoSetField | model.go:409-429 | The auto-set map is exactly the auto tags firing for the action with their values. |
| QueryModel.Model.Insert | model.go:431-499 | Insert needs a bound struct and no sticky error, and never changes the configuration, the error slot or the connection names; the save data is the struct's non-empty columns plus the auto-set ones; success writes back the id and clears the query, failure keeps it. |
| QueryModel.Model.InsertBound | model.go:466-499 | The INSERT is sent iff there is save data; the auto values are written back; on success the insert id too, and the query is cleared; otherwise the query is kept. |
| QueryModel.Model.SendInsert | model.go:477-487 | Nothing is sent and nothing changes for empty data (NoSaveData); otherwise the INSERT of the data with the lookup's or driver's error, the log, and the query cleared on success. |
| QueryModel.Model.Update | model.go:520-581 | Update needs a struct, a condition and no sticky error; empty values are kept, update auto-fields added, the UPDATE sent; success returns the affected count and clears the query, failure returns 0 and keeps it. |
| QueryModel.Model.SendUpdate | model.go:566-580 | Nothing is sent and nothing changes for empty data; otherwise the UPDATE under the recorded condition, the affected count and a cleared query on success, 0 and the query kept on failure. |
| QueryModel.Model.InsertMap | model.go:501-518 | Empty data fails first, then the sticky error, then a missing table, with nothing changed; otherwise the INSERT, the insert id and a cleared query on success, 0 and the query kept on failure. |
| QueryModel.Model.UpdateMap | model.go:583-611 | No condition, sticky error, missing table and empty data fail in that order with nothing changed; otherwise the UPDATE, the affected count and a cleared query on success, 0 and the query kept on failure. |
| QueryModel.Model.Delete | model.go:613-636 | No condition, then the sticky error, fail with nothing changed; otherwise the DELETE, the affected count and a cleared query on success, 0 and the query kept on failure. |
| QueryModel.Model.Load | model.go:826-882 | load fills the model info from the struct's tags and resolves the connection names, reporting the load error. |
| QueryModel.Model.Bind | model.go:884-892 | Model binds the struct, loads its info, takes its connection names and clears the composition state; the load error is dropped. |
| QueryModel.LoadInfo | model.go:826-882 | The loaded info is what the tags and configuration determine, and the error is that of the resolution. |
| QueryModel.SaveData | model.go:441-475 | The save data is the struct's columns filtered, with the action's auto-set fields added under their column names. |
| QueryModel.FilterSaveData | model.go:445-458 | The filter keeps the listed (or all) columns, dropping empty values for Insert. |
| QueryModel.CollectAutoSet | model.go:412-427 | The auto-set loop, in any map order, yields the auto-set map. |
| QueryModel.AutoSetFires | model.go:412-427 | A field is auto-set iff the action is in the `\|`-list after its tag's comma and the kind before it is `timestr` or `timeint`; it then holds the formatted time or the Unix seconds. |
| QueryModel.AutoField | model.go:414-424 | One auto tag's entry: split on the comma, fire on the action, value by kind. |
| QueryModel.FindAutoPk | model.go:852-859 | The auto primary key is the last `pk` tag reading "auto" in the visiting order. |
| QueryModel.RepeatMarks | model.go:153-154 | `Repeat(",?", n)[1:]` is n marks joined by commas. |
| QueryModel.InConditionCount | model.go:143-159 | The WhereIn condition has exactly one `?` per parameter. |
| QueryModel.InsertBalanced | model.go:711-735 | An INSERT binds one argument per placeholder, one per saved column. |
| QueryModel.UpdateBalanced | model.go:738-768 | An UPDATE under a balanced condition binds one argument per placeholder. |
| QueryModel.DeleteBalanced | model.go:771-783 | So does a DELETE. |
| QueryModel.CountBalanced | model.go:785-796 | So does a COUNT. |
| QueryModel.SelectBalanced | model.go:665-708 | So does a SELECT whose field and order names hold no `?`. |
| SqlBuilder.BuildWhere | model.go:799-815 | buildWhere yields each key as `( key )` joined by ` AND `, and the arguments of the keys in the same order. |
| SqlBuilder.BuildInsert | model.go:711-736 | buildInsertSql fails iff the data is empty; otherwise the column list, one `?` per column, and the values in column order. |
| SqlBuilder.BuildUpdate | model.go:738-769 | buildUpdateSql fails iff the data is empty; args are the SET values then the condition's; WHERE only for a non-nil map. |
| SqlBuilder.OrderString | model.go:694-698 | The ORDER BY loop yields the terms joined by commas. |
| SqlBuilder.WhereClause | model.go:682-690 | The WHERE block is empty for a nil map and carries the map's arguments otherwise. |
| SqlBuilder.OrderClause | model.go:692-701 | The ORDER BY block is rendered only for a non-nil list. |
| SqlBuilder.LimitClause | model.go:703-706 | `LIMIT skip,count` appears only when either component is non-zero. |
| SqlBuilder.BuildSelect | model.go:665-709 | buildSelectSql: `*` for a nil or empty field list, backquoted table, WHERE, ORDER BY and LIMIT blocks, the condition's arguments. |
| SqlBuilder.BuildDelete | model.go:771-783 | buildDeleteSql wraps the condition in parentheses and binds its arguments. |
| SqlBuilder.BuildCount | model.go:785-796 | buildCountSql likewise, counting into `count`. |
| SqlProperties.WhereTextCount | model.go:799-815 | The WHERE text has one `?` per argument buildWhere returns, given balanced conditions. |
| SqlProperties.WherePartCount | model.go:682-690 | The WHERE block, bare or parenthesised, has one `?` per argument. |
| SqlProperties.SelectPlaceholders | model.go:665-708 | A SELECT's `?` count equals its argument count. |
| SqlProperties.InsertPlaceholders | model.go:711-735 | An INSERT has one `?` per saved column and one argument per column. |
| SqlProperties.UpdatePlaceholders | model.go:738-768 | An UPDATE's `?` count equals SET values plus condition arguments. |
| SqlProperties.DeletePlaceholders | model.go:771-783 | A DELETE's `?` count equals its argument count. |
| SqlProperties.CountStatementPlaceholders | model.go:785-796 | A COUNT's `?` count equals its argument count. |
| SqlProperties.WhereArgsAround | model.go:803-809 | Moving one condition out of the key order moves its arguments as a block. |
| SqlProperties.WhereArgsPermutation | model.go:803-809 | Any two iteration orders of one condition map bind the same arguments up to permutation. |
| SqlProperties.WhereArgsLength | model.go:803-809 | The argument count does not depend on the iteration order. |
| TableQuery.PickedContents | with_out_model.go:78-85 | The field-list filter keeps exactly the listed keys, absent ones as nil. |
| TableQuery.PickedNothing | with_out_model.go:78-85 | An empty non-nil field list leaves no save data. |
| TableQuery.PickFields | with_out_model.go:79-84 | The filter loop yields the filtered map. |
| TableQuery.EmptyFieldLists | with_out_model.go:78-85 | Update keeps all data for an empty list where Insert keeps none. |
| TableQuery.WithOutModel.constructor | with_out_model.go:20-24 | A new WithOutModel has connect "default" and empty state. |
| TableQuery.WithOutModel.Table | with_out_model.go:62-65 | Table sets only the table. |
| TableQuery.WithOutModel.Connect | with_out_model.go:67-70 | Connect sets only the connection name. |
| TableQuery.WithOutModel.ExecSql | with_out_model.go:26-43 | The driver's counts on success, zeros and the error on failure. |
| TableQuery.WithOutModel.QuerySql | with_out_model.go:44-60 | The driver's rows on success, none and the error on failure. |
| TableQuery.WithOutModel.Insert | with_out_model.go:72-96 | Sticky error first; empty save data is NoSaveData; otherwise the INSERT of the filtered data and its insert id. |
| TableQuery.WithOutModel.Delete | with_out_model.go:98-117 | Sticky error first; no condition is "no where condition when DELETE"; otherwise the DELETE and its count. |
| TableQuery.WithOutModel.Update | with_out_model.go:119-147 | Sticky error first; no condition or no data fails; otherwise the UPDATE, returning the driver's insert id. |
| TableQuery.WithOutModel.Select | with_out_model.go:149-164 | Sticky error first; otherwise the SELECT of the state and the driver's rows. |
| Tags.EncodeTag | util.go:33-48 | EncodeTag yields the map of the tag's non-empty space-separated items. |
| Tags.ItemsMapDomain | util.go:38-44 | A key is present iff some non-empty item has it. |
| Tags.ItemsMapLastWins | util.go:42-44 | Each key holds the value of its last item. |
| Tags.EncodedEmpty | util.go:33-37 | The empty tag yields the empty map. |
| Tags.TagOfField | util.go:53-57 | One field adds its tag's value when it carries the tag. |
| Tags.Field2TagMap | util.go:50-60 | The result maps each field carrying the tag to that tag's value. |
| Tags.TagIndexExact | util.go:50-60 | That index is exactly the comprehension over the fields with the tag. |
| Tags.FieldType | util.go:62-68 | The result maps each field to its type. |
| Tags.TypeIndexExact | util.go:62-68 | Its domain is exactly the field names. |
| ColumnSpec.ClauseValues | tests/default_test.go:63-71 | A clause always reads at least one value. |
| ColumnSpec.Parse | tests/default_test.go:62-72 | A clause reads a key and at least one value. |
| ColumnSpec.ParseAll | tests/default_test.go:61-86 | Every clause is read, in order. |
| ColumnSpec.Apply | tests/default_test.go:73-84 | A clause never changes the name, and an unknown key changes nothing. |
| ColumnSpec.ReadClause | tests/default_test.go:62-72 | The key is the whole clause without `(`, else the text before it; the values are what follows up to `(` or `)`, split on `,`. |
| ColumnSpec.ApplyClause | tests/default_test.go:73-84 | pk and tran take the first value, auto the first two. |
| ColumnSpec.DecodeColumn | tests/default_test.go:53-89 | DecodeColumn yields the first segment as name with every clause applied in order. |
| ColumnSpec.NameIsFirstSegment | tests/default_test.go:55-59 | The name is the first segment verbatim. |
| ColumnSpec.LastClauseWins | tests/default_test.go:73-82 | pk, tran and auto are set by the last clause of their key. |
| ColumnSpec.NoClauseKeeps | tests/default_test.go:73-84 | Without such a clause they keep their start value. |
| ColumnSpec.PkClause | tests/default_test.go:68-74 | `pk(v)` reads key pk with the single value v. |
| ColumnSpec.PkAnnotation | tests/default_test.go:53-89 | `name;pk(v);` decodes to name with pk v; the empty trailing clause changes nothing. |
| Registry.PointerSameKey | with_model.go:27-29 | `*T` shares the registry key of T. |
| Registry.SliceSameKey | with_model.go:27-29 | `[]T` shares it too. |
| Registry.SliceOfPointerSameKey | with_model.go:27-29 | And `[]*T`. |
| Registry.PlainTypeKey | with_model.go:27-29 | A type spelling without `*` and `[` is its own key. |
| Registry.LinkTable | with_model.go:278-282 | A linked type's table is its registered table, "" when unregistered. |
| Transforms.SaveField | with_model.go:555-584 | One field's save switch yields the transformed value, or leaves it on failure. |
| Transforms.TranSaveData | with_model.go:548-588 | tranSaveData yields the data with each transformed field converted. |
| Transforms.SavedKeeps | with_model.go:548-553 | Saving keeps the keys and every field without a transform. |
| Transforms.LoadField | with_model.go:502-541 | One field's load switch: delete, keep, or the converted value. |
| Transforms.TranStructData | with_model.go:495-545 | tranStructData yields the loaded data. |
| Transforms.LoadedKeeps | with_model.go:495-545 | No key is added; untransformed fields are unchanged; a field is removed iff it is json text that does not decode. |
| Transforms.IntTimeRoundTrip | with_model.go:521-569 | An int time field saves as formatted text and loads back as the same seconds. |
| Transforms.TextTimeRoundTrip | with_model.go:536-583 | A canonical time text saves as seconds and loads back as the same text. |
| Transforms.JsonRoundTrip | with_model.go:503-563 | A json value whose encoding decodes back to it round-trips. |
| Association.GroupKey | with_model.go:239-241 | `InOneSql.String`: the table name, then `\|`, then the condition. |
| Association.GroupKeyParts | with_model.go:239-241 | The group key splits back into table and condition when the table has no `\|`. |
| Association.GroupKeyInjective | with_model.go:239-241 | Distinct groups of such tables have distinct keys. |
| Association.GroupKeyCollision | with_model.go:239-241 | A `\|` in a table name lets two groups share a key. |
| Association.PlainLinkWhere | with_model.go:278-284 | Without an extra condition, trimming removes the dangling " AND ". |
| Association.TrimEatsCondition | with_model.go:278-284 | The A/N/D/space cutset also eats such letters at the end of an extra condition. |
| Association.PreLinkSkips | with_model.go:254-295 | Unknown field type, missing link tag, nil self key, or a non-slice value for a slice link leave the groups unchanged. |
| Association.PreLinkMerges | with_model.go:296-316 | A repeated group appends the new keys after the old; a new group starts with them and the column list; other groups are untouched. |
| Association.PreLinkGrows | with_model.go:254-316 | No group and no key is ever lost: old keys stay a prefix. |
| Association.AddLink | with_model.go:254-316 | The loop body for one link field, as written, equals the step. |
| Association.PreLinkRow | with_model.go:244-319 | preLink over the links in any map order is the fold of the step. |
| Association.DedupSpec | with_model.go:327 | The deduplicated keys are distinct and the same set. |
| Association.IndexRows | with_model.go:336-346 | A group's index entry exists iff it did or the answer has rows. |
| Association.IndexLastWins | with_model.go:336-346 | A later row with the same key overwrites an earlier one. |
| Association.IndexKeys | with_model.go:336-346 | A key is indexed iff some row carries it. |
| Association.IndexRowsLocal | with_model.go:336-346 | Indexing touches only the group's own entry. |
| Association.GroupedEntry | with_model.go:325-347 | A group's entry is the index of its own answer when keys do not collide. |
| Association.GroupedAbsent | with_model.go:325-347 | A key no group has stays out of the index. |
| Association.IndexAnswer | with_model.go:336-346 | The row loop yields the index of the rows. |
| Association.QueryGroups | with_model.go:322-347 | One query per group, with its keys deduplicated, and the index of the answers. |
| Association.Matches | with_model.go:384-395 | For each key in order, the row the group's index holds for it; keys without a row are skipped. |
| Association.LinkedAsWritten | with_model.go:397-414 | As written: the field is set iff the conversion reports an error. |
| Association.AsWrittenDropsFound | with_model.go:397-414 | As written, a found row that converts cleanly is never attached. |
| Association.Linked | with_model.go:355-414 | Corrected: the field is set iff the conversion succeeds. |
| Association.AttachOnlyLinks | with_model.go:352-416 | Attaching changes only link fields. |
| Association.AttachFound | with_model.go:400-414 | A found, cleanly converted single link is attached. |
| Association.CollectMatches | with_model.go:382-395 | The slice branch collects the found rows in key order. |
| Association.AttachField | with_model.go:355-414 | One field of one row: attached exactly when linked. |
| Association.AttachRow | with_model.go:354-415 | A row's links in any map order fold AttachField. |
| Association.DoLinkMulti | with_model.go:321-418 | One deduplicated query per group, then every row attached from the index. |
| MappedQuery.FiresForBoth | with_model.go:211-212 | A `when` of "a\|b" fires for exactly a and b. |
| MappedQuery.CollectAuto | with_model.go:206-224 | GetAutoSetField's loop: nil without auto fields, else the firing fields with their times. |
| MappedQuery.AutoSetFields | with_model.go:209-220 | A field is auto-set iff it fires: Unix seconds for int types, formatted text otherwise. |
| MappedQuery.InsertFieldsContents | with_model.go:93-116 | Empty values are dropped unless auto-set, auto values win, untransformed values are kept. |
| MappedQuery.DropEmpty | with_model.go:96-101 | The non-empty filter. |
| MappedQuery.Overlay | with_model.go:107-110 | A non-empty auto set overrides. |
| MappedQuery.Override | with_model.go:108-110 | Each auto value replaces or adds its field. |
| MappedQuery.PrepareInsert | with_model.go:93-125 | The db data is the insert fields renamed through FieldMap, unmapped fields dropped. |
| MappedQuery.ReverseMap | with_model.go:147 | The reverse map sends each column back to a field mapped to it. |
| MappedQuery.LoadRow | with_model.go:152-161 | A row is renamed to fields through the reverse map, then transformed. |
| MappedQuery.LoadedFieldsMapped | with_model.go:154-158 | A loaded field is a mapped field whose column was in the row: other columns are dropped. |
| MappedQuery.LoadedColumnValue | with_model.go:154-158 | A mapped, untransformed field carries its column's value. |
| MappedQuery.WithModel.constructor | with_model.go:23-39 | The registry entry of the key, or "forget register?" and the zero entry; table and connection from the entry. |
| MappedQuery.WithModel.Table | with_model.go:62-65 | Sets only the table. |
| MappedQuery.WithModel.Connect | with_model.go:67-70 | Sets only the connection. |
| MappedQuery.WithModel.Link | with_model.go:197-203 | Records one field's link, replacing an earlier one. |
| MappedQuery.WithModel.GetAutoSetField | with_model.go:206-224 | The auto-set map; the error is always nil. |
| MappedQuery.WithModel.Insert | with_model.go:87-134 | Sticky error first; otherwise the renamed insert fields are inserted and the auto values written back. |
| MappedQuery.WithModel.PreLink | with_model.go:244-319 | preLink on the object's batch. |
| MappedQuery.WithModel.DoLinkMulti | with_model.go:321-418 | doLinkMulti on the object's batch. |
| MappedQuery.WithModel.LoadList | with_model.go:151-164 | Every row loaded and added to the batch in order. |
| MappedQuery.WithModel.SelectList | with_model.go:150-169 | The list branch: rows loaded, batched, then linked. |
| MappedQuery.WithModel.Select | with_model.go:136-189 | Sticky error first; no rows or an error changes nothing; a list target gets every row linked, another target the first row. |

## Left out

- `getReadConnect`/`getWriteConnect` (model.go:189-250) return the configured connection; only the names they settle and their error are modelled.
- Page's total-page count uses floating-point `math.Ceil`, and the query Page runs is the one QueryToMap models.
- Driver and connection I/O (`database/sql`, the singleton driver `Singleton`, `writeConnect`) is a reply given as a parameter; a `ConnectFailed` reply stands for a driver that could not be opened. Concurrency is not modelled.
- Reflection helpers of the `bygo/util` package (`ObjToMap`, `MapToObj`, `MapListToObjList`, `DecodeStruct`, `checkPtrModel`, `GetTagMapperFromPool`) are not part of this model. A struct is the map of its field values; what is written back into it is returned.
- `IsEmptyValue`, `UnDuplicate` and `ReverseMap` are not part of this model. They are given definitions: a Go zero value, first-occurrence deduplication, and a reverse map that keeps one field per column.
- `encoding/json` and `time` are given functions in `Codec`. Only the branch and skip structure of the transforms is modelled.
- log.go and the `warn`/`info` calls are logging only.
- error.go's error type is represented by the `Error` datatype, with `NotFound` as one variant.
- orm.go's DSN formatting and facade constructors are left out, apart from `newModel`.
- `Fields`, `Where` and `WhereIn` on `WithModel` (with_model.go:72-85) call methods that `WithOutModel` does not define, so they are not modelled.
- `WithModel.Select` expects three results from `WithOutModel.Select`, which returns two. `has` is read as "some row came back".
- `orderItem` is declared twice. One `OrderItem` serves both declarations.
- `ModelInfo` for with_model.go, its registration and `GetTable` are declared in none of the files modelled here. `GetTable` is read as returning the table field.
- MappedQuery.WithModel.Select: `doLink`, the single-record link lookup, is modelled only by its first statement, which clears the batch.
- MappedQuery.WithModel.Select: the write into the caller's struct or slice is returned as rows, and conversion warnings are not modelled.
- MappedQuery.WithModel.Select: requires every `time` and `json` transform field to have a recorded type. The source panics only when such a field actually holds the value that needs it.
- MappedQuery.WithModel.Insert: the insert id is not returned, because the source discards it.
- Association.Linked: the attach step uses the corrected test described under Findings. The as-written behaviour is `Association.LinkedAsWritten`.
- Values are compared with Dafny equality. Go's map-key rules (unhashable keys panic; `int64` and `int` differ) are not modelled.
- QueryModel.Model.Where: the regular-expression rewrite is characterised for conditions without backquotes and for a backquoted name at the front (RewriteSegment). A backquote that opens no match is kept as text, with no lemma of its own.

## Findings

| source | as written | input that shows it | evidently intended | confidence | as-written member | corrected member |
|---|---|---|---|---|---|---|
| with_model.go:397-414 | `has` becomes true when `MapToObj`/`MapListToObjList` return a non-empty error text, so a linked record is attached only when its conversion failed | a single link whose key is in the index and whose row converts without error: `has` stays false and the field is never set | attach the linked record when the conversion succeeds (`e == ""`) | not executed | Association.AsWrittenDropsFound | Association.Linked |
