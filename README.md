# SQift core, modelled in Dafny

This project models three sequential pieces of SQift, a Swift wrapper around SQLite:

- **Row decoding** (`row.dfy`, module `Rows`). A `Row` reads the current row of a prepared statement. It offers the column descriptors, the value of each column, typed lookups by index or by column name, an iterator over the values and a bracketed text description. `ColumnType` converts between SQLite's five fundamental datatypes and their `sqlite3.h` codes.
- **Table-lock error policy** (`table_lock_retry_policy.dfy`, module `TableLockRetryPolicy`). `TableLockErrorPolicy` is either `on(delay)` or `off`. It has a default and the accessors `isEnabled`, `isDisabled`, `delay` and `delayInMicroseconds`.
- **Connection-pool bookkeeping** (`connection_pool.dfy`, module `ConnectionPooling`). A pool of read-only connections tracks an ordered list of available connections and a set of busy ones. The `ConnectionPool` source file is not part of this model. The class is built from what `Tests/Tests/Connection/ConnectionPoolTests.swift` asserts, and the test scenarios are client methods whose postconditions state those assertions.

`sqlite.dfy` holds the fixed-width integer types and the `sqlite3.h` constants. `wrappers.dfy` holds `Option`, for Swift's `nil`, and `Result`, for throwing calls.

How the model represents the source:

- The statement is a sequence of `ColumnData` records. Each record holds the column's name, its type code and what each `sqlite3_column_*` accessor returns for that column. For text, the record holds the Swift `String` that `String(cString:)` builds from `sqlite3_column_text`. A blob is `None` when the blob pointer is null.
- `Any?` becomes `Option<Value>`. `Value` has one case per Swift type the row produces: `Int64`, `Double`, `String` and `Data`.
- An `Extractable` type is a binding type plus a conversion `fromBindingValue` that may fail. `value as? T.BindingType` succeeds exactly when the value has that binding type.
- `TimeInterval` and the column accessor's `Double` are exact `real`s.
- In the pool, a connection is an id the pool assigns when it opens the connection. Whether an open succeeds is an input. A failed open throws `SQLITE_CANTOPEN`.

## Model

| member | source | states |
|---|---|---|
| Rows.RawValue | Source/Row/Row.swift:28-36 | the code is one of the five `sqlite3.h` datatype codes, and decoding it gives the type back (round-trip); together these fix each type's code |
| Rows.FromRawValue | Source/Row/Row.swift:48-56 | decoding is total; it gives integer, float, text or blob exactly for those four codes, and `Null` for every other code |
| Rows.RawValueInjective | Source/Row/Row.swift:28-56 | distinct column types have distinct codes |
| Rows.Name | Source/Row/Row.swift:38-46 | integer, float, text, blob and null are named "integer", "float", "text", "blob" and "null", each label belonging to exactly that type |
| Rows.NameInjective | Source/Row/Row.swift:38-46 | distinct column types have distinct names |
| Rows.ColumnCount | Source/Row/Row.swift:72 | the count is the number of the statement's result columns; `Columns`, `AllValues` and the iterator each yield exactly this many entries |
| Rows.ColumnTypeAt | Source/Row/Row.swift:80 | a column's decoded type is `Null` exactly when its code is none of the integer, float, text and blob codes; any other type has that code as its `rawValue` |
| Rows.ValueOf | Source/Row/Row.swift:141-168 | the value is nil exactly for a NULL or unrecognised type code or a BLOB with a null pointer; otherwise its storage class is the column's type and it holds that accessor's result |
| Rows.ValueAt | Source/Row/Row.swift:141-168 | the switch that assigns a local variable computes exactly `ValueOf` |
| Rows.Columns | Source/Row/Row.swift:72-84 | there are `columnCount` columns; entry i has index i, the i-th name, the type decoded from the i-th code and the i-th value |
| Rows.ColumnValueAgreesWithType | Source/Row/Row.swift:75-84 | a column's value is absent when its type is null, present for integer, float and text, and when present has the storage class of the column's type |
| Rows.IsOfBindingType | Source/Row/Row.swift:177 | the `as? T.BindingType` cast succeeds exactly when the value's storage class is the one the binding type holds |
| Rows.TypedValueAt | Source/Row/Row.swift:175-180 | the typed value is nil when the raw value is nil or not of the binding type; otherwise it is the conversion's result |
| Rows.ColumnIndex | Source/Row/Row.swift:188 | the lookup is nil exactly when no column has the name; otherwise it gives the first column with that name |
| Rows.TypedValueNamed | Source/Row/Row.swift:187-194 | the named lookup is nil when no column has the name; otherwise it is the typed value at that column |
| Rows.SubscriptAt | Source/Row/Row.swift:100 | the non-optional index subscript needs a present typed value; it returns the conversion of a value of the binding type |
| Rows.SubscriptNamed | Source/Row/Row.swift:114 | the non-optional name subscript needs the column to exist and the typed value to be present; it returns that column's converted value |
| Rows.AllValues | Source/Row/Row.swift:199-201 | the values are `columnCount` long, and entry i is the value of column i |
| Rows.RowIterator.constructor | Source/Row/Row.swift:204-206 | the iterator starts at index 0 of the row |
| Rows.RowIterator.Next | Source/Row/Row.swift:208-215 | the iterator yields column i's value and advances by one while i < `columnCount`; after that it ends and stays put |
| Rows.Values | Source/Row/Row.swift:201-216 | running a fresh iterator to its end yields exactly `[value(at: 0), …, value(at: columnCount - 1)]` |
| Rows.Item | Source/Row/Row.swift:224-232 | a string value appears in single quotes, nil as `NULL`, and any other value as the describing function renders it |
| Rows.Items | Source/Row/Row.swift:224-232 | there is one item per value, in the same order |
| Rows.Join | Source/Row/Row.swift:234 | joining no strings gives "", and the result is at least as long as all the strings together; JoinEnds, JoinLength and JoinSnoc give its shape |
| Rows.JoinEnds | Source/Row/Row.swift:234 | a joined non-empty list starts with its first string and ends with its last |
| Rows.JoinLength | Source/Row/Row.swift:234 | joining n strings adds n - 1 separators and nothing else |
| Rows.JoinSnoc | Source/Row/Row.swift:234 | joining one more string appends the separator and that string |
| Rows.Description | Source/Row/Row.swift:223-235 | the description starts with "[" and ends with "]", and between them holds the items joined by ", " |
| Rows.DescriptionLength | Source/Row/Row.swift:223-235 | a row with no columns gives "[]"; otherwise the length is the items' lengths, plus 2 for each separator, plus 2 for the brackets |
| Rows.DescriptionSnoc | Source/Row/Row.swift:223-235 | adding a column adds ", " and that column's item before the closing bracket |
| TableLockRetryPolicy.Default | Source/Database/TableLockRetryPolicy.swift:17-19 | the default is enabled, with a delay of 0.01 s, which is 10000 microseconds |
| TableLockRetryPolicy.IsEnabled | Source/Database/TableLockRetryPolicy.swift:21-24 | enabled exactly for the `on` case |
| TableLockRetryPolicy.IsDisabled | Source/Database/TableLockRetryPolicy.swift:26 | disabled exactly for `off`, which is exactly when the policy is not enabled |
| TableLockRetryPolicy.Delay | Source/Database/TableLockRetryPolicy.swift:28-33 | the delay is `d` for `on(d)` and nil for `off`, so it is present exactly when the policy is enabled |
| TableLockRetryPolicy.UInt32Exactly | Source/Database/TableLockRetryPolicy.swift:37 | the conversion succeeds exactly for whole numbers in [0, 2³² − 1], and then gives that number |
| TableLockRetryPolicy.DelayInMicroseconds | Source/Database/TableLockRetryPolicy.swift:35-38 | nil for `off`; for `on(d)`, present exactly when d·1,000,000 is a whole number in [0, 2³² − 1], and then equal to it |
| ConnectionPooling.ConnectionPool.constructor | Tests/Tests/Connection/ConnectionPoolTests.swift:37-51 | a new pool tries to open one connection, which becomes available (and prepared, with a preparation step); if that open fails, the pool starts empty and creating it does not fail; nothing is busy |
| ConnectionPooling.ConnectionPool.RemoveAllAvailable | Tests/Tests/Connection/ConnectionPoolTests.swift:69 | emptying the available list closes the dropped connections and leaves the busy set unchanged |
| ConnectionPooling.ConnectionPool.DequeueConnectionForUse | Tests/Tests/Connection/ConnectionPoolTests.swift:48-80 | reuses the first available connection, or opens and prepares a new one; on success the connection was not busy, is now busy and is not available; a failed open throws `SQLITE_CANTOPEN` and leaves the pool unchanged; no connection is ever both available and busy, and every opened connection is available, busy or closed |
| ConnectionPooling.ConnectionPool.EnqueueConnectionForReuse | Tests/Tests/Connection/ConnectionPoolTests.swift:112-133 | a busy connection moves to the front of the available list and leaves the busy set; any other connection leaves the pool unchanged; disjointness is preserved |
| ConnectionPooling.ConnectionPool.Execute | Tests/Tests/Connection/ConnectionPoolTests.swift:97-101 | the work runs on the connection a dequeue hands out, which was not busy; its result or error is returned unchanged; the connection is then available again, the busy set is as before, and only a newly opened connection joins the prepared set |
| ConnectionPooling.ConnectionPool.DrainAvailableConnections | Tests/Tests/Connection/ConnectionPoolTests.swift:246-252 | the idle drain keeps only the first available connection and closes the others; busy connections are untouched; every connection the pool opened is still available, busy or closed |
| ConnectionPooling.DequeueFromUnopenableLocation | Tests/Tests/Connection/ConnectionPoolTests.swift:48-63 | dequeuing when the location cannot be opened fails with `SQLITE_CANTOPEN` |
| ConnectionPooling.DequeueOpensNewConnection | Tests/Tests/Connection/ConnectionPoolTests.swift:65-80 | after the available list of a new pool is emptied, dequeuing opens exactly one connection; it is busy and not available |
| ConnectionPooling.ExecuteWhileCheckedOutUsesPreparedConnection | Tests/Tests/Connection/ConnectionPoolTests.swift:82-110 | on a new pool with a preparation step and an emptied available list, while one connection is checked out, work gets a different, prepared connection; the first connection stays busy and not available |
| ConnectionPooling.EnqueueMovesBusyToAvailable | Tests/Tests/Connection/ConnectionPoolTests.swift:112-133 | before the enqueue the connection is busy and not available; afterwards it is available and not busy |
| ConnectionPooling.BurstThenDrainLeavesOne | Tests/Tests/Connection/ConnectionPoolTests.swift:216-252 | on a new pool, n overlapping checkouts reuse the initial connection and open n − 1 more; after all n are returned, all n are available; the drain then leaves exactly one |

## Left out

- The `sqlite3_column_*` calls and the `Statement` handle are foreign C calls. Each column's accessor results are fields of `ColumnData`.
- Column indices must be in range. The SQLite C interface leaves out-of-range indices undefined.
- The `Statement` source file is not part of this model. `ColumnIndex` assumes that `columnIndex(forName:)` returns the first column with the given name.
- SQLite returns a null blob pointer for a zero-length BLOB, so `value(at:)` reads such a column as nil. The model lets `blobBytes` be `None` or `Some` for any blob, so this engine behaviour is an input.
- Swift's dynamic `as?` casts and the `Extractable`/`ExpressibleByRow` protocols become `Extractable` (a binding type plus a conversion). Bridged numeric casts are not modelled.
- `Column.description` and `String(describing:)` for non-text values rely on Swift's runtime formatting. `Description` takes the rendering of those values as a parameter, and `Column.description` is left out.
- Rows.ValueOf: `textValue` is the string `String(cString:)` builds; truncation at an embedded NUL and UTF-8 repair are not modelled.
- Rows.ValueOf: `sqlite3_column_double`'s `Double` is an exact `real` (`ColumnData.doubleValue`), so infinities, NaN and rounding are not represented.
- TableLockRetryPolicy.DelayInMicroseconds: the model uses exact real arithmetic instead of `Double` multiplication and rounding. Infinite and NaN delays are not modelled.
- Some tests use `.fastFail`, `.poll` and `.custom` policy cases. Those cases do not exist in the modelled policy file, so they are left out, along with the lock-retry loop and busy-handler strategies, whose Connection implementation is not part of this model.
- Concurrency is left out. The pool's locking, the 128-way parallel test and the lock-timing tests depend on thread scheduling and SQLite locks.
- ConnectionPooling.ConnectionPool.DrainAvailableConnections: the drain timer and the idle-time comparison are not modelled. The drain always evicts every available connection except the most recently returned one, which is the only effect the tests assert.
- Connection opening, PRAGMA execution and the read-only write failure are engine behaviour. The open result is an input, and a failed open yields `SQLITE_CANTOPEN`. The preparation step's own failure is not modelled; it is recorded as applied to each new connection.
- ConnectionPooling.ConnectionPool.constructor: the `ConnectionPool` source file is not part of this model. Two things in the tests suggest that creating a pool opens one read-only connection: the setup comment, and the tests emptying `availableConnections` right after construction. The model assumes this. A failed initial open leaves the pool empty, because creating a pool over an unopenable path does not throw.
- Reuse order is not visible in the tests. The model takes available connections from the front and returns them to the front.
