/**
 * The fixed-width integer types that cross the SQLite C interface, and the
 * constants of `sqlite3.h` that the model uses.
 */
module SQLite {

  newtype int32 = x: int | -0x8000_0000 <= x < 0x8000_0000
  newtype int64 = x: int | -0x8000_0000_0000_0000 <= x < 0x8000_0000_0000_0000
  newtype uint32 = x: int | 0 <= x < 0x1_0000_0000
  newtype byte = x: int | 0 <= x < 0x100

  // Fundamental datatype codes (section "Fundamental Datatypes" of the SQLite C interface).
  const SQLITE_INTEGER: int32 := 1
  const SQLITE_FLOAT: int32 := 2
  const SQLITE_TEXT: int32 := 3
  const SQLITE_BLOB: int32 := 4
  const SQLITE_NULL: int32 := 5

  // Primary result code of a failed open.
  const SQLITE_CANTOPEN: int32 := 14
}
