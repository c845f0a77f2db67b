/**
 * The JDBC type tags the Oracle column resolution assigns: the constants of
 * `java.sql.Types` and of `oracle.jdbc.OracleTypes`.  Where OracleTypes
 * repeats a constant of java.sql.Types (VARBINARY, OTHER, ARRAY, STRUCT) the
 * value is the same and only one name is kept here.
 */
module JdbcTypes {

  // java.sql.Types
  const CHAR: int := 1
  const NUMERIC: int := 2
  const FLOAT: int := 6
  const VARCHAR: int := 12
  const LONGVARCHAR: int := -1
  const VARBINARY: int := -3
  const LONGVARBINARY: int := -4
  const NVARCHAR: int := -9
  const NCHAR: int := -15
  const TIMESTAMP: int := 93
  const OTHER: int := 1111
  const STRUCT: int := 2002
  const ARRAY: int := 2003
  const BLOB: int := 2004
  const CLOB: int := 2005
  const SQLXML: int := 2009

  // oracle.jdbc.OracleTypes
  const BINARY_FLOAT: int := 100
  const BINARY_DOUBLE: int := 101
  const TIMESTAMPTZ: int := -101
  const TIMESTAMPLTZ: int := -102
  const INTERVALYM: int := -103
  const INTERVALDS: int := -104
}
