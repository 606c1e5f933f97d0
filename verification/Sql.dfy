/** SQL values: nullable columns and three-valued comparison. */
module Sql {

  datatype Option<+T> = None | Some(value: T)

  /** The truth values of a SQL predicate. A WHERE clause keeps the rows for which it is `True`. */
  datatype Truth = True | False | Unknown

  /** `a = b`: unknown as soon as one side is NULL. */
  function Eq<T(==)>(a: Option<T>, b: Option<T>): Truth {
    if a.None? || b.None? then Unknown else if a == b then True else False
  }

  function And(a: Truth, b: Truth): Truth {
    if a == False || b == False then False
    else if a == True && b == True then True
    else Unknown
  }

  function Or(a: Truth, b: Truth): Truth {
    if a == True || b == True then True
    else if a == False && b == False then False
    else Unknown
  }

  /** `a IS NULL`, which is never unknown. */
  function IsNull<T>(a: Option<T>): Truth {
    if a.None? then True else False
  }

  /** `a IS NOT NULL`, which is never unknown. */
  function IsNotNull<T>(a: Option<T>): Truth {
    if a.None? then False else True
  }

  /** `a IS DISTINCT FROM b`: NULL-safe inequality, never unknown. */
  function Distinct<T(==)>(a: Option<T>, b: Option<T>): Truth {
    if a == b then False else True
  }

  /** `COALESCE(a, b)` */
  function Coalesce<T>(a: Option<T>, b: Option<T>): Option<T> {
    if a.Some? then a else b
  }
}
