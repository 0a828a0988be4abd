/** Values shared by both stages of the ETL script: a CSV row as the `csv`
    module hands it over (a list of string fields), and an optional value. */
module Rows {

  type Field = string

  /** One CSV record: its fields, in column order. */
  type Row = seq<Field>

  datatype Option<T> = None | Some(value: T)
}
