/** The schema records the backend returns and the frontend stores
    (`Column` and `Table` in backend/app/models.py). */
module Models {
  import opened Wrappers

  /** One column: its name, its type as text, whether it is part of the primary key, and the
      `table.column` it references when it is a foreign key. */
  datatype Column = Column(name: string, typ: string, primaryKey: bool, foreignKey: Option<string>)

  datatype Table = Table(name: string, columns: seq<Column>)
}
