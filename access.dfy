/** The role gates the write handlers apply before reading the request body. */
module Access {
  import opened Enums

  /** Creating cars and recording sales: refused to viewers and mechanics. */
  predicate MaySell(role: Role)
  {
    role != Viewer && role != Mechanic
  }

  /** Creating customers and expenses: refused to viewers only. */
  predicate MayWrite(role: Role)
  {
    role != Viewer
  }

  /** The gates are nested: whoever may sell may also write, mechanics may write but
      not sell, and viewers may do neither. */
  lemma GatesNested(role: Role)
    ensures MaySell(role) ==> MayWrite(role)
    ensures MayWrite(role) && !MaySell(role) <==> role == Mechanic
    ensures !MayWrite(role) <==> role == Viewer
  {
  }
}
