/** The `sort` request parameter: a column name followed by a space and the
    direction keyword, `"<field> ASC"` or `"<field> DESC"`. */
module SortClause {
  import opened Wrappers

  const Ascending: string := " ASC"
  const Descending: string := " DESC"

  /** The sort clause for `field` in the given direction. It reads back as
      that field and direction, whatever spaces the field contains, so
      distinct sort requests never share a clause. */
  function Render(field: string, ascending: bool): (clause: string)
    ensures Parse(clause) == Some((field, ascending))
  {
    var clause := field + (if ascending then Ascending else Descending);
    assert clause[..|field|] == field;
    assert !ascending ==> clause[|clause| - |Ascending|..] == "DESC";
    clause
  }

  /** Reads a sort clause back: the field is everything before the trailing
      direction keyword, whatever spaces the field itself contains. */
  function Parse(clause: string): (r: Option<(string, bool)>)
    ensures r.Some? ==> |r.value.0| < |clause|
  {
    if |clause| >= |Ascending| && clause[|clause| - |Ascending|..] == Ascending then
      Some((clause[..|clause| - |Ascending|], true))
    else if |clause| >= |Descending| && clause[|clause| - |Descending|..] == Descending then
      Some((clause[..|clause| - |Descending|], false))
    else
      None
  }
}
