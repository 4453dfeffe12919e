/**
 * Header-indexed access to the cells of a row: `commons.BuildHeaderIndex` and `data.Val`.
 * Neither implementation is part of this model; both are given the meaning the adapter
 * relies on: a map from column name to position, and lookup-or-empty.
 */
module RowAccess {

  /** Column name to the position of its cell in every data row. */
  type HeaderIndex = map<string, nat>

  /**
   * Each header name maps to its position; a repeated name keeps its last position. The
   * keys are exactly the header names, and no later header repeats a key's name.
   */
  function BuildHeaderIndex(headers: seq<string>): (hidx: HeaderIndex)
    ensures forall name :: name in hidx <==> name in headers
    ensures forall name :: name in hidx ==>
              hidx[name] < |headers| && headers[hidx[name]] == name
              && forall j :: hidx[name] < j < |headers| ==> headers[j] != name
    decreases |headers|
  {
    if headers == [] then map[]
    else
      var init := headers[..|headers| - 1];
      assert headers == init + [headers[|headers| - 1]];
      BuildHeaderIndex(init)[headers[|headers| - 1] := |headers| - 1]
  }

  /** The cell of `row` under column `name`, or "" when the column or the cell is missing. */
  function Val(row: seq<string>, hidx: HeaderIndex, name: string): (cell: string)
    ensures cell == "" || cell in row
  {
    if name in hidx && hidx[name] < |row| then row[hidx[name]] else ""
  }

  /** A column absent from the header row reads as the empty cell in every row. */
  lemma ValMissingColumn(headers: seq<string>, row: seq<string>, name: string)
    requires name !in headers
    ensures Val(row, BuildHeaderIndex(headers), name) == ""
  {
  }

  /**
   * A column reads the cell under its last occurrence in the header, or "" when the row
   * is too short to have that cell.
   */
  lemma ValPresentColumn(headers: seq<string>, row: seq<string>, i: nat)
    requires i < |headers|
    requires forall j :: i < j < |headers| ==> headers[j] != headers[i]
    ensures Val(row, BuildHeaderIndex(headers), headers[i]) == if i < |row| then row[i] else ""
  {
    var hidx := BuildHeaderIndex(headers);
    assert hidx[headers[i]] == i by {
      var k := hidx[headers[i]];
      assert headers[k] == headers[i];
    }
  }
}
