/**
 * Column names through the join at dashboard.py lines 115-118, as the
 * code is written. Both tables carry `units_sold` and `revenue`, so the
 * merge renames both copies with the suffixes `_x` and `_y`, and the
 * next line reads a column that no longer exists.
 */
module PandasColumns {
  import opened Wrappers

  /** The column names of a table, in order. */
  type Columns = seq<string>

  /** Each name of `cols` that also occurs in `other` gets `suffix`. */
  function Suffixed(cols: Columns, other: Columns, suffix: string): (r: Columns)
    ensures |r| == |cols|
  {
    seq(|cols|, i requires 0 <= i < |cols| => if cols[i] in other then cols[i] + suffix else cols[i])
  }

  /**
   * The columns of the merge at line 115, whose two key columns have
   * different names: the left columns, then the right ones, with `_x`
   * and `_y` on every name the two sides share.
   */
  function MergedColumns(left: Columns, right: Columns): (r: Columns)
    ensures |r| == |left| + |right|
    ensures forall i :: 0 <= i < |left| ==> r[i] == if left[i] in right then left[i] + "_x" else left[i]
    ensures forall i :: 0 <= i < |right| ==> r[|left| + i] == if right[i] in left then right[i] + "_y" else right[i]
  {
    Suffixed(left, right, "_x") + Suffixed(right, left, "_y")
  }

  /** Renames column `from` to `to`. */
  function Rename(cols: Columns, from: string, to: string): Columns
  {
    seq(|cols|, i requires 0 <= i < |cols| => if cols[i] == from then to else cols[i])
  }

  /** Assigning to a column adds it at the end unless it is there already. */
  function Assign(cols: Columns, name: string): Columns
  {
    if name in cols then cols else cols + [name]
  }

  /** The columns of the products table of the demo data. */
  const ProductColumns: Columns := ["id", "title", "category", "price", "units_sold", "revenue", "date"]

  /** The columns of the rollup of line 112, with the title turned back into a column. */
  const RollupColumns: Columns := ["product", "units_sold", "revenue"]

  /**
   * Lines 115-118 as written: merge, read the column `units_sold`, read
   * the column `revenue`, assign both results, rename `revenue_y`. A read
   * of a missing column is a KeyError, modelled as `Err(name)`.
   */
  function JoinStepAsWritten(left: Columns, right: Columns): (r: Result<Columns, string>)
    ensures r.Err? <==> "units_sold" !in MergedColumns(left, right) || "revenue" !in MergedColumns(left, right)
    ensures r.Err? ==> r.error !in MergedColumns(left, right)
  {
    var merged := MergedColumns(left, right);
    if "units_sold" !in merged then Err("units_sold")
    else if "revenue" !in merged then Err("revenue")
    else
      var written := Assign(Assign(merged, "units_sold"), "revenue_y");
      Ok(Rename(written, "revenue_y", "revenue_from_orders"))
  }

  /** A name shared by both sides is renamed wherever it stands, as long as the suffix does not end like the name. */
  lemma SuffixedLacks(cols: Columns, other: Columns, suffix: string, name: string)
    requires name in other && suffix != [] && name != []
    requires name[|name| - 1] != suffix[|suffix| - 1]
    ensures name !in Suffixed(cols, other, suffix)
  {
    var r := Suffixed(cols, other, suffix);
    forall i | 0 <= i < |r| ensures r[i] != name {
      if cols[i] in other {
        var c := cols[i] + suffix;
        assert c[|c| - 1] == suffix[|suffix| - 1];
      }
    }
  }

  /** Whenever both tables have a `units_sold` column, line 116 raises KeyError: 'units_sold'. */
  lemma JoinStepAsWrittenFails(left: Columns, right: Columns)
    requires "units_sold" in left && "units_sold" in right
    ensures JoinStepAsWritten(left, right) == Err("units_sold")
  {
    SuffixedLacks(left, right, "_x", "units_sold");
    SuffixedLacks(right, left, "_y", "units_sold");
  }

  /** The dashboard's own tables always reach that case, whatever the data and the filters. */
  lemma DashboardJoinFails()
    ensures JoinStepAsWritten(ProductColumns, RollupColumns) == Err("units_sold")
  {
    assert ProductColumns[4] == "units_sold" && RollupColumns[1] == "units_sold";
    JoinStepAsWrittenFails(ProductColumns, RollupColumns);
  }
}
