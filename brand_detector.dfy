/**
  Brand enumeration (core/brand_detector.py): the brands of a branch are the normalised
  non-empty brand cells of its sales table together with those of its inventory table.
 */
module BrandDetector {
  import opened Wrappers
  import opened Text
  import opened Tables
  import opened DealsEngine

  /** `{normalize_brand_name(b) for b in column.dropna().unique()}`. */
  function NormalizedBrands(column: seq<Option<string>>): (brands: set<string>)
    ensures forall b :: b in brands <==>
      exists i :: 0 <= i < |column| && column[i].Some? && NormalizeBrandName(column[i].value) == b
  {
    set i | 0 <= i < |column| && column[i].Some? :: NormalizeBrandName(column[i].value)
  }

  /** A table without a `brand` column contributes no brand. */
  function TableBrands(columns: seq<string>, column: seq<Option<string>>): (brands: set<string>)
    ensures "brand" !in columns ==> brands == {}
    ensures "brand" in columns ==> brands == NormalizedBrands(column)
  {
    if "brand" in columns then NormalizedBrands(column) else {}
  }

  /** `detect_brands`: sales brands united with inventory brands. */
  function DetectBrands(sales: Frame<SalesRow>, inventory: Frame<InventoryRow>): (brands: set<string>)
    ensures forall b :: b in brands <==>
      ("brand" in sales.columns
        && exists i :: (0 <= i < |sales.rows| && sales.rows[i].brand.Some?
          && NormalizeBrandName(sales.rows[i].brand.value) == b))
      || ("brand" in inventory.columns
        && exists i :: (0 <= i < |inventory.rows| && inventory.rows[i].brand.Some?
          && NormalizeBrandName(inventory.rows[i].brand.value) == b))
  {
    TableBrands(sales.columns, Each(sales.rows, (r: SalesRow) => r.brand))
      + TableBrands(inventory.columns, Each(inventory.rows, (r: InventoryRow) => r.brand))
  }

  /** Every detected brand is already in normal form, so normalising it again is harmless. */
  lemma DetectedBrandsAreNormalized(sales: Frame<SalesRow>, inventory: Frame<InventoryRow>)
    ensures forall b :: b in DetectBrands(sales, inventory) ==> NormalizeBrandName(b) == b
  {
    forall b | b in DetectBrands(sales, inventory)
      ensures NormalizeBrandName(b) == b
    {
      var raw: string;
      if "brand" in sales.columns && exists i :: (0 <= i < |sales.rows| && sales.rows[i].brand.Some?
          && NormalizeBrandName(sales.rows[i].brand.value) == b) {
        var i :| 0 <= i < |sales.rows| && sales.rows[i].brand.Some?
          && NormalizeBrandName(sales.rows[i].brand.value) == b;
        raw := sales.rows[i].brand.value;
      } else {
        var i :| 0 <= i < |inventory.rows| && inventory.rows[i].brand.Some?
          && NormalizeBrandName(inventory.rows[i].brand.value) == b;
        raw := inventory.rows[i].brand.value;
      }
      NormalizeBrandNameIdempotent(raw);
    }
  }

  /**
    Two spellings that differ only in surrounding whitespace or letter case, one in sales and
    one in inventory, are detected as a single brand.
   */
  lemma SpellingsMerge(sales: Frame<SalesRow>, inventory: Frame<InventoryRow>, i: nat, k: nat)
    requires "brand" in sales.columns && "brand" in inventory.columns
    requires i < |sales.rows| && sales.rows[i].brand.Some?
    requires k < |inventory.rows| && inventory.rows[k].brand.Some?
    requires Lower(Strip(sales.rows[i].brand.value)) == Lower(Strip(inventory.rows[k].brand.value))
    ensures NormalizeBrandName(sales.rows[i].brand.value) in DetectBrands(sales, inventory)
    ensures NormalizeBrandName(sales.rows[i].brand.value) == NormalizeBrandName(inventory.rows[k].brand.value)
  {
    NormalizeBrandNameIgnoresCaseAndSpace(sales.rows[i].brand.value, inventory.rows[k].brand.value);
  }
}
