/**
  Deal terms per brand (core/deals_engine.py): the brand key normaliser, the row loop that
  builds the deals dictionary from one sheet, `has_deal` and the choice of deal text.
  Reading the workbook is outside the model: the sheet arrives already read, or not at all.
 */
module DealsEngine {
  import opened Wrappers
  import opened Text
  import opened Tables

  datatype Deal = Deal(percentage: real, rent: real)

  /** A numeric cell: empty (NaN), a value `float()` accepts, or text `float()` rejects. */
  datatype NumCell = Blank | Number(value: real) | NonNumeric(text: string)

  /** One row of a deals sheet, under its three required columns. */
  datatype DealRow = DealRow(brandName: Option<string>, percentage: NumCell, rent: NumCell)

  datatype DealsError =
    | SheetUnreadable(mode: string)
    | MissingColumn(column: string, mode: string)
    | NotANumber(text: string)

  const RequiredColumns: seq<string> := ["Brand Name", "Deal Percentage (%)", "Rent Amount (EGP)"]

  /**
    `str(name).strip().title()`: the stripped name with each letter upper-cased when it
    starts a run of letters and lower-cased inside one; other characters are kept.
   */
  function NormalizeBrandName(name: string): (key: string)
    ensures Stripped(key)
    ensures Lower(key) == Lower(Strip(name))
  {
    TitleFromLower(Strip(name), false);
    Title(Strip(name))
  }

  /** The key is the stripped name title-cased letter by letter. */
  lemma NormalizeBrandNameTitleCase(name: string)
    ensures TitleCaseOf(Strip(name), NormalizeBrandName(name))
  {
    TitleCased(Strip(name));
  }

  lemma NormalizeBrandNameIdempotent(name: string)
    ensures NormalizeBrandName(NormalizeBrandName(name)) == NormalizeBrandName(name)
  {
    var t := Strip(name);
    var n := Title(t);
    assert Stripped(n) by {
      if n != [] {
        assert IsSpace(n[0]) == IsSpace(t[0]);
        assert IsSpace(n[|n| - 1]) == IsSpace(t[|t| - 1]);
      }
    }
    StripStripped(n);
    TitleFromIdempotent(t, false);
  }

  /** Names that differ only in surrounding whitespace or in letter case share one key. */
  lemma NormalizeBrandNameIgnoresCaseAndSpace(a: string, b: string)
    requires Lower(Strip(a)) == Lower(Strip(b))
    ensures NormalizeBrandName(a) == NormalizeBrandName(b)
  {
    TitleFromIgnoresCase(Strip(a), false);
    TitleFromIgnoresCase(Strip(b), false);
  }

  /** `str(cell)`: an empty brand cell is NaN and reads as "nan". */
  function BrandText(cell: Option<string>): string {
    if cell.Some? then cell.value else "nan"
  }

  function RowKey(row: DealRow): string {
    NormalizeBrandName(BrandText(row.brandName))
  }

  /** `not brand or brand.lower() == "nan"`. */
  predicate SkippedKey(key: string) {
    key == "" || Lower(key) == "nan"
  }

  /** `float(x) if pd.notna(x) else 0.0`. */
  function ToFloat(c: NumCell): Result<real, DealsError> {
    match c
    case Blank => Success(0.0)
    case Number(v) => Success(v)
    case NonNumeric(t) => Failure(NotANumber(t))
  }

  /** The terms one row contributes; percentage is converted before rent. */
  function RowTerms(row: DealRow): Result<Deal, DealsError> {
    var p := ToFloat(row.percentage);
    if p.Failure? then Failure(p.error)
    else
      var r := ToFloat(row.rent);
      if r.Failure? then Failure(r.error) else Success(Deal(p.value, r.value))
  }

  /**
    The deals dictionary after the first `n` rows of the sheet, each row filed under
    `keyOf(row)`; the loader files rows under `RowKey`.
   */
  function DealsAfter(rows: seq<DealRow>, n: nat, keyOf: DealRow -> string): Result<map<string, Deal>, DealsError>
    requires n <= |rows|
  {
    if n == 0 then Success(map[])
    else
      var prev := DealsAfter(rows, n - 1, keyOf);
      if prev.Failure? then prev
      else
        var key := keyOf(rows[n - 1]);
        if SkippedKey(key) then prev
        else
          var t := RowTerms(rows[n - 1]);
          if t.Failure? then Failure(t.error) else Success(prev.value[key := t.value])
  }

  /** `deals_df.columns.str.strip()`. */
  function StripAll(columns: seq<string>): (r: seq<string>)
    ensures |r| == |columns|
  {
    seq(|columns|, i requires 0 <= i < |columns| => Strip(columns[i]))
  }

  /**
    Loads the deals of the sheet named `mode`; `sheet` is None when that sheet cannot be read.
    Headers are stripped, the three required columns are checked in order, then every row
    with a usable brand key sets (or overwrites) that key's terms.
   */
  method LoadDealsByMode(sheet: Option<Frame<DealRow>>, mode: string)
    returns (r: Result<map<string, Deal>, DealsError>)
    ensures sheet.None? ==> r == Failure(SheetUnreadable(mode))
    ensures sheet.Some? ==>
      var columns := StripAll(sheet.value.columns);
      if exists k :: 0 <= k < |RequiredColumns| && RequiredColumns[k] !in columns then
        exists k :: 0 <= k < |RequiredColumns| && r == Failure(MissingColumn(RequiredColumns[k], mode))
          && RequiredColumns[k] !in columns
          && forall k' :: 0 <= k' < k ==> RequiredColumns[k'] in columns
      else
        r == DealsAfter(sheet.value.rows, |sheet.value.rows|, RowKey)
  {
    if sheet.None? {
      return Failure(SheetUnreadable(mode));
    }
    var columns := StripAll(sheet.value.columns);
    var c := 0;
    while c < |RequiredColumns|
      invariant 0 <= c <= |RequiredColumns|
      invariant forall k' :: 0 <= k' < c ==> RequiredColumns[k'] in columns
    {
      if RequiredColumns[c] !in columns {
        return Failure(MissingColumn(RequiredColumns[c], mode));
      }
      c := c + 1;
    }
    r := LoadRows(sheet.value.rows, RowKey);
  }

  /**
    The row loop of the loader, with the key function as a parameter (the loader passes
    `RowKey`): usable rows set their key's terms, the first unconvertible number ends the load.
   */
  method LoadRows(rows: seq<DealRow>, keyOf: DealRow -> string) returns (r: Result<map<string, Deal>, DealsError>)
    ensures r == DealsAfter(rows, |rows|, keyOf)
  {
    var deals: map<string, Deal> := map[];
    var i := 0;
    while i < |rows|
      invariant 0 <= i <= |rows|
      invariant DealsAfter(rows, i, keyOf) == Success(deals)
    {
      var brand := keyOf(rows[i]);
      if !SkippedKey(brand) {
        var percentage := ToFloat(rows[i].percentage);
        if percentage.Failure? {
          FailureSticks(rows, i + 1, keyOf);
          return Failure(percentage.error);
        }
        var rent := ToFloat(rows[i].rent);
        if rent.Failure? {
          FailureSticks(rows, i + 1, keyOf);
          return Failure(rent.error);
        }
        deals := deals[brand := Deal(percentage.value, rent.value)];
      }
      i := i + 1;
    }
    r := Success(deals);
  }

  /** Once a row fails to convert, the whole load fails with that row's error. */
  lemma {:induction false} FailureSticks(rows: seq<DealRow>, n: nat, keyOf: DealRow -> string)
    requires n <= |rows| && DealsAfter(rows, n, keyOf).Failure?
    ensures DealsAfter(rows, |rows|, keyOf) == DealsAfter(rows, n, keyOf)
    decreases |rows| - n
  {
    if n < |rows| {
      FailureSticks(rows, n + 1, keyOf);
    }
  }

  /** Every key is the usable key of some row. */
  lemma {:induction false} DealKeysComeFromRows(rows: seq<DealRow>, n: nat, keyOf: DealRow -> string)
    requires n <= |rows| && DealsAfter(rows, n, keyOf).Success?
    ensures forall key :: key in DealsAfter(rows, n, keyOf).value ==>
      !SkippedKey(key) && exists j :: 0 <= j < n && keyOf(rows[j]) == key
  {
    if n > 0 {
      DealKeysComeFromRows(rows, n - 1, keyOf);
    }
  }

  /** The loader's keys are usable, normalised brand names of its rows. */
  lemma DealKeysAreNormalized(rows: seq<DealRow>)
    requires DealsAfter(rows, |rows|, RowKey).Success?
    ensures forall key :: key in DealsAfter(rows, |rows|, RowKey).value ==>
      && !SkippedKey(key)
      && NormalizeBrandName(key) == key
      && exists j :: 0 <= j < |rows| && RowKey(rows[j]) == key
  {
    DealKeysComeFromRows(rows, |rows|, RowKey);
    forall key | key in DealsAfter(rows, |rows|, RowKey).value
      ensures NormalizeBrandName(key) == key
    {
      var j :| 0 <= j < |rows| && RowKey(rows[j]) == key;
      NormalizeBrandNameIdempotent(BrandText(rows[j].brandName));
    }
  }

  /**
    Last row wins: a usable row with no later row of the same key gives that key its terms;
    blank numbers have become 0.0.
   */
  lemma {:induction false} LastRowWins(rows: seq<DealRow>, n: nat, j: nat, keyOf: DealRow -> string)
    requires j < n <= |rows| && DealsAfter(rows, n, keyOf).Success?
    requires !SkippedKey(keyOf(rows[j]))
    requires forall j' :: j < j' < n ==> keyOf(rows[j']) != keyOf(rows[j])
    ensures keyOf(rows[j]) in DealsAfter(rows, n, keyOf).value
    ensures Success(DealsAfter(rows, n, keyOf).value[keyOf(rows[j])]) == RowTerms(rows[j])
  {
    if j < n - 1 {
      LastRowWins(rows, n - 1, j, keyOf);
    }
  }

  /** The load fails exactly when some usable row holds a number `float()` rejects. */
  lemma {:induction false} LoadFailsExactly(rows: seq<DealRow>, n: nat, keyOf: DealRow -> string)
    requires n <= |rows|
    ensures DealsAfter(rows, n, keyOf).Failure? <==>
      exists j :: 0 <= j < n && !SkippedKey(keyOf(rows[j])) && RowTerms(rows[j]).Failure?
  {
    if n > 0 {
      LoadFailsExactly(rows, n - 1, keyOf);
    }
  }

  /** `has_deal`: the normalised brand has a positive percentage or a positive rent. */
  function HasDeal(brand: string, deals: map<string, Deal>): (r: bool)
    ensures r <==> (NormalizeBrandName(brand) in deals
      && (deals[NormalizeBrandName(brand)].percentage > 0.0 || deals[NormalizeBrandName(brand)].rent > 0.0))
  {
    var key := NormalizeBrandName(brand);
    key in deals && (deals[key].percentage > 0.0 || deals[key].rent > 0.0)
  }

  /** Two spellings that differ only in surrounding whitespace or letter case get the same answer. */
  lemma HasDealIgnoresSpelling(a: string, b: string, deals: map<string, Deal>)
    requires Lower(Strip(a)) == Lower(Strip(b))
    ensures HasDeal(a, deals) == HasDeal(b, deals)
  {
    NormalizeBrandNameIgnoresCaseAndSpace(a, b);
  }

  /** Normalising a brand before asking changes nothing. */
  lemma HasDealOfNormalized(brand: string, deals: map<string, Deal>)
    ensures HasDeal(NormalizeBrandName(brand), deals) == HasDeal(brand, deals)
  {
    NormalizeBrandNameIdempotent(brand);
  }

  /** Which of the deal texts of `generate_deal_text` is shown; the number formatting is left out. */
  datatype DealText = NoDealText | PercentAndRent(percentage: real, rent: real) | PercentOnly(percentage: real) | RentOnly(rent: real)

  function GenerateDealText(brand: string, deals: map<string, Deal>): (t: DealText)
    ensures t == NoDealText <==> !HasDeal(brand, deals)
    ensures t.PercentAndRent? || t.PercentOnly? ==>
      t.percentage == deals[NormalizeBrandName(brand)].percentage && t.percentage > 0.0
    ensures t.PercentAndRent? || t.RentOnly? ==>
      t.rent == deals[NormalizeBrandName(brand)].rent && t.rent > 0.0
    ensures t.PercentOnly? ==> deals[NormalizeBrandName(brand)].rent <= 0.0
    ensures t.RentOnly? ==> deals[NormalizeBrandName(brand)].percentage <= 0.0
  {
    var key := NormalizeBrandName(brand);
    if key !in deals then NoDealText
    else
      var p := deals[key].percentage;
      var r := deals[key].rent;
      if p > 0.0 && r > 0.0 then PercentAndRent(p, r)
      else if p > 0.0 then PercentOnly(p)
      else if r > 0.0 then RentOnly(r)
      else NoDealText
  }
}
