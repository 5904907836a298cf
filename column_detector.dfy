/**
  Column resolution (utils/column_detector.py): the header normaliser, the alias tables of
  the two upload types, and `detect_columns`, which renames the first matching header of
  every standard column and reports the standard columns still missing.
 */
module ColumnDetector {
  import opened Wrappers
  import opened Text
  import opened Tables

  /** A character the pattern `[a-z0-9]` accepts. */
  predicate IsWordChar(c: char) {
    ('a' <= c <= 'z') || ('0' <= c <= '9')
  }

  /** A character a normalised header may hold. */
  predicate IsKeyChar(c: char) {
    IsWordChar(c) || c == '_'
  }

  /** No two underscores in a row. */
  predicate NoDoubleUnderscore(s: string) {
    forall i :: 0 <= i < |s| - 1 ==> !(s[i] == '_' && s[i + 1] == '_')
  }

  /**
    `re.sub(r"[^a-z0-9]+", "_", s)`: every maximal run of other characters becomes one "_".
    `inRun` says whether the character before `s` already belonged to such a run.
   */
  function Underscored(s: string, inRun: bool): (r: string)
    ensures forall i :: 0 <= i < |r| ==> IsKeyChar(r[i])
    ensures NoDoubleUnderscore(r)
    ensures inRun && r != [] ==> r[0] != '_'
    ensures |r| <= |s|
  {
    if s == [] then []
    else if IsWordChar(s[0]) then [s[0]] + Underscored(s[1..], false)
    else if inRun then Underscored(s[1..], true)
    else ['_'] + Underscored(s[1..], true)
  }

  /** `normalize_column_name`: strip, lower-case, then collapse the runs of other characters. */
  function NormalizeColumnName(name: string): (key: string)
    ensures forall i :: 0 <= i < |key| ==> IsKeyChar(key[i])
    ensures NoDoubleUnderscore(key)
    ensures |key| <= |name|
  {
    Underscored(Lower(Strip(name)), false)
  }

  /** A string already of that shape goes through the substitution unchanged. */
  lemma {:induction false} UnderscoredOfKey(s: string, inRun: bool)
    requires forall i :: 0 <= i < |s| ==> IsKeyChar(s[i])
    requires NoDoubleUnderscore(s)
    requires inRun && s != [] ==> s[0] != '_'
    ensures Underscored(s, inRun) == s
  {
    if s != [] {
      assert NoDoubleUnderscore(s[1..]) by {
        forall i | 0 <= i < |s[1..]| - 1
          ensures !(s[1..][i] == '_' && s[1..][i + 1] == '_')
        {
          assert s[1..][i] == s[i + 1] && s[1..][i + 1] == s[i + 2];
        }
      }
      if IsWordChar(s[0]) {
        UnderscoredOfKey(s[1..], false);
      } else {
        assert |s| > 1 ==> s[1] != '_' by {
          if |s| > 1 { assert !(s[0] == '_' && s[1] == '_'); }
        }
        UnderscoredOfKey(s[1..], true);
      }
    }
  }

  /** Normalising a normalised header changes nothing. */
  lemma NormalizeColumnNameIdempotent(name: string)
    ensures NormalizeColumnName(NormalizeColumnName(name)) == NormalizeColumnName(name)
  {
    var n := NormalizeColumnName(name);
    assert Stripped(n) by {
      if n != [] {
        assert IsKeyChar(n[0]) && IsKeyChar(n[|n| - 1]);
      }
    }
    StripStripped(n);
    assert Lower(n) == n by {
      forall i | 0 <= i < |n|
        ensures Lower(n)[i] == n[i]
      {
        assert IsKeyChar(n[i]);
      }
    }
    UnderscoredOfKey(n, false);
  }

  datatype ColumnError =
    | InvalidFileType
    | MissingColumns(fileType: string, names: seq<string>)

  /** One entry of the alias table: a standard name and its aliases, most preferred first. */
  datatype Expected = Expected(standard: string, aliases: seq<string>)

  /** `get_expected_columns`: the alias table of an upload type, in insertion order. */
  function ExpectedColumns(fileType: string): (r: Result<seq<Expected>, ColumnError>)
    ensures r.Failure? <==> fileType != "sales" && fileType != "inventory"
    ensures r.Failure? ==> r.error == InvalidFileType
  {
    if fileType == "sales" then
      Success([
        Expected("brand", ["brand", "brand_name"]),
        Expected("product_name", ["product_name", "name_ar", "product"]),
        Expected("barcode", ["barcode", "barcodes"]),
        Expected("quantity", ["quantity", "qty"]),
        Expected("total", ["total", "total_price", "amount"])])
    else if fileType == "inventory" then
      Success([
        Expected("brand", ["brand", "brand_name"]),
        Expected("product_name", ["product_name", "name_en", "product"]),
        Expected("barcode", ["barcode", "barcodes"]),
        Expected("unit_price", ["unit_price", "sale_price", "price"]),
        Expected("available_quantity", ["available_quantity", "qty", "stock"])])
    else Failure(InvalidFileType)
  }

  function StandardNames(expected: seq<Expected>): (names: seq<string>)
    ensures |names| == |expected|
    ensures forall k :: 0 <= k < |expected| ==> names[k] == expected[k].standard
  {
    seq(|expected|, k requires 0 <= k < |expected| => expected[k].standard)
  }

  /** The standard names of the two upload types, and that each name is its own first alias. */
  lemma StandardNamesOfTypes()
    ensures StandardNames(ExpectedColumns("sales").value)
      == ["brand", "product_name", "barcode", "quantity", "total"]
    ensures StandardNames(ExpectedColumns("inventory").value)
      == ["brand", "product_name", "barcode", "unit_price", "available_quantity"]
    ensures forall e :: e in ExpectedColumns("sales").value ==> e.aliases[0] == e.standard
    ensures forall e :: e in ExpectedColumns("inventory").value ==> e.aliases[0] == e.standard
  {
  }

  /**
    `{normalize_column_name(col): col for col in df.columns}`: each key maps to the
    last header with that normalised form.
   */
  function NormalizedMap(columns: seq<string>, normalize: string -> string): map<string, string> {
    if columns == [] then map[]
    else
      var last := columns[|columns| - 1];
      NormalizedMap(columns[..|columns| - 1], normalize)[normalize(last) := last]
  }

  /** The keys are exactly the normalised headers. */
  lemma {:induction false} NormalizedMapKeys(columns: seq<string>, key: string, normalize: string -> string)
    ensures key in NormalizedMap(columns, normalize) <==>
      exists j :: 0 <= j < |columns| && normalize(columns[j]) == key
  {
    if columns != [] {
      var init := columns[..|columns| - 1];
      NormalizedMapKeys(init, key, normalize);
      if exists j :: 0 <= j < |init| && normalize(init[j]) == key {
        var j :| 0 <= j < |init| && normalize(init[j]) == key;
        assert columns[j] == init[j];
      }
      if exists j :: 0 <= j < |columns| && normalize(columns[j]) == key {
        var j :| 0 <= j < |columns| && normalize(columns[j]) == key;
        if j < |init| {
          assert init[j] == columns[j];
        }
      }
    }
  }

  /** When several headers normalise alike, the last of them is the one kept. */
  lemma {:induction false} NormalizedMapLastWins(columns: seq<string>, j: nat, normalize: string -> string)
    requires j < |columns|
    requires forall j' :: j < j' < |columns| ==>
      normalize(columns[j']) != normalize(columns[j])
    ensures normalize(columns[j]) in NormalizedMap(columns, normalize)
    ensures NormalizedMap(columns, normalize)[normalize(columns[j])] == columns[j]
  {
    if j < |columns| - 1 {
      var init := columns[..|columns| - 1];
      assert init[j] == columns[j];
      forall j' | j < j' < |init|
        ensures normalize(init[j']) != normalize(init[j])
      {
        assert init[j'] == columns[j'];
      }
      NormalizedMapLastWins(init, j, normalize);
    }
  }

  /** Every value is a header whose normalised form is its key. */
  lemma {:induction false} NormalizedMapValues(columns: seq<string>, normalize: string -> string)
    ensures forall key :: key in NormalizedMap(columns, normalize) ==>
      NormalizedMap(columns, normalize)[key] in columns && normalize(NormalizedMap(columns, normalize)[key]) == key
  {
    if columns != [] {
      var init := columns[..|columns| - 1];
      NormalizedMapValues(init, normalize);
      forall key | key in NormalizedMap(init, normalize)
        ensures NormalizedMap(init, normalize)[key] in columns
      {
        assert NormalizedMap(init, normalize)[key] in init;
      }
    }
  }

  /** The header the aliases from position `j` on find: the first alias whose normal form is a key. */
  function FirstHit(nmap: map<string, string>, aliases: seq<string>, j: nat, normalize: string -> string): (hit: Option<string>)
    requires j <= |aliases|
    ensures hit.Some? <==> exists a :: j <= a < |aliases| && normalize(aliases[a]) in nmap
    ensures hit.Some? ==> hit.value in nmap.Values
    decreases |aliases| - j
  {
    if j == |aliases| then None
    else if normalize(aliases[j]) in nmap then Some(nmap[normalize(aliases[j])])
    else FirstHit(nmap, aliases, j + 1, normalize)
  }

  /** A hit is the header of the earliest matching alias; no earlier alias matched. */
  lemma {:induction false} FirstHitIsFirst(nmap: map<string, string>, aliases: seq<string>, j: nat, normalize: string -> string)
    requires j <= |aliases| && FirstHit(nmap, aliases, j, normalize).Some?
    ensures exists a :: (j <= a < |aliases|
      && normalize(aliases[a]) in nmap
      && FirstHit(nmap, aliases, j, normalize).value == nmap[normalize(aliases[a])]
      && (forall a' :: j <= a' < a ==> normalize(aliases[a']) !in nmap))
    decreases |aliases| - j
  {
    if normalize(aliases[j]) !in nmap {
      FirstHitIsFirst(nmap, aliases, j + 1, normalize);
    }
  }

  /** `final_mapping` after the standard names of `expected`: header to standard name. */
  function Mapping(nmap: map<string, string>, expected: seq<Expected>, normalize: string -> string): map<string, string> {
    if expected == [] then map[]
    else
      var prev := Mapping(nmap, expected[..|expected| - 1], normalize);
      var e := expected[|expected| - 1];
      var hit := FirstHit(nmap, e.aliases, 0, normalize);
      if hit.Some? then prev[hit.value := e.standard] else prev
  }

  /** Every renamed header is a header of the table, and it is renamed to a standard name. */
  lemma {:induction false} MappingShape(nmap: map<string, string>, expected: seq<Expected>, normalize: string -> string)
    ensures forall h :: h in Mapping(nmap, expected, normalize) ==>
      h in nmap.Values && Mapping(nmap, expected, normalize)[h] in StandardNames(expected)
  {
    if expected != [] {
      var init := expected[..|expected| - 1];
      MappingShape(nmap, init, normalize);
      forall h | h in Mapping(nmap, init, normalize)
        ensures Mapping(nmap, init, normalize)[h] in StandardNames(expected)
      {
        var k :| 0 <= k < |init| && StandardNames(init)[k] == Mapping(nmap, init, normalize)[h];
        assert StandardNames(expected)[k] == init[k].standard;
      }
      assert StandardNames(expected)[|expected| - 1] == expected[|expected| - 1].standard;
    }
  }

  /** `df.rename(columns=mapping)`: a mapped label is replaced, any other is kept. */
  function RenameColumns(columns: seq<string>, mapping: map<string, string>): (r: seq<string>)
    ensures |r| == |columns|
    ensures forall i :: 0 <= i < |columns| ==>
      r[i] == (if columns[i] in mapping then mapping[columns[i]] else columns[i])
  {
    seq(|columns|, i requires 0 <= i < |columns| =>
      if columns[i] in mapping then mapping[columns[i]] else columns[i])
  }

  /** The standard names absent from the renamed labels, in the order of `names`. */
  function Missing(names: seq<string>, columns: seq<string>): (m: seq<string>)
    ensures forall x :: x in m <==> x in names && x !in columns
    ensures |m| <= |names|
  {
    if names == [] then []
    else
      var rest := Missing(names[..|names| - 1], columns);
      var last := names[|names| - 1];
      assert names == names[..|names| - 1] + [last];
      if last in columns then rest else rest + [last]
  }

  /** The inner loop of `detect_columns`: tries the aliases in order and stops at the first one found. */
  method FindAlias(normalizedMap: map<string, string>, aliases: seq<string>) returns (hit: Option<string>)
    ensures hit == FirstHit(normalizedMap, aliases, 0, NormalizeColumnName)
  {
    var j := 0;
    while j < |aliases|
      invariant 0 <= j <= |aliases|
      invariant FirstHit(normalizedMap, aliases, j, NormalizeColumnName) == FirstHit(normalizedMap, aliases, 0, NormalizeColumnName)
    {
      var normalizedAlias := NormalizeColumnName(aliases[j]);
      if normalizedAlias in normalizedMap {
        return Some(normalizedMap[normalizedAlias]);
      }
      j := j + 1;
    }
    return None;
  }

  /** The outer loop of `detect_columns`: each standard name in turn maps the header its aliases find. */
  method BuildMapping(normalizedMap: map<string, string>, expected: seq<Expected>) returns (finalMapping: map<string, string>)
    ensures finalMapping == Mapping(normalizedMap, expected, NormalizeColumnName)
  {
    finalMapping := map[];
    var i := 0;
    while i < |expected|
      invariant 0 <= i <= |expected|
      invariant finalMapping == Mapping(normalizedMap, expected[..i], NormalizeColumnName)
    {
      assert expected[..i + 1][..i] == expected[..i];
      var hit := FindAlias(normalizedMap, expected[i].aliases);
      if hit.Some? {
        finalMapping := finalMapping[hit.value := expected[i].standard];
      }
      i := i + 1;
    }
    assert expected[..|expected|] == expected;
  }

  /**
    `detect_columns`: the table with each standard column's first matching header renamed
    to the standard name, or the error naming the standard columns still missing.
   */
  method DetectColumns<R>(df: Frame<R>, fileType: string) returns (r: Result<Frame<R>, ColumnError>)
    ensures ExpectedColumns(fileType).Failure? ==> r == Failure(InvalidFileType)
    ensures ExpectedColumns(fileType).Success? ==>
      var expected := ExpectedColumns(fileType).value;
      var renamed := RenameColumns(df.columns, Mapping(NormalizedMap(df.columns, NormalizeColumnName), expected, NormalizeColumnName));
      var missing := Missing(StandardNames(expected), renamed);
      r == if missing == [] then Success(Frame(renamed, df.rows))
           else Failure(MissingColumns(fileType, missing))
  {
    var normalizedMap := NormalizedMap(df.columns, NormalizeColumnName);
    var expectedColumns := ExpectedColumns(fileType);
    if expectedColumns.Failure? {
      return Failure(expectedColumns.error);
    }
    var expected := expectedColumns.value;
    var finalMapping := BuildMapping(normalizedMap, expected);
    var renamed := RenameColumns(df.columns, finalMapping);
    var missing := Missing(StandardNames(expected), renamed);
    if missing != [] {
      return Failure(MissingColumns(fileType, missing));
    }
    return Success(Frame(renamed, df.rows));
  }

  /**
    After a successful detection every standard name is a column, the rows are those of
    the input and the number of columns is unchanged; a failure lists exactly the
    standard names that did not appear.
   */
  lemma DetectionOutcome<R>(df: Frame<R>, expected: seq<Expected>)
    ensures
      var renamed := RenameColumns(df.columns, Mapping(NormalizedMap(df.columns, NormalizeColumnName), expected, NormalizeColumnName));
      var missing := Missing(StandardNames(expected), renamed);
      (missing == [] <==> forall k :: 0 <= k < |expected| ==> expected[k].standard in renamed)
      && |renamed| == |df.columns|
      && forall x :: x in missing <==> x in StandardNames(expected) && x !in renamed
  {
    var renamed := RenameColumns(df.columns, Mapping(NormalizedMap(df.columns, NormalizeColumnName), expected, NormalizeColumnName));
    var names := StandardNames(expected);
    var missing := Missing(names, renamed);
    if missing != [] {
      assert missing[0] in names;
    }
    if exists k :: 0 <= k < |expected| && expected[k].standard !in renamed {
      var k :| 0 <= k < |expected| && expected[k].standard !in renamed;
      assert names[k] in missing;
    }
  }
}
