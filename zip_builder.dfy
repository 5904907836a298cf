/**
  The archive of brand reports (core/zip_builder.py): file names made safe for paths, and
  one entry per built workbook, filed under Reports/ or Reports/Empty Brand Guard/.
  Compression and the byte layout of the zip file are outside the model: the archive is
  the sequence of (path, bytes) entries written to it, in order.
 */
module ZipBuilder {
  import opened Wrappers
  import opened Text

  newtype byte = x: int | 0 <= x < 256

  /** What `build_reports_zip` receives per brand: the workbook's bytes, if built, and whether it sold. */
  datatype BrandWorkbook = BrandWorkbook(buffer: Option<seq<byte>>, hasSales: bool)

  datatype Entry = Entry(path: string, data: seq<byte>)

  /** A character `safe_filename` replaces. */
  predicate IsPathChar(c: char) {
    c == '/' || c == '\\' || c == ':'
  }

  /** The character `safe_filename`'s three replacements turn `c` into. */
  function SafeChar(c: char): char {
    if IsPathChar(c) then '-' else c
  }

  /** The three `replace` calls of `safe_filename`, before the trim. */
  function Replaced(name: string): (r: string)
    ensures |r| == |name|
    ensures forall i :: 0 <= i < |name| ==> r[i] == SafeChar(name[i])
  {
    ReplaceChar(ReplaceChar(ReplaceChar(name, '/', '-'), '\\', '-'), ':', '-')
  }

  /** `safe_filename`: '/', '\' and ':' become '-', then surrounding whitespace goes. */
  function SafeFilename(name: string): (safe: string)
    ensures forall i :: 0 <= i < |safe| ==> !IsPathChar(safe[i])
    ensures Stripped(safe)
  {
    StripIsSlice(Replaced(name));
    Strip(Replaced(name))
  }

  /**
    `safe` is `name[a..b]` with every '/', '\' and ':' turned into '-' and every other
    character kept, and only whitespace lies outside `name[a..b]`.
   */
  predicate TrimmedReplacement(name: string, safe: string, a: int, b: int) {
    && 0 <= a <= b <= |name|
    && |safe| == b - a
    && (forall i :: 0 <= i < b - a ==> safe[i] == SafeChar(name[a + i]))
    && (forall i :: 0 <= i < a ==> IsSpace(name[i]))
    && (forall i :: b <= i < |name| ==> IsSpace(name[i]))
  }

  /** Whitespace after the replacements was whitespace before them. */
  lemma SafeCharSpace(c: char)
    ensures IsSpace(SafeChar(c)) ==> IsSpace(c)
  {
  }

  /** The safe name is the name with the three replacements made and its ends trimmed. */
  lemma SafeFilenameMeaning(name: string)
    ensures exists a, b :: TrimmedReplacement(name, SafeFilename(name), a, b)
  {
    var r := Replaced(name);
    var a := SkipSpace(r, 0);
    var b := TrimEnd(r, |r|);
    forall i | 0 <= i < |name| && IsSpace(r[i])
      ensures IsSpace(name[i])
    {
      SafeCharSpace(name[i]);
    }
    if a == |r| {
      assert SafeFilename(name) == [];
      assert TrimmedReplacement(name, [], a, a);
    } else {
      assert !IsSpace(r[a]);
      assert a < b;
      var safe := SafeFilename(name);
      assert safe == r[a..b];
      forall i | 0 <= i < b - a
        ensures safe[i] == SafeChar(name[a + i])
      {
        assert safe[i] == r[a + i];
      }
      assert TrimmedReplacement(name, safe, a, b);
    }
  }

  /** A safe name is its own safe name. */
  lemma SafeFilenameIdempotent(name: string)
    ensures SafeFilename(SafeFilename(name)) == SafeFilename(name)
  {
    var safe := SafeFilename(name);
    assert Replaced(safe) == safe;
    StripStripped(safe);
  }

  /** Two different brands can be filed under one name. */
  lemma SafeFilenameCollides()
    ensures SafeFilename("A/B") == SafeFilename("A:B") == "A-B"
  {
    assert Replaced("A/B") == "A-B" && Replaced("A:B") == "A-B";
    StripStripped("A-B");
  }

  const ReportsDir: string := "Reports/"
  const GuardDir: string := "Reports/Empty Brand Guard/"

  /** The path of a brand's workbook: the guard folder holds the brands without sales. */
  function ArchivePath(brand: string, hasSales: bool): (path: string)
    ensures hasSales ==> path == ReportsDir + SafeFilename(brand) + ".xlsx"
    ensures !hasSales ==> path == GuardDir + SafeFilename(brand) + ".xlsx"
  {
    (if hasSales then ReportsDir else GuardDir) + SafeFilename(brand) + ".xlsx"
  }

  /** Whatever the brand is called, its entry lands in the guard folder exactly when it has no sales. */
  lemma GuardFolderIffNoSales(brand: string, hasSales: bool)
    ensures GuardDir <= ArchivePath(brand, hasSales) <==> !hasSales
  {
    var path := ArchivePath(brand, hasSales);
    if hasSales && GuardDir <= path {
      NoSlashAfterReports(brand, |GuardDir| - 1);
      assert false;
    }
  }

  /** After "Reports/" the path of a selling brand holds no further '/'. */
  lemma NoSlashAfterReports(brand: string, k: nat)
    requires |ReportsDir| <= k < |ArchivePath(brand, true)|
    ensures ArchivePath(brand, true)[k] != '/'
  {
    var safe := SafeFilename(brand);
    assert ArchivePath(brand, true) == ReportsDir + (safe + ".xlsx");
    if k - |ReportsDir| < |safe| {
      assert !IsPathChar(safe[k - |ReportsDir|]);
    }
  }

  /** The entries written for the first `n` brands, in the dictionary's order. */
  function PlannedEntries(workbooks: seq<(string, BrandWorkbook)>): seq<Entry> {
    if workbooks == [] then []
    else
      var prev := PlannedEntries(workbooks[..|workbooks| - 1]);
      var (brand, data) := workbooks[|workbooks| - 1];
      if data.buffer.None? then prev
      else prev + [Entry(ArchivePath(brand, data.hasSales), data.buffer.value)]
  }

  /** The brands of `workbooks` that have a built workbook. */
  function Built(workbooks: seq<(string, BrandWorkbook)>): (n: nat)
    ensures n <= |workbooks|
  {
    if workbooks == [] then 0
    else Built(workbooks[..|workbooks| - 1]) + (if workbooks[|workbooks| - 1].1.buffer.Some? then 1 else 0)
  }

  /** One entry per built workbook and none for the others. */
  lemma {:induction false} PlannedCount(workbooks: seq<(string, BrandWorkbook)>)
    ensures |PlannedEntries(workbooks)| == Built(workbooks)
  {
    if workbooks != [] {
      PlannedCount(workbooks[..|workbooks| - 1]);
    }
  }

  /** The entry a brand with a built workbook gets: its bytes at its path. */
  function EntryFor(w: (string, BrandWorkbook)): Entry
    requires w.1.buffer.Some?
  {
    Entry(ArchivePath(w.0, w.1.hasSales), w.1.buffer.value)
  }

  /** Every entry is some built brand's workbook, at that brand's path, with exactly its bytes. */
  lemma {:induction false} PlannedEntriesSound(workbooks: seq<(string, BrandWorkbook)>)
    ensures forall e :: e in PlannedEntries(workbooks) ==>
      exists i :: 0 <= i < |workbooks| && workbooks[i].1.buffer.Some? && e == EntryFor(workbooks[i])
  {
    if workbooks != [] {
      var init := workbooks[..|workbooks| - 1];
      PlannedEntriesSound(init);
      forall e | e in PlannedEntries(workbooks)
        ensures exists i :: 0 <= i < |workbooks| && workbooks[i].1.buffer.Some? && e == EntryFor(workbooks[i])
      {
        if e in PlannedEntries(init) {
          var i :| 0 <= i < |init| && init[i].1.buffer.Some? && e == EntryFor(init[i]);
          assert workbooks[i] == init[i];
        } else {
          assert e == EntryFor(workbooks[|workbooks| - 1]);
        }
      }
    }
  }

  /** Every brand with a built workbook has its entry. */
  lemma {:induction false} PlannedEntriesComplete(workbooks: seq<(string, BrandWorkbook)>)
    ensures forall i :: 0 <= i < |workbooks| && workbooks[i].1.buffer.Some? ==>
      EntryFor(workbooks[i]) in PlannedEntries(workbooks)
  {
    if workbooks != [] {
      var init := workbooks[..|workbooks| - 1];
      PlannedEntriesComplete(init);
      forall i | 0 <= i < |init| && workbooks[i].1.buffer.Some?
        ensures EntryFor(workbooks[i]) in PlannedEntries(workbooks)
      {
        assert workbooks[i] == init[i];
      }
    }
  }

  /** The archive being written: `writestr` only ever appends. */
  class ZipArchive {
    var entries: seq<Entry>

    constructor ()
      ensures entries == []
    {
      entries := [];
    }

    method WriteStr(path: string, data: seq<byte>)
      modifies this
      ensures entries == old(entries) + [Entry(path, data)]
    {
      entries := entries + [Entry(path, data)];
    }
  }

  /**
    `build_reports_zip`: walks the brands in order, skips those without a workbook and
    writes every other one at its path.
   */
  method BuildReportsZip(workbooks: seq<(string, BrandWorkbook)>) returns (zip: ZipArchive)
    ensures fresh(zip)
    ensures zip.entries == PlannedEntries(workbooks)
  {
    zip := new ZipArchive();
    var i := 0;
    while i < |workbooks|
      invariant 0 <= i <= |workbooks|
      invariant zip.entries == PlannedEntries(workbooks[..i])
    {
      assert workbooks[..i + 1][..i] == workbooks[..i];
      var (brand, data) := workbooks[i];
      if data.buffer.Some? {
        var safeName := SafeFilename(brand);
        var path := if data.hasSales then ReportsDir + safeName + ".xlsx" else GuardDir + safeName + ".xlsx";
        zip.WriteStr(path, data.buffer.value);
      }
      i := i + 1;
    }
    assert workbooks[..|workbooks|] == workbooks;
  }
}
