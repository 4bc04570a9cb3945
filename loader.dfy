/** `DataLoader` (src/data_loader.py): which CSV file of the data folder feeds
    which source, and whether all four sources were found. The folder is given
    as its existence, its listing and what reading each file yields; a read that
    raises is `None`. */
module Loader {
  import opened Base
  import opened Seqs
  import opened Frames

  datatype Key = Facebook | Google | TikTok | BusinessFile

  /** The keys in the order the loader tests them. */
  const Keys: seq<Key> := [Facebook, Google, TikTok, BusinessFile]

  function KeyName(k: Key): string
  {
    match k
    case Facebook => "facebook"
    case Google => "google"
    case TikTok => "tiktok"
    case BusinessFile => "business"
  }

  function KeyIndex(k: Key): nat
  {
    match k
    case Facebook => 0
    case Google => 1
    case TikTok => 2
    case BusinessFile => 3
  }

  /** The source a file name feeds: a name ending in `.csv` goes to the first key
      its lower-cased form contains; any other name feeds nothing. */
  function Classify(name: string): Option<Key>
  {
    var n := Lower(name);
    if !EndsWith(n, ".csv") then None
    else if Contains(n, "facebook") then Some(Facebook)
    else if Contains(n, "google") then Some(Google)
    else if Contains(n, "tiktok") then Some(TikTok)
    else if Contains(n, "business") then Some(BusinessFile)
    else None
  }

  /** A file feeds key `k` exactly when it is a CSV file whose lower-cased name
      contains `k`'s name and none of the names tested before it. */
  lemma ClassifySpec(name: string, k: Key)
    ensures Classify(name) == Some(k) <==>
      && EndsWith(Lower(name), ".csv")
      && Contains(Lower(name), KeyName(k))
      && forall j :: 0 <= j < KeyIndex(k) ==> !Contains(Lower(name), KeyName(Keys[j]))
  {
    assert Keys[0] == Facebook && Keys[1] == Google && Keys[2] == TikTok;
  }

  type Files = map<Key, Option<Table>>

  /** Every key present, holding nothing. */
  const NoFiles: Files := map[Facebook := None, Google := None, TikTok := None, BusinessFile := None]

  /** The data folder: whether it exists, its listing, and the outcome of reading
      each file. */
  datatype Disk = Disk(present: bool, listing: seq<string>, read: string -> Option<Table>)

  datatype LoadError = FolderNotFound(folder: string) | ReadFailed(file: string)

  datatype Loaded = Loaded(files: Files, error: Option<LoadError>)

  /** The state after the loader has gone through `names` in order: a read
      failure ends the scan, keeping what was loaded so far. */
  function Scan(disk: Disk, names: seq<string>): Loaded
    decreases |names|
  {
    if names == [] then Loaded(NoFiles, None)
    else
      var prev := Scan(disk, names[..|names| - 1]);
      var name := names[|names| - 1];
      if prev.error.Some? then prev
      else match Classify(name)
        case None => prev
        case Some(k) =>
          match disk.read(name)
          case None => Loaded(prev.files, Some(ReadFailed(name)))
          case Some(t) => Loaded(prev.files[k := Some(t)], None)
  }

  /** `load_csv_files`. */
  function Load(folder: string, disk: Disk): Loaded
  {
    if !disk.present then Loaded(NoFiles, Some(FolderNotFound(folder)))
    else Scan(disk, disk.listing)
  }

  /** Once the scan has failed, later names change nothing. */
  lemma {:induction false} ScanStops(disk: Disk, names: seq<string>, i: nat)
    requires i <= |names| && Scan(disk, names[..i]).error.Some?
    ensures Scan(disk, names) == Scan(disk, names[..i])
    decreases |names| - i
  {
    if i < |names| {
      assert names[..|names| - 1][..i] == names[..i];
      ScanStops(disk, names[..|names| - 1], i);
    } else {
      assert names[..i] == names;
    }
  }

  /** The last listed name that feeds `k`. */
  function LastFor(names: seq<string>, k: Key): (r: Option<string>)
    ensures r.Some? ==> r.value in names && Classify(r.value) == Some(k)
    decreases |names|
  {
    if names == [] then None
    else if Classify(names[|names| - 1]) == Some(k) then Some(names[|names| - 1])
    else LastFor(names[..|names| - 1], k)
  }

  /** One more name, after a prefix scanned without failure. */
  lemma ScanStep(disk: Disk, names: seq<string>, i: nat)
    requires i < |names|
    ensures var prev := Scan(disk, names[..i]);
      prev.error.None? ==>
        Scan(disk, names[..i + 1]) ==
          match Classify(names[i])
          case None => prev
          case Some(k) =>
            match disk.read(names[i])
            case None => Loaded(prev.files, Some(ReadFailed(names[i])))
            case Some(t) => Loaded(prev.files[k := Some(t)], None)
  {
    assert names[..i + 1][..i] == names[..i];
  }

  /** A scan without a read failure holds, for each key, what reading the last
      file that feeds it gave: a later file overrides an earlier one. */
  lemma {:induction false} ScanLastWins(disk: Disk, names: seq<string>, k: Key)
    requires Scan(disk, names).error.None?
    ensures k in Scan(disk, names).files
    ensures Scan(disk, names).files[k] == if LastFor(names, k).None? then None else disk.read(LastFor(names, k).value)
    ensures LastFor(names, k).Some? ==> disk.read(LastFor(names, k).value).Some?
    decreases |names|
  {
    if names != [] {
      var init := names[..|names| - 1];
      var name := names[|names| - 1];
      var prev := Scan(disk, init);
      assert prev.error.None?;
      ScanLastWins(disk, init, k);
      if Classify(name) == Some(k) {
        assert LastFor(names, k) == Some(name);
        assert disk.read(name).Some?;
      } else {
        assert LastFor(names, k) == LastFor(init, k);
        assert Scan(disk, names).files[k] == prev.files[k];
      }
    }
  }

  /** A scan that failed stopped at a listed file feeding some key whose read
      failed, keeping the files loaded from the names before it. */
  lemma {:induction false} ScanFailure(disk: Disk, names: seq<string>)
    requires Scan(disk, names).error.Some?
    ensures exists i :: (0 <= i < |names| && Scan(disk, names[..i]).error.None?
      && Classify(names[i]).Some? && disk.read(names[i]).None?
      && Scan(disk, names) == Loaded(Scan(disk, names[..i]).files, Some(ReadFailed(names[i]))))
    decreases |names|
  {
    var n := |names| - 1;
    var init := names[..n];
    if Scan(disk, init).error.Some? {
      ScanFailure(disk, init);
      var i :| 0 <= i < |init| && Scan(disk, init[..i]).error.None?
        && Classify(init[i]).Some? && disk.read(init[i]).None?
        && Scan(disk, init) == Loaded(Scan(disk, init[..i]).files, Some(ReadFailed(init[i])));
      assert init[..i] == names[..i];
    } else {
      assert names[..n] == init;
    }
  }

  /** `missing_files` of `validate_data_files`: `<key>.csv` for every key absent
      or holding nothing, in key order. */
  predicate IsMissing(files: Files, k: Key)
  {
    k !in files || files[k].None?
  }

  function CsvName(k: Key): string
  {
    KeyName(k) + ".csv"
  }

  function MissingIn(files: Files): Key -> bool
  {
    (k: Key) => IsMissing(files, k)
  }

  function MissingFiles(files: Files): seq<string>
  {
    Map(Filter(Keys, MissingIn(files)), CsvName)
  }

  /** Different keys give different file names. */
  lemma CsvNameInjective(a: Key, b: Key)
    requires CsvName(a) == CsvName(b)
    ensures a == b
  {
    assert CsvName(a)[0] == CsvName(b)[0];
  }

  /** After a scan without failure a key is missing exactly when no listed CSV
      file feeds it, so validation passes exactly when every source has a file. */
  lemma LoadedMissing(disk: Disk, names: seq<string>, k: Key)
    requires Scan(disk, names).error.None?
    ensures IsMissing(Scan(disk, names).files, k) <==> LastFor(names, k).None?
    ensures CsvName(k) in MissingFiles(Scan(disk, names).files) <==> LastFor(names, k).None?
  {
    ScanLastWins(disk, names, k);
    var files := Scan(disk, names).files;
    var missing := Filter(Keys, MissingIn(files));
    assert Keys[KeyIndex(k)] == k;
    if CsvName(k) in MissingFiles(files) {
      var i :| 0 <= i < |missing| && MissingFiles(files)[i] == CsvName(k);
      CsvNameInjective(missing[i], k);
      assert missing[i] in missing;
    }
    if IsMissing(files, k) {
      assert k in missing;
      var i :| 0 <= i < |missing| && missing[i] == k;
      assert MissingFiles(files)[i] == CsvName(k);
    }
  }

  /** One more key checked appends its file name when it is missing. */
  lemma MissingStep(files: Files, i: nat)
    requires i < |Keys|
    ensures Map(Filter(Keys[..i + 1], MissingIn(files)), CsvName)
         == Map(Filter(Keys[..i], MissingIn(files)), CsvName)
            + (if IsMissing(files, Keys[i]) then [CsvName(Keys[i])] else [])
  {
    var key := Keys[i];
    assert Keys[..i + 1] == Keys[..i] + [key];
    FilterAppend(Keys[..i], [key], MissingIn(files));
    MapAppend(Filter(Keys[..i], MissingIn(files)), Filter([key], MissingIn(files)), CsvName);
  }

  /** Nothing is reported missing exactly when every key holds a table. */
  lemma NoneMissing(files: Files)
    ensures MissingFiles(files) == [] <==> forall k :: !IsMissing(files, k)
  {
    forall k | IsMissing(files, k) ensures MissingFiles(files) != [] {
      assert Keys[KeyIndex(k)] == k;
      assert k in Filter(Keys, MissingIn(files));
    }
  }

  class DataLoader {
    var dataFolder: string

    constructor(folder: string)
      ensures dataFolder == folder
    {
      dataFolder := folder;
    }

    /** `load_csv_files`: the scan of the listing, stopping at the first read
        that fails. */
    method LoadCsvFiles(disk: Disk) returns (r: Loaded)
      ensures r == Load(dataFolder, disk)
    {
      if !disk.present {
        return Loaded(NoFiles, Some(FolderNotFound(dataFolder)));
      }
      var files := NoFiles;
      var i := 0;
      while i < |disk.listing|
        invariant 0 <= i <= |disk.listing|
        invariant Scan(disk, disk.listing[..i]) == Loaded(files, None)
      {
        var name := disk.listing[i];
        ScanStep(disk, disk.listing, i);
        var key := Classify(name);
        if key.Some? {
          var content := disk.read(name);
          if content.None? {
            ScanStops(disk, disk.listing, i + 1);
            return Loaded(files, Some(ReadFailed(name)));
          }
          files := files[key.value := content];
        }
        i := i + 1;
      }
      assert disk.listing[..i] == disk.listing;
      r := Loaded(files, None);
    }

    /** `validate_data_files`: the missing files in key order; valid exactly
        when there are none. */
    method ValidateDataFiles(files: Files) returns (ok: bool, missing: seq<string>)
      ensures missing == MissingFiles(files)
      ensures ok <==> forall k :: !IsMissing(files, k)
    {
      missing := [];
      for i := 0 to |Keys|
        invariant missing == Map(Filter(Keys[..i], MissingIn(files)), CsvName)
      {
        var key := Keys[i];
        MissingStep(files, i);
        if key !in files || files[key].None? {
          missing := missing + [CsvName(key)];
        }
      }
      assert Keys[..|Keys|] == Keys;
      ok := |missing| == 0;
      NoneMissing(files);
    }
  }
}
