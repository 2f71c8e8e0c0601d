/**
 * The JSON importer (app/database/utils/import-util.js): a vocabulary file becomes a stored
 * list named after the file, created or, when the name is taken, updated; a directory is
 * imported file by file.
 *
 * File contents and directory listings are parameters (`JSON.parse` of the file, or the
 * message of the error reading or parsing it). The store behind `createList` and
 * `updateList` is a value: lists by name, and optionally a failure every call rejects with
 * (the store cannot be reached). `createList` rejects a taken name with a message containing
 * `existiert bereits`; `updateList` replaces the vocabulary of a list it finds.
 */
module ImportUtil {
  import opened Wrappers
  import opened JsStrings
  import opened Json

  /** A normalised entry: exactly the two fields `DE` and `VN`. */
  datatype ImportEntry = ImportEntry(DE: JsValue, VN: JsValue)

  /** Why an import failed, as carried in its `error` message. */
  datatype ImportError =
    | ReadFailed(message: string)        // the file could not be read or parsed
    | NotAnArray
    | EntryTypeError(error: TypeError)   // a `null` entry
    | MissingGerman                      // neither `DE` nor `deutsch`
    | MissingVietnamese                  // neither `VN` nor `vietnamesisch`
    | DatabaseFailed(message: string)

  // ---------------------------------------------------------------------------------------
  // Normalisation
  // ---------------------------------------------------------------------------------------

  /**
   * `entry[name] !== undefined ? entry[name] : entry[legacy] !== undefined ? entry[legacy] : none`.
   * The legacy name is only read when the first is undefined.
   */
  function PickField(entry: JsValue, name: string, legacy: string): (r: Result<Option<JsValue>, TypeError>)
    ensures r.Err? <==> entry.Undefined? || entry.Null?
    ensures r.Ok? && Property(entry, name).value != Undefined ==> r.value == Some(Property(entry, name).value)
    ensures r.Ok? && Property(entry, name).value == Undefined ==>
              r.value == (if Property(entry, legacy).value != Undefined then Some(Property(entry, legacy).value) else None)
    ensures r.Ok? && r.value.Some? ==> r.value.value != Undefined
  {
    match Property(entry, name)
    case Err(e) => Err(e)
    case Ok(v) =>
      if v != Undefined then Ok(Some(v))
      else match Property(entry, legacy)
        case Err(e) => Err(e)
        case Ok(w) => Ok(if w != Undefined then Some(w) else None)
  }

  /** The callback of `vocabulary.map`: `DE` is settled (or fails) before `VN` is looked at. */
  function NormalizeImportEntry(entry: JsValue): (r: Result<ImportEntry, ImportError>)
    ensures r.Err? && r.error.EntryTypeError? <==> entry.Undefined? || entry.Null?
  {
    match PickField(entry, "DE", "deutsch")
    case Err(e) => Err(EntryTypeError(e))
    case Ok(None) => Err(MissingGerman)
    case Ok(Some(de)) =>
      match PickField(entry, "VN", "vietnamesisch")
      case Err(e) => Err(EntryTypeError(e))
      case Ok(None) => Err(MissingVietnamese)
      case Ok(Some(vn)) => Ok(ImportEntry(de, vn))
  }

  /**
   * Presence is tested against `undefined` only: an object entry keeps any defined `DE`,
   * falsy ones such as `""`, `0` or `null` included, and falls back to `deutsch` only when
   * `DE` is absent; the same holds for `VN` and `vietnamesisch`.
   */
  lemma ImportEntryFields(fields: map<string, JsValue>)
    ensures var r := NormalizeImportEntry(Obj(fields));
      && (r.Ok? <==> ((Field(fields, "DE") != Undefined || Field(fields, "deutsch") != Undefined)
                      && (Field(fields, "VN") != Undefined || Field(fields, "vietnamesisch") != Undefined)))
      && (r.Ok? ==> r.value.DE == (if Field(fields, "DE") != Undefined then Field(fields, "DE") else Field(fields, "deutsch")))
      && (r.Ok? ==> r.value.VN == (if Field(fields, "VN") != Undefined then Field(fields, "VN") else Field(fields, "vietnamesisch")))
      && (r == Err(MissingGerman) <==> Field(fields, "DE") == Undefined && Field(fields, "deutsch") == Undefined)
  {
  }

  /** `vocabulary.map(...)`: the first entry that throws ends the import. */
  function NormalizeImport(items: seq<JsValue>): Result<seq<ImportEntry>, ImportError> {
    if |items| == 0 then Ok([])
    else match NormalizeImportEntry(items[0])
      case Err(e) => Err(e)
      case Ok(x) =>
        match NormalizeImport(items[1..])
        case Err(e) => Err(e)
        case Ok(xs) => Ok([x] + xs)
  }

  /**
   * Normalisation succeeds exactly when every entry does; it then keeps the length and the
   * order, entry by entry. Otherwise it fails with the error of the first failing entry.
   */
  lemma {:induction false} NormalizeImportSpec(items: seq<JsValue>)
    ensures var r := NormalizeImport(items);
      && (r.Ok? <==> forall i :: 0 <= i < |items| ==> NormalizeImportEntry(items[i]).Ok?)
      && (r.Ok? ==> |r.value| == |items| && forall i :: 0 <= i < |items| ==> r.value[i] == NormalizeImportEntry(items[i]).value)
      && (r.Err? ==> exists k :: 0 <= k < |items| && NormalizeImportEntry(items[k]).Err?
                       && r.error == NormalizeImportEntry(items[k]).error
                       && forall i :: 0 <= i < k ==> NormalizeImportEntry(items[i]).Ok?)
    decreases |items|
  {
    if |items| > 0 {
      NormalizeImportSpec(items[1..]);
      var r := NormalizeImport(items);
      if r.Err? && NormalizeImportEntry(items[0]).Ok? {
        var k :| 0 <= k < |items[1..]| && NormalizeImportEntry(items[1..][k]).Err?
                 && NormalizeImport(items[1..]).error == NormalizeImportEntry(items[1..][k]).error
                 && forall i :: 0 <= i < k ==> NormalizeImportEntry(items[1..][i]).Ok?;
        assert NormalizeImportEntry(items[k + 1]).Err?;
        forall i | 0 <= i < k + 1
          ensures NormalizeImportEntry(items[i]).Ok?
        {
          if i > 0 {
            assert items[i] == items[1..][i - 1];
          }
        }
      } else if r.Err? {
        assert NormalizeImportEntry(items[0]).Err?;
      } else {
        forall i | 0 <= i < |items|
          ensures NormalizeImportEntry(items[i]).Ok?
        {
          if i > 0 {
            assert items[i] == items[1..][i - 1];
          }
        }
      }
    }
  }

  // ---------------------------------------------------------------------------------------
  // The store and one file
  // ---------------------------------------------------------------------------------------

  /** The lists collection as the importer sees it through the vocabulary model. */
  datatype Store = Store(lists: map<string, seq<ImportEntry>>, outage: Option<string>)

  const DuplicateMarker := "existiert bereits"

  /** `createList`: rejects a taken name; otherwise stores the list. */
  function CreateList(store: Store, name: string, vocabulary: seq<ImportEntry>): (r: Result<Store, string>)
    ensures r.Ok? <==> store.outage.None? && name !in store.lists
    ensures r.Ok? ==> r.value == store.(lists := store.lists[name := vocabulary])
    ensures store.outage.None? && name in store.lists ==> Includes(r.error, DuplicateMarker)
  {
    match store.outage
    case Some(message) => Err(message)
    case None =>
      if name in store.lists then
        var message := "Eine Liste mit dem Namen '" + name + "' " + DuplicateMarker;
        assert OccursAt(message, DuplicateMarker, |message| - |DuplicateMarker|);
        Err(message)
      else Ok(store.(lists := store.lists[name := vocabulary]))
  }

  /** `updateList`: replaces the vocabulary of the list with that name, if there is one. */
  function UpdateList(store: Store, name: string, vocabulary: seq<ImportEntry>): (r: Result<Store, string>)
    ensures r.Ok? <==> store.outage.None?
    ensures r.Ok? && name in store.lists ==> r.value == store.(lists := store.lists[name := vocabulary])
    ensures r.Ok? && name !in store.lists ==> r.value == store
  {
    match store.outage
    case Some(message) => Err(message)
    case None => Ok(if name in store.lists then store.(lists := store.lists[name := vocabulary]) else store)
  }

  /** The result object of `importFile`: `success: true` (with `updated: true` or not), or `success: false`. */
  datatype ImportResult =
    | Imported(listName: string, count: nat)
    | Refreshed(listName: string, count: nat)
    | Failed(error: ImportError)

  /** `fileName.replace('.json', '')`: the basename without its first `.json`. */
  function ImportListName(filePath: string): string {
    ReplaceFirst(Basename(filePath), ".json", "")
  }

  /** `importFile`, given what reading and parsing the file produced; every error ends as `success: false`. */
  function ImportFile(filePath: string, parsed: Result<JsValue, string>, store: Store): (ImportResult, Store) {
    match parsed
    case Err(message) => (Failed(ReadFailed(message)), store)
    case Ok(vocabulary) =>
      if !vocabulary.Arr? then (Failed(NotAnArray), store)
      else match NormalizeImport(vocabulary.items)
        case Err(e) => (Failed(e), store)
        case Ok(normalized) =>
          var name := ImportListName(filePath);
          match CreateList(store, name, normalized)
          case Ok(store') => (Imported(name, |normalized|), store')
          case Err(message) =>
            if !Includes(message, DuplicateMarker) then (Failed(DatabaseFailed(message)), store)
            else match UpdateList(store, name, normalized)
              case Ok(store') => (Refreshed(name, |normalized|), store')
              case Err(message') => (Failed(DatabaseFailed(message')), store)
  }

  /**
   * `importFile` never throws: a file that is not a readable JSON array of valid entries, or
   * a store that cannot be reached, gives `success: false` and leaves the store as it was.
   * Otherwise the list named after the file holds the normalised vocabulary afterwards:
   * created when the name was free, updated (`updated: true`) when it was taken, and no
   * other list changes.
   */
  lemma ImportFileOutcome(filePath: string, parsed: Result<JsValue, string>, store: Store)
    ensures var (result, store') := ImportFile(filePath, parsed, store);
      && (result.Failed? <==> parsed.Err? || !parsed.value.Arr? || NormalizeImport(parsed.value.items).Err? || store.outage.Some?)
      && (parsed.Ok? && !parsed.value.Arr? ==> result == Failed(NotAnArray))
      && (result.Failed? ==> store' == store)
      && (!result.Failed? ==>
            var normalized := NormalizeImport(parsed.value.items).value;
            var name := ImportListName(filePath);
            && result.listName == name && result.count == |parsed.value.items|
            && (result.Imported? <==> name !in store.lists)
            && store' == store.(lists := store.lists[name := normalized]))
  {
    if parsed.Ok? && parsed.value.Arr? && NormalizeImport(parsed.value.items).Ok? {
      NormalizeImportSpec(parsed.value.items);
      var normalized := NormalizeImport(parsed.value.items).value;
      var name := ImportListName(filePath);
      if store.outage.None? && name in store.lists {
        assert Includes(CreateList(store, name, normalized).error, DuplicateMarker);
      }
    }
  }

  /**
   * Importing a file removes no list, a successful import leaves its list in the store, and
   * every other list keeps its vocabulary.
   */
  lemma ImportFileKeepsLists(filePath: string, parsed: Result<JsValue, string>, store: Store)
    ensures var (result, store') := ImportFile(filePath, parsed, store);
      && store.lists.Keys <= store'.lists.Keys
      && (!result.Failed? ==> result.listName in store'.lists)
      && (forall n :: n in store.lists && (result.Failed? || n != result.listName) ==> store'.lists[n] == store.lists[n])
      && (forall n :: n in store'.lists && (result.Failed? || n != result.listName) ==> n in store.lists)
  {
    ImportFileOutcome(filePath, parsed, store);
  }

  /** A file `<stem>.json` in a directory is imported as the list `<stem>`, provided the stem holds no `.json` and no `/`. */
  lemma ImportListNameOfJsonFile(dir: string, stem: string)
    requires '/' !in stem
    requires IndexOf(stem + ".json", ".json") == Some(|stem|)
    ensures ImportListName(JoinPath(dir, stem + ".json")) == stem
  {
    BasenameOfJoin(dir, stem + ".json");
    ReplaceJsonExtension(stem);
  }

  // ---------------------------------------------------------------------------------------
  // A directory
  // ---------------------------------------------------------------------------------------

  /** `path.join(dir, file)` for a plain file name; the normalisation of `..` and `//` is not modelled. */
  function JoinPath(dir: string, file: string): string {
    dir + "/" + file
  }

  function JsonFiles(listing: seq<string>): (r: seq<string>)
    ensures |r| <= |listing|
    ensures forall f :: f in r <==> f in listing && EndsWith(f, ".json")
  {
    if |listing| == 0 then []
    else (if EndsWith(listing[0], ".json") then [listing[0]] else []) + JsonFiles(listing[1..])
  }

  /** The `.json` filter keeps the listing's order: filtering two listings one after the other is filtering their concatenation. */
  lemma {:induction false} JsonFilesAppend(xs: seq<string>, ys: seq<string>)
    ensures JsonFiles(xs + ys) == JsonFiles(xs) + JsonFiles(ys)
    decreases |xs|
  {
    if |xs| > 0 {
      assert (xs + ys)[1..] == xs[1..] + ys;
      JsonFilesAppend(xs[1..], ys);
    } else {
      assert xs + ys == ys;
    }
  }

  datatype DirectoryError = DirectoryMissing | NoJsonFiles

  /** One element of `importDirectory`'s result: a file's result tagged with its basename, or a failure of the whole directory. */
  datatype DirectoryResult =
    | FileResult(file: string, result: ImportResult)
    | DirectoryFailed(error: DirectoryError)

  /** The loop of `importDirectory` over `files`, one file after the other against the same store. */
  function ImportFiles(dir: string, files: seq<string>, read: string -> Result<JsValue, string>, store: Store): (seq<DirectoryResult>, Store)
    decreases |files|
  {
    if |files| == 0 then ([], store)
    else
      var (results, store1) := ImportFiles(dir, files[..|files| - 1], read, store);
      var path := JoinPath(dir, files[|files| - 1]);
      var (result, store2) := ImportFile(path, read(path), store1);
      (results + [FileResult(Basename(path), result)], store2)
  }

  /** `importDirectory`, given the directory listing (`None` when the directory does not exist). */
  function ImportDirectorySpec(dir: string, listing: Option<seq<string>>, read: string -> Result<JsValue, string>,
                               store: Store): (seq<DirectoryResult>, Store)
  {
    match listing
    case None => ([DirectoryFailed(DirectoryMissing)], store)
    case Some(names) =>
      var files := JsonFiles(names);
      if |files| == 0 then ([DirectoryFailed(NoJsonFiles)], store)
      else ImportFiles(dir, files, read, store)
  }

  /** The last file's result comes after the results of the files before it, tagged with its basename. */
  lemma ImportFilesSnoc(dir: string, files: seq<string>, read: string -> Result<JsValue, string>, store: Store)
    requires |files| > 0
    ensures var results := ImportFiles(dir, files, read, store).0;
      var before := ImportFiles(dir, files[..|files| - 1], read, store).0;
      && |results| == |before| + 1 && results[..|before|] == before
      && results[|before|].FileResult? && results[|before|].file == Basename(JoinPath(dir, files[|files| - 1]))
  {
    var (before, store1) := ImportFiles(dir, files[..|files| - 1], read, store);
    var path := JoinPath(dir, files[|files| - 1]);
    var result := ImportFile(path, read(path), store1).0;
    assert ImportFiles(dir, files, read, store).0 == before + [FileResult(Basename(path), result)];
  }

  /** One result per file, in order, each tagged with the file's own name. */
  lemma {:induction false} ImportFilesTags(dir: string, files: seq<string>, read: string -> Result<JsValue, string>, store: Store)
    requires forall i :: 0 <= i < |files| ==> files[i] != "" && '/' !in files[i]
    ensures var results := ImportFiles(dir, files, read, store).0;
      && |results| == |files|
      && forall i :: 0 <= i < |files| ==> results[i].FileResult? && results[i].file == files[i]
    decreases |files|
  {
    if |files| > 0 {
      var init := files[..|files| - 1];
      var last := files[|files| - 1];
      ImportFilesTags(dir, init, read, store);
      ImportFilesSnoc(dir, files, read, store);
      BasenameOfJoin(dir, last);
      var results := ImportFiles(dir, files, read, store).0;
      forall i | 0 <= i < |files|
        ensures results[i].FileResult? && results[i].file == files[i]
      {
        if i < |init| {
          assert results[i] == results[..|init|][i];
        }
      }
    }
  }

  /** Lists are never removed, and the list of every file that imported successfully is in the store afterwards. */
  lemma {:induction false} ImportFilesKeepLists(dir: string, files: seq<string>, read: string -> Result<JsValue, string>, store: Store)
    ensures var (results, store') := ImportFiles(dir, files, read, store);
      && store.lists.Keys <= store'.lists.Keys
      && forall i :: 0 <= i < |results| && results[i].FileResult? && !results[i].result.Failed? ==>
           results[i].result.listName in store'.lists
    decreases |files|
  {
    if |files| > 0 {
      var init := files[..|files| - 1];
      ImportFilesKeepLists(dir, init, read, store);
      var store1 := ImportFiles(dir, init, read, store).1;
      var path := JoinPath(dir, files[|files| - 1]);
      ImportFileKeepsLists(path, read(path), store1);
    }
  }

  /**
   * A missing directory, and a directory without `.json` files, each give exactly one
   * failure element and import nothing; otherwise there is one result per `.json` file of the
   * listing, in listing order, tagged with its name.
   */
  lemma ImportDirectoryOutcome(dir: string, listing: Option<seq<string>>, read: string -> Result<JsValue, string>, store: Store)
    requires listing.Some? ==> forall i :: 0 <= i < |listing.value| ==> '/' !in listing.value[i]
    ensures var (results, store') := ImportDirectorySpec(dir, listing, read, store);
      && (listing.None? ==> results == [DirectoryFailed(DirectoryMissing)] && store' == store)
      && (listing.Some? && JsonFiles(listing.value) == [] ==> results == [DirectoryFailed(NoJsonFiles)] && store' == store)
      && (listing.Some? && JsonFiles(listing.value) != [] ==>
            |results| == |JsonFiles(listing.value)|
            && forall i :: 0 <= i < |results| ==> results[i].FileResult? && results[i].file == JsonFiles(listing.value)[i])
  {
    if listing.Some? {
      var files := JsonFiles(listing.value);
      forall i | 0 <= i < |files|
        ensures files[i] != "" && '/' !in files[i]
      {
        assert files[i] in files;
        var j :| 0 <= j < |listing.value| && listing.value[j] == files[i];
      }
      ImportFilesTags(dir, files, read, store);
    }
  }

  class Importer {
    /** The store behind the importer's vocabulary model. */
    var store: Store

    constructor(store: Store)
      ensures this.store == store
    {
      this.store := store;
    }

    /** `importDirectory`: the results pushed one file at a time, against the store as earlier files left it. */
    method ImportDirectory(dir: string, listing: Option<seq<string>>, read: string -> Result<JsValue, string>)
      returns (results: seq<DirectoryResult>)
      modifies this
      ensures (results, store) == ImportDirectorySpec(dir, listing, read, old(store))
    {
      if listing.None? {
        return [DirectoryFailed(DirectoryMissing)];
      }
      var files := JsonFiles(listing.value);
      if |files| == 0 {
        return [DirectoryFailed(NoJsonFiles)];
      }
      results := [];
      for k := 0 to |files|
        invariant (results, store) == ImportFiles(dir, files[..k], read, old(store))
      {
        assert files[..k + 1][..k] == files[..k];
        var path := JoinPath(dir, files[k]);
        var (result, store') := ImportFile(path, read(path), store);
        store := store';
        results := results + [FileResult(Basename(path), result)];
      }
      assert files[..|files|] == files;
    }
  }
}
