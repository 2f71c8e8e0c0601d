/**
 * The vocabulary lists the speech routes (app/routes/tts.js) serve: the normalisation of a
 * vocabulary file (`DE || deutsch || ''`, then only complete pairs), the lookup of one list
 * (the database first, then the vocabulary directory), and the `/lists` index that merges
 * the database's lists with the directory's `.json` files.
 *
 * The database and the directory are values handed in by the caller: the database as its
 * stored lists (or `None` when it cannot be reached, which makes the handler throw), the
 * directory as its entries in listing order (or `None` when it does not exist).
 */
module TtsLists {
  import opened Wrappers
  import opened JsStrings
  import opened Json

  // ---------------------------------------------------------------------------------------
  // Normalisation of a vocabulary file
  // ---------------------------------------------------------------------------------------

  /** A normalised pair `{DE, VN}`; the values are whatever the file held, or `''`. */
  datatype VocabPair = VocabPair(DE: JsValue, VN: JsValue)

  /** `entry[name] || entry[legacy] || ''`: reading either property throws on `null`. */
  function Fallback(entry: JsValue, name: string, legacy: string): (r: Result<JsValue, TypeError>)
    ensures r.Err? <==> entry.Undefined? || entry.Null?
  {
    match Property(entry, name)
    case Err(e) => Err(e)
    case Ok(v) =>
      if Truthy(v) then Ok(v)
      else
        match Property(entry, legacy)
        case Err(e) => Err(e)
        case Ok(w) => Ok(Or(w, Str("")))
  }

  /**
   * The current field name wins when it holds a truthy value, the legacy one otherwise, and
   * an entry with neither gets the empty string.
   */
  lemma FallbackChoice(entry: JsValue, name: string, legacy: string)
    requires !entry.Undefined? && !entry.Null?
    ensures var v := Property(entry, name).value;
      var w := Property(entry, legacy).value;
      var r := Fallback(entry, name, legacy).value;
      && (Truthy(r) <==> Truthy(v) || Truthy(w))
      && (Truthy(v) ==> r == v)
      && (!Truthy(v) && Truthy(w) ==> r == w)
      && (!Truthy(r) ==> r == Str(""))
  {
  }

  /** `({DE: entry.DE || entry.deutsch || '', VN: entry.VN || entry.vietnamesisch || ''})`. */
  function NormalizeEntry(entry: JsValue): (r: Result<VocabPair, TypeError>)
    ensures r.Err? <==> entry.Undefined? || entry.Null?
  {
    match Fallback(entry, "DE", "deutsch")
    case Err(e) => Err(e)
    case Ok(de) =>
      match Fallback(entry, "VN", "vietnamesisch")
      case Err(e) => Err(e)
      case Ok(vn) => Ok(VocabPair(de, vn))
  }

  /** `items.map(...)`: every entry is normalised, and the first `null` entry throws. */
  function NormalizeAll(items: seq<JsValue>): Result<seq<VocabPair>, TypeError> {
    if |items| == 0 then Ok([])
    else
      match NormalizeEntry(items[0])
      case Err(e) => Err(e)
      case Ok(p) =>
        match NormalizeAll(items[1..])
        case Err(e) => Err(e)
        case Ok(ps) => Ok([p] + ps)
  }

  /** The map fails exactly on a `null` entry, and otherwise normalises every entry in place. */
  lemma {:induction false} NormalizeAllSpec(items: seq<JsValue>)
    ensures var r := NormalizeAll(items);
      && (r.Err? <==> exists i :: 0 <= i < |items| && (items[i].Undefined? || items[i].Null?))
      && (r.Ok? ==> |r.value| == |items| && forall i :: 0 <= i < |items| ==> NormalizeEntry(items[i]) == Ok(r.value[i]))
    decreases |items|
  {
    if |items| > 0 {
      NormalizeAllSpec(items[1..]);
      if NormalizeAll(items[1..]).Err? {
        var i :| 0 <= i < |items[1..]| && (items[1..][i].Undefined? || items[1..][i].Null?);
        assert items[i + 1] == items[1..][i];
      }
      if NormalizeAll(items).Ok? {
        var ps := NormalizeAll(items).value;
        forall i | 0 <= i < |items|
          ensures NormalizeEntry(items[i]) == Ok(ps[i])
        {
          if i > 0 {
            assert items[i] == items[1..][i - 1];
          }
        }
      }
    }
  }

  /** The filter `entry.DE && entry.VN`. */
  predicate Complete(p: VocabPair) {
    Truthy(p.DE) && Truthy(p.VN)
  }

  function KeepComplete(ps: seq<VocabPair>): seq<VocabPair> {
    if |ps| == 0 then []
    else if Complete(ps[0]) then [ps[0]] + KeepComplete(ps[1..])
    else KeepComplete(ps[1..])
  }

  /** A pair is kept exactly when it is complete, and never more pairs than were given. */
  lemma {:induction false} KeepCompleteMembership(ps: seq<VocabPair>)
    ensures |KeepComplete(ps)| <= |ps|
    ensures forall p :: p in KeepComplete(ps) <==> p in ps && Complete(p)
    decreases |ps|
  {
    if |ps| > 0 {
      KeepCompleteMembership(ps[1..]);
      assert ps == [ps[0]] + ps[1..];
    }
  }

  /** The filter works pair by pair, so the kept pairs keep their relative order. */
  lemma {:induction false} KeepCompleteAppend(xs: seq<VocabPair>, ys: seq<VocabPair>)
    ensures KeepComplete(xs + ys) == KeepComplete(xs) + KeepComplete(ys)
    decreases |xs|
  {
    if |xs| == 0 {
      assert xs + ys == ys;
    } else {
      assert (xs + ys)[1..] == xs[1..] + ys;
      KeepCompleteAppend(xs[1..], ys);
    }
  }

  /** `JSON.parse(content).map(...).filter(...)`: only an array has `map`. */
  function NormalizeFile(parsed: JsValue): Result<seq<VocabPair>, TypeError> {
    if !parsed.Arr? then Err(if parsed.Null? then CannotReadProperty("map") else NotAFunction("map"))
    else
      match NormalizeAll(parsed.items)
      case Err(e) => Err(e)
      case Ok(ps) => Ok(KeepComplete(ps))
  }

  /**
   * A file normalises when it is an array without `null` entries; then every kept pair is
   * complete and is the normalisation of some entry, and every entry whose normalisation is
   * complete is kept.
   */
  lemma NormalizeFileSpec(parsed: JsValue)
    ensures var r := NormalizeFile(parsed);
      && (r.Ok? <==> parsed.Arr? && forall i :: 0 <= i < |parsed.items| ==> !parsed.items[i].Undefined? && !parsed.items[i].Null?)
      && (r.Ok? ==> forall p :: p in r.value ==> Complete(p))
      && (r.Ok? ==> forall p :: p in r.value ==> exists i :: 0 <= i < |parsed.items| && NormalizeEntry(parsed.items[i]) == Ok(p))
      && (r.Ok? ==> forall i :: 0 <= i < |parsed.items| && Complete(NormalizeEntry(parsed.items[i]).value) ==>
                      NormalizeEntry(parsed.items[i]).value in r.value)
  {
    if parsed.Arr? {
      NormalizeAllSpec(parsed.items);
      if NormalizeAll(parsed.items).Ok? {
        var ps := NormalizeAll(parsed.items).value;
        KeepCompleteMembership(ps);
        forall p | p in KeepComplete(ps)
          ensures exists i :: 0 <= i < |parsed.items| && NormalizeEntry(parsed.items[i]) == Ok(p)
        {
          var i :| 0 <= i < |ps| && ps[i] == p;
          assert NormalizeEntry(parsed.items[i]) == Ok(p);
        }
        forall i | 0 <= i < |parsed.items| && Complete(NormalizeEntry(parsed.items[i]).value)
          ensures NormalizeEntry(parsed.items[i]).value in KeepComplete(ps)
        {
          assert ps[i] in ps;
        }
      }
    }
  }

  // ---------------------------------------------------------------------------------------
  // The database and the vocabulary directory
  // ---------------------------------------------------------------------------------------

  /** A list as the database stores it. */
  datatype DbList = DbList(name: string, vocabulary: JsValue)

  /** A vocabulary file's content: JSON, or text `JSON.parse` rejects. */
  datatype FileContent = Malformed | Parsed(value: JsValue)

  /** One entry of the vocabulary directory. */
  datatype VocabFile = VocabFile(name: string, content: FileContent)

  /** `findOne({ name })`: the first stored list with that name, or nothing. */
  function FindList(lists: seq<DbList>, name: string): (r: Option<DbList>)
    ensures r.Some? ==> r.value in lists && r.value.name == name
    ensures r.None? <==> forall l :: l in lists ==> l.name != name
  {
    if |lists| == 0 then None
    else if lists[0].name == name then Some(lists[0])
    else FindList(lists[1..], name)
  }

  /** The content of the file `name` among `files`, if there is one. */
  function FindIn(files: seq<VocabFile>, name: string): (r: Option<FileContent>)
    ensures r.Some? ==> VocabFile(name, r.value) in files
    ensures r.None? <==> forall f :: f in files ==> f.name != name
  {
    if |files| == 0 then None
    else if files[0].name == name then Some(files[0].content)
    else FindIn(files[1..], name)
  }

  /** `fs.existsSync(path.join(VOCABULARY_DIR, name))` and the file's content. */
  function FindFile(dir: Option<seq<VocabFile>>, name: string): (r: Option<FileContent>)
    ensures r.Some? ==> dir.Some? && VocabFile(name, r.value) in dir.value
    ensures r.None? <==> dir.None? || forall f :: f in dir.value ==> f.name != name
  {
    match dir
    case None => None
    case Some(files) => FindIn(files, name)
  }

  // ---------------------------------------------------------------------------------------
  // GET /list/:filename
  // ---------------------------------------------------------------------------------------

  datatype ListResponse =
    | ListNotFound
    | ListServerError
    | ListFromDb(name: string, vocabulary: JsValue)
    | ListFromFile(name: string, pairs: seq<VocabPair>)

  /** The list name of a file name: its first `.json` removed. */
  function ListName(filename: string): string {
    ReplaceFirst(filename, ".json", "")
  }

  /**
   * The list is looked up in the database under its list name; only when it is not there is
   * the file read, and a missing file is a 404.
   */
  function ListDetails(filename: string, db: Option<seq<DbList>>, dir: Option<seq<VocabFile>>): ListResponse {
    match db
    case None => ListServerError
    case Some(lists) =>
      match FindList(lists, ListName(filename))
      case Some(list) => ListFromDb(list.name, list.vocabulary)
      case None =>
        match FindFile(dir, filename)
        case None => ListNotFound
        case Some(Malformed) => ListServerError
        case Some(Parsed(v)) =>
          match NormalizeFile(v)
          case Err(_) => ListServerError
          case Ok(pairs) => ListFromFile(ListName(filename), pairs)
  }

  /**
   * A database list shadows a file of the same name; 404 means the list is in neither; a
   * list read from a file carries its list name and only complete pairs.
   */
  lemma ListDetailsOutcome(filename: string, db: Option<seq<DbList>>, dir: Option<seq<VocabFile>>)
    ensures var r := ListDetails(filename, db, dir);
      && (db.Some? && FindList(db.value, ListName(filename)).Some? ==>
            r.ListFromDb? && r.name == ListName(filename) && DbList(r.name, r.vocabulary) in db.value)
      && (r == ListNotFound <==>
            db.Some? && (forall l :: l in db.value ==> l.name != ListName(filename))
            && (dir.None? || forall f :: f in dir.value ==> f.name != filename))
      && (r.ListFromFile? ==>
            && r.name == ListName(filename)
            && (forall l :: l in db.value ==> l.name != ListName(filename))
            && (forall p :: p in r.pairs ==> Complete(p)))
  {
    if db.Some? && FindList(db.value, ListName(filename)).None? {
      match FindFile(dir, filename)
      case None =>
      case Some(Malformed) =>
      case Some(Parsed(v)) => NormalizeFileSpec(v);
    }
  }

  /** A `.json` file name whose only `.json` is its extension is listed under its stem. */
  lemma ListNameOfJsonFile(stem: string)
    requires IndexOf(stem + ".json", ".json") == Some(|stem|)
    ensures ListName(stem + ".json") == stem
  {
    ReplaceJsonExtension(stem);
  }

  // ---------------------------------------------------------------------------------------
  // GET /lists
  // ---------------------------------------------------------------------------------------

  /** One row of the index; `fromDB` is absent on file rows, which the model writes as false. */
  datatype ListInfo = ListInfo(filename: string, displayName: string, fromDB: bool)

  datatype ListsResponse = ListsServerError | ListsOk(lists: seq<ListInfo>)

  /** `dbLists.map(list => list.name)`. */
  function Names(lists: seq<DbList>): (r: seq<string>)
    ensures |r| == |lists| && forall i :: 0 <= i < |lists| ==> r[i] == lists[i].name
  {
    if |lists| == 0 then [] else [lists[0].name] + Names(lists[1..])
  }

  /** The database rows: `{filename: name + '.json', displayName: name, fromDB: true}`. */
  function DbInfos(lists: seq<DbList>): (r: seq<ListInfo>)
    ensures |r| == |lists|
    ensures forall i :: 0 <= i < |lists| ==> r[i] == ListInfo(lists[i].name + ".json", lists[i].name, true)
  {
    if |lists| == 0 then [] else [ListInfo(lists[0].name + ".json", lists[0].name, true)] + DbInfos(lists[1..])
  }

  /** The directory's `.json` files, each under its list name, unless a database list has that name. */
  function FileInfos(files: seq<VocabFile>, dbNames: seq<string>): seq<ListInfo> {
    if |files| == 0 then []
    else
      var name := files[0].name;
      var rest := FileInfos(files[1..], dbNames);
      if EndsWith(name, ".json") && ListName(name) !in dbNames then [ListInfo(name, ListName(name), false)] + rest
      else rest
  }

  /** The index: the database rows first, then the files, which only exist with the directory. */
  function AllLists(db: Option<seq<DbList>>, dir: Option<seq<VocabFile>>): ListsResponse {
    match db
    case None => ListsServerError
    case Some(lists) =>
      match dir
      case None => ListsOk(DbInfos(lists))
      case Some(files) => ListsOk(DbInfos(lists) + FileInfos(files, Names(lists)))
  }

  /** A file row is a `.json` file of the directory, under its list name, named by no database list. */
  lemma {:induction false} FileInfosMembership(files: seq<VocabFile>, dbNames: seq<string>)
    ensures forall info :: info in FileInfos(files, dbNames) <==>
      && !info.fromDB
      && (exists f :: f in files && f.name == info.filename)
      && EndsWith(info.filename, ".json")
      && info.displayName == ListName(info.filename)
      && info.displayName !in dbNames
    decreases |files|
  {
    if |files| > 0 {
      FileInfosMembership(files[1..], dbNames);
      forall info: ListInfo
        ensures (exists f :: f in files && f.name == info.filename) <==>
                files[0].name == info.filename || exists f :: f in files[1..] && f.name == info.filename
      {
        if exists f :: f in files && f.name == info.filename {
          var f :| f in files && f.name == info.filename;
          if f != files[0] {
            assert f in files[1..];
          }
        }
      }
    }
  }

  /** The files keep their listing order: the rows of a split listing are the rows of its parts. */
  lemma {:induction false} FileInfosAppend(xs: seq<VocabFile>, ys: seq<VocabFile>, dbNames: seq<string>)
    ensures FileInfos(xs + ys, dbNames) == FileInfos(xs, dbNames) + FileInfos(ys, dbNames)
    decreases |xs|
  {
    if |xs| == 0 {
      assert xs + ys == ys;
    } else {
      assert (xs + ys)[1..] == xs[1..] + ys;
      FileInfosAppend(xs[1..], ys, dbNames);
    }
  }

  /**
   * A failed database query is a 500. Otherwise the database rows come first, in the
   * database's order; every later row is a file row; and no file row has the display name of
   * a database row.
   */
  lemma AllListsShape(db: Option<seq<DbList>>, dir: Option<seq<VocabFile>>)
    ensures db.None? ==> AllLists(db, dir) == ListsServerError
    ensures db.Some? ==> var lists, r := db.value, AllLists(db, dir);
      && r.ListsOk?
      && |r.lists| >= |lists|
      && (forall i :: 0 <= i < |lists| ==> r.lists[i] == ListInfo(lists[i].name + ".json", lists[i].name, true))
      && (forall i :: |lists| <= i < |r.lists| ==> !r.lists[i].fromDB)
      && (forall i, j :: 0 <= i < |r.lists| && 0 <= j < |r.lists| && r.lists[i].fromDB && !r.lists[j].fromDB ==>
            r.lists[i].displayName != r.lists[j].displayName)
      && (dir.None? ==> |r.lists| == |lists|)
  {
    if db.Some? && dir.Some? {
      var lists := db.value;
      var names := Names(lists);
      var files := FileInfos(dir.value, names);
      FileInfosMembership(dir.value, names);
      var all := DbInfos(lists) + files;
      forall i | |lists| <= i < |all|
        ensures !all[i].fromDB && all[i].displayName !in names
      {
        assert all[i] == files[i - |lists|];
        assert files[i - |lists|] in files;
      }
      forall i, j | 0 <= i < |all| && 0 <= j < |all| && all[i].fromDB && !all[j].fromDB
        ensures all[i].displayName != all[j].displayName
      {
        assert i < |lists|;
        assert all[i].displayName == names[i];
      }
    }
  }
}
