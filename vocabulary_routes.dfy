/**
 * The vocabulary REST routes (app/routes/vocabulary.js): request validation and the mapping
 * of database outcomes to HTTP statuses for save, list, get, update and delete.
 *
 * The database model is a parameter: each handler is given the one model call it makes as
 * a function from its arguments to the call's outcome, a value or a thrown `Error` with its
 * message. A handler that rejects the request before the call gives the same response
 * whatever that function is, which is how "the database is not touched" is stated here.
 */
module VocabularyRoutes {
  import opened Wrappers
  import opened JsStrings
  import opened Json

  /** A rejected promise of the database model: an `Error` and its `message`. */
  datatype DbError = DbError(message: string)

  /** A stored list as `getListByName` resolves it. */
  datatype StoredList = StoredList(name: string, vocabulary: JsValue)

  /** The responses of the vocabulary routes, each with its JSON payload. */
  datatype Response =
    | BadRequest(error: string)
    | NotFound
    | Conflict(error: string)
    | ServerError(error: string)
    | Saved(data: JsValue)
    | AllLists(lists: seq<JsValue>)
    | Found(name: string, vocabulary: JsValue)
    | Updated
    | Deleted

  function Status(r: Response): nat {
    match r
    case BadRequest(_) => 400
    case NotFound => 404
    case Conflict(_) => 409
    case ServerError(_) => 500
    case _ => 200
  }

  const NameRequired := "Ungültige Daten: Name ist erforderlich"
  const ListRequired := "Ungültige Daten: Vokabelliste darf nicht leer sein"
  const EntryRequired := "Ungültige Daten: Jeder Vokabeleintrag muss DE und VN enthalten"
  const ListNameRequired := "Name der Liste ist erforderlich"
  const DuplicateMarker := "existiert bereits"

  // ---------------------------------------------------------------------------------------
  // Validation
  // ---------------------------------------------------------------------------------------

  /** `!name || typeof name !== 'string' || name.trim() === ''` fails. */
  predicate ValidName(name: JsValue) {
    name.Str? && name.s != "" && Trim(name.s) != ""
  }

  /** A name is accepted exactly when it is a string with a character that is not whitespace. */
  lemma ValidNameMeaning(name: JsValue)
    ensures ValidName(name) <==> name.Str? && exists i :: 0 <= i < |name.s| && !IsWhitespace(name.s[i])
  {
    if name.Str? {
      TrimEmptyIffBlank(name.s);
    }
  }

  /** `!vocabulary || !Array.isArray(vocabulary) || vocabulary.length === 0` fails. */
  predicate NonEmptyArray(vocabulary: JsValue) {
    vocabulary.Arr? && |vocabulary.items| > 0
  }

  /** `!entry || typeof entry !== 'object' || !entry.DE || !entry.VN` fails; arrays have no `DE`. */
  predicate ValidEntry(entry: JsValue) {
    entry.Obj? && Truthy(Field(entry.fields, "DE")) && Truthy(Field(entry.fields, "VN"))
  }

  /**
   * The check of an entry agrees with reading its fields as JavaScript does: the entry is a
   * truthy object whose `DE` and `VN` are truthy.
   */
  lemma ValidEntryMeaning(entry: JsValue)
    ensures ValidEntry(entry) <==>
      && Truthy(entry) && !entry.Arr? && !entry.Str? && !entry.Num? && !entry.Bool?
      && Truthy(Property(entry, "DE").value) && Truthy(Property(entry, "VN").value)
  {
  }

  /** The entry loop of save and update: the first invalid entry rejects the request. */
  function CheckEntries(items: seq<JsValue>): (r: Option<string>)
    ensures r.None? <==> forall i :: 0 <= i < |items| ==> ValidEntry(items[i])
    ensures r.Some? ==> r.value == EntryRequired
  {
    if forall i :: 0 <= i < |items| ==> ValidEntry(items[i]) then None else Some(EntryRequired)
  }

  /**
   * The `for...of` loop over the entries: it stops at the first invalid entry with the
   * entry error, and passes exactly when every entry is valid.
   */
  method ScanEntries(items: seq<JsValue>) returns (r: Option<string>)
    ensures r.None? <==> forall i :: 0 <= i < |items| ==> ValidEntry(items[i])
    ensures r.Some? ==> r.value == EntryRequired
    ensures r == CheckEntries(items)
  {
    for i := 0 to |items|
      invariant forall j :: 0 <= j < i ==> ValidEntry(items[j])
    {
      var entry := items[i];
      if !Truthy(entry) || !(entry.Obj? || entry.Arr?)
         || !Truthy(Property(entry, "DE").value) || !Truthy(Property(entry, "VN").value) {
        return Some(EntryRequired);
      }
    }
    return None;
  }

  /** The checks of the vocabulary shared by save and update, in order. */
  function CheckVocabulary(vocabulary: JsValue): (r: Option<string>)
    ensures r.None? <==> NonEmptyArray(vocabulary) && forall i :: 0 <= i < |vocabulary.items| ==> ValidEntry(vocabulary.items[i])
    ensures r == Some(ListRequired) <==> !NonEmptyArray(vocabulary)
  {
    if !NonEmptyArray(vocabulary) then Some(ListRequired) else CheckEntries(vocabulary.items)
  }

  // ---------------------------------------------------------------------------------------
  // Handlers
  // ---------------------------------------------------------------------------------------

  /** The `catch` of every handler but save: a 500 with the error message behind a prefix. */
  function DatabaseError(e: DbError): (r: Response)
    ensures Status(r) == 500
    ensures r.ServerError? && r.error == "Database error: " + e.message
  {
    ServerError("Database error: " + e.message)
  }

  /** The `catch` of save: a duplicate name is a conflict carrying the model's message. */
  function SaveError(e: DbError): Response {
    if e.message != "" && Includes(e.message, DuplicateMarker) then Conflict(e.message) else DatabaseError(e)
  }

  /** POST /api/vocabulary/save. */
  function Save(name: JsValue, vocabulary: JsValue, createList: (string, JsValue) -> Result<JsValue, DbError>): Response {
    if !ValidName(name) then BadRequest(NameRequired)
    else match CheckVocabulary(vocabulary)
      case Some(error) => BadRequest(error)
      case None =>
        match createList(Trim(name.s), vocabulary)
        case Ok(saved) => Saved(saved)
        case Err(e) => SaveError(e)
  }

  /** A request accepted by every check of save. */
  predicate ValidSave(name: JsValue, vocabulary: JsValue) {
    ValidName(name) && CheckVocabulary(vocabulary).None?
  }

  /**
   * Save answers 400 exactly for an invalid request, naming the first failed check (name,
   * then emptiness, then entries), and only then calls `createList` with the trimmed name
   * and the vocabulary as given; its outcome decides between 200, 409 and 500.
   */
  lemma SaveOutcome(name: JsValue, vocabulary: JsValue, createList: (string, JsValue) -> Result<JsValue, DbError>)
    ensures var r := Save(name, vocabulary, createList);
      && (Status(r) == 400 <==> !ValidSave(name, vocabulary))
      && (!ValidName(name) ==> r == BadRequest(NameRequired))
      && (ValidName(name) && !NonEmptyArray(vocabulary) ==> r == BadRequest(ListRequired))
      && (ValidSave(name, vocabulary) ==>
            var outcome := createList(Trim(name.s), vocabulary);
            && (Status(r) == 200 <==> outcome.Ok?)
            && (outcome.Ok? ==> r == Saved(outcome.value))
            && (Status(r) == 409 <==> outcome.Err? && Includes(outcome.error.message, DuplicateMarker))
            && (Status(r) == 409 ==> r.error == outcome.error.message)
            && (Status(r) == 500 <==> outcome.Err? && !Includes(outcome.error.message, DuplicateMarker))
            && (Status(r) == 500 ==> r.error == "Database error: " + outcome.error.message))
  {
    if ValidSave(name, vocabulary) {
      var outcome := createList(Trim(name.s), vocabulary);
      if outcome.Err? && outcome.error.message == "" {
        assert !OccursAt(outcome.error.message, DuplicateMarker, 0);
      }
    }
  }

  /** A rejected save never reaches the database: its response does not depend on `createList`. */
  lemma SaveRejectsBeforeDatabase(name: JsValue, vocabulary: JsValue, c1: (string, JsValue) -> Result<JsValue, DbError>,
                                  c2: (string, JsValue) -> Result<JsValue, DbError>)
    requires !ValidSave(name, vocabulary)
    ensures Save(name, vocabulary, c1) == Save(name, vocabulary, c2)
    ensures Status(Save(name, vocabulary, c1)) == 400
  {
  }

  /** GET /api/vocabulary/lists. */
  function GetAllLists(getAllLists: Result<seq<JsValue>, DbError>): (r: Response)
    ensures getAllLists.Ok? ==> r == AllLists(getAllLists.value)
    ensures getAllLists.Err? ==> Status(r) == 500
  {
    match getAllLists
    case Ok(lists) => AllLists(lists)
    case Err(e) => DatabaseError(e)
  }

  /** The name check of the routes with a `:name` parameter: `!name || name.trim() === ''`. */
  predicate BlankName(name: string) {
    name == "" || Trim(name) == ""
  }

  /** GET /api/vocabulary/list/:name. */
  function GetList(name: string, getListByName: string -> Result<Option<StoredList>, DbError>): Response {
    if BlankName(name) then BadRequest(ListNameRequired)
    else match getListByName(Trim(name))
      case Err(e) => DatabaseError(e)
      case Ok(None) => NotFound
      case Ok(Some(list)) => Found(list.name, list.vocabulary)
  }

  /** PUT /api/vocabulary/update/:name. */
  function UpdateList(name: string, vocabulary: JsValue, updateList: (string, JsValue) -> Result<nat, DbError>): Response {
    if BlankName(name) then BadRequest(ListNameRequired)
    else match CheckVocabulary(vocabulary)
      case Some(error) => BadRequest(error)
      case None =>
        match updateList(Trim(name), vocabulary)
        case Err(e) => DatabaseError(e)
        case Ok(count) => if count == 0 then NotFound else Updated
  }

  /** DELETE /api/vocabulary/list/:name. */
  function DeleteList(name: string, deleteList: string -> Result<nat, DbError>): Response {
    if BlankName(name) then BadRequest(ListNameRequired)
    else match deleteList(Trim(name))
      case Err(e) => DatabaseError(e)
      case Ok(count) => if count == 0 then NotFound else Deleted
  }

  /**
   * Get, update and delete answer 400 for a name that is empty or all whitespace, 404 when
   * the model finds no list (`null`, or a count of 0), 500 when it fails, and otherwise
   * succeed; the model always receives the trimmed name.
   */
  lemma NamedRoutesOutcome(name: string, vocabulary: JsValue,
                           getListByName: string -> Result<Option<StoredList>, DbError>,
                           updateList: (string, JsValue) -> Result<nat, DbError>,
                           deleteList: string -> Result<nat, DbError>)
    ensures BlankName(name) <==> IsBlank(name)
    ensures var r := GetList(name, getListByName); var found := getListByName(Trim(name));
      && (Status(r) == 400 <==> IsBlank(name))
      && (Status(r) == 404 <==> !IsBlank(name) && found == Ok(None))
      && (Status(r) == 500 <==> !IsBlank(name) && found.Err?)
      && (Status(r) == 200 <==> !IsBlank(name) && found.Ok? && found.value.Some?)
      && (r.Found? ==> r == Found(found.value.value.name, found.value.value.vocabulary))
    ensures var r := UpdateList(name, vocabulary, updateList); var count := updateList(Trim(name), vocabulary);
      && (Status(r) == 400 <==> IsBlank(name) || CheckVocabulary(vocabulary).Some?)
      && (Status(r) == 404 <==> !IsBlank(name) && CheckVocabulary(vocabulary).None? && count == Ok(0))
      && (Status(r) == 500 <==> !IsBlank(name) && CheckVocabulary(vocabulary).None? && count.Err?)
    ensures var r := DeleteList(name, deleteList); var count := deleteList(Trim(name));
      && (Status(r) == 400 <==> IsBlank(name))
      && (Status(r) == 404 <==> !IsBlank(name) && count == Ok(0))
      && (Status(r) == 500 <==> !IsBlank(name) && count.Err?)
      && (Status(r) == 200 <==> !IsBlank(name) && count.Ok? && count.value > 0)
  {
    TrimEmptyIffBlank(name);
  }

  /** Update checks the vocabulary exactly as save does: with an accepted name, both reject the same requests with the same message. */
  lemma UpdateValidatesLikeSave(name: string, vocabulary: JsValue,
                                createList: (string, JsValue) -> Result<JsValue, DbError>,
                                updateList: (string, JsValue) -> Result<nat, DbError>)
    requires !IsBlank(name)
    ensures ValidName(Str(name))
    ensures Save(Str(name), vocabulary, createList).BadRequest? <==> UpdateList(name, vocabulary, updateList).BadRequest?
    ensures Save(Str(name), vocabulary, createList).BadRequest? ==>
              Save(Str(name), vocabulary, createList) == UpdateList(name, vocabulary, updateList)
  {
    TrimEmptyIffBlank(name);
  }
}
