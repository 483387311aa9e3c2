/** The dataset preview: the project id is resolved from the signed-in user or the browser's
    storage, the dataset is fetched, and grid columns are generated from its first row. */
module DatasetPreview {
  import opened Wrappers
  import opened Json
  import opened Effects
  import opened Text

  const ProjectIdKey := "project_id"
  const DatasetEndpoint := "/process/get_dataset"
  const MissingInfoNotice := "User or project info missing"
  const LoadedNotice := "Dataset loaded successfully"
  const EmptyNotice := "Dataset is empty"
  const FetchFailedNotice := "Failed to fetch dataset"

  // ---------------------------------------------------------------------------------------
  // Header names

  /** `s.replace(/_/g, ' ')`. */
  function UnderscoresToSpaces(s: string): (r: string)
    ensures |r| == |s|
    ensures forall i :: 0 <= i < |s| ==> r[i] == if s[i] == '_' then ' ' else s[i]
  {
    seq(|s|, i requires 0 <= i < |s| => if s[i] == '_' then ' ' else s[i])
  }

  /** Whether position `i` of `s` is where `\b\w` matches: a word character that begins the
      string or follows a character that is not one. */
  predicate WordStart(s: string, i: int)
    requires 0 <= i < |s|
  {
    IsWordChar(s[i]) && (i == 0 || !IsWordChar(s[i - 1]))
  }

  /** `s.replace(/\b\w/g, l => l.toUpperCase())`. */
  function CapitaliseWords(s: string): (r: string)
    ensures |r| == |s|
    ensures forall i :: 0 <= i < |s| ==> r[i] == if WordStart(s, i) then UpperAscii(s[i]) else s[i]
  {
    seq(|s|, i requires 0 <= i < |s| => if WordStart(s, i) then UpperAscii(s[i]) else s[i])
  }

  /** The grid header of a column key. */
  function HeaderName(key: string): string {
    CapitaliseWords(UnderscoresToSpaces(key))
  }

  /** Where a word starts, read off the raw key: at the front, after an underscore or after any
      other character outside `[A-Za-z0-9_]`. */
  predicate KeyWordStart(key: string, i: int)
    requires 0 <= i < |key|
  {
    key[i] != '_' && IsWordChar(key[i]) && (i == 0 || key[i - 1] == '_' || !IsWordChar(key[i - 1]))
  }

  /** The header keeps the key's length, turns every underscore into a space, upper-cases the
      first letter of every word and leaves every other character alone. */
  lemma HeaderNameChars(key: string)
    ensures |HeaderName(key)| == |key|
    ensures forall i :: 0 <= i < |key| ==>
      HeaderName(key)[i] == if key[i] == '_' then ' ' else if KeyWordStart(key, i) then UpperAscii(key[i]) else key[i]
  {
    var u := UnderscoresToSpaces(key);
    forall i | 0 <= i < |key|
      ensures WordStart(u, i) <==> KeyWordStart(key, i)
    {
    }
  }

  /** A header has no underscores, and formatting it again changes nothing. */
  lemma HeaderNameIdempotent(key: string)
    ensures forall i :: 0 <= i < |HeaderName(key)| ==> HeaderName(key)[i] != '_'
    ensures HeaderName(HeaderName(key)) == HeaderName(key)
  {
    var h := HeaderName(key);
    var u := UnderscoresToSpaces(key);
    HeaderNameChars(key);
    HeaderNameChars(h);
    assert UnderscoresToSpaces(h) == h;
    forall i | 0 <= i < |h|
      ensures WordStart(h, i) <==> WordStart(u, i)
    {
      assert IsWordChar(h[i]) <==> IsWordChar(u[i]);
      if i > 0 {
        assert IsWordChar(h[i - 1]) <==> IsWordChar(u[i - 1]);
      }
    }
    forall i | 0 <= i < |h|
      ensures HeaderName(h)[i] == h[i]
    {
      if WordStart(h, i) {
        assert UpperAscii(UpperAscii(u[i])) == UpperAscii(u[i]);
      }
    }
  }

  /** One generated grid column. */
  datatype ColumnDef = ColumnDef(field: string, headerName: string)

  /** `Object.keys(firstRow).map(key => ({field: key, headerName: ...}))`. */
  function ColumnDefs(keys: seq<string>): (defs: seq<ColumnDef>)
    ensures |defs| == |keys|
    ensures forall i :: 0 <= i < |keys| ==> defs[i] == ColumnDef(keys[i], HeaderName(keys[i]))
  {
    seq(|keys|, i requires 0 <= i < |keys| => ColumnDef(keys[i], HeaderName(keys[i])))
  }

  /** `Object.keys(row)`: an object's own keys, the indices of an array or a string, nothing
      for a number or a boolean, and a `TypeError` (`None`) for `null`. */
  function RowKeys(row: Json): (ks: Option<seq<string>>)
    ensures row.JObject? ==> ks == Some(Keys(row.fields))
    ensures ks.None? <==> row.JNull?
  {
    match row
    case JObject(fields) => Some(Keys(fields))
    case JArray(items) => Some(seq(|items|, i requires 0 <= i < |items| => NatDecimal(i)))
    case JString(s) => Some(seq(|s|, i requires 0 <= i < |s| => NatDecimal(i)))
    case JNull => None
    case _ => Some([])
  }

  /** The columns come from the first row alone: one column per key of it, in key order, whose
      field is the raw key; the other rows play no part. */
  lemma ColumnsFromFirstRow(first: seq<Field>, rest: seq<Json>, other: seq<Field>)
    ensures var defs := ColumnDefs(RowKeys(JObject(first)).value);
      && |defs| == |first|
      && (forall i :: 0 <= i < |first| ==> defs[i].field == first[i].key)
      && defs == ColumnDefs(RowKeys(([JObject(first)] + rest)[0]).value)
  {
  }

  // ---------------------------------------------------------------------------------------
  // The project id

  /** The project id `useMemo` yields: the user's number, or the text found in storage. */
  datatype ProjectRef = FromUser(id: int) | FromStorage(text: string)

  function ProjectText(p: ProjectRef): string {
    match p
    case FromUser(n) => Decimal(n)
    case FromStorage(t) => t
  }

  /** The resolution rule: a truthy user project id wins; otherwise a non-empty stored value;
      otherwise `null`. */
  function ResolvedProjectId(user: Option<User>, stored: Option<string>): (p: Option<ProjectRef>)
    ensures user.Some? && TruthyId(user.value.projectId) ==> p == Some(FromUser(user.value.projectId.value))
    ensures !(user.Some? && TruthyId(user.value.projectId)) ==> p == if TruthyText(stored) then Some(FromStorage(stored.value)) else None
  {
    if user.Some? && TruthyId(user.value.projectId) then Some(FromUser(user.value.projectId.value))
    else if TruthyText(stored) then Some(FromStorage(stored.value))
    else None
  }

  /** The storage write keeps the project: once a user's id has been resolved, a later
      resolution without it finds the same id, as text, in storage. */
  lemma StoredIdOutlivesUser(u: User, storage: map<string, string>, later: Option<User>)
    requires TruthyId(u.projectId)
    requires later.None? || !TruthyId(later.value.projectId)
    ensures var stored := storage[ProjectIdKey := Decimal(u.projectId.value)];
      ResolvedProjectId(later, Some(stored[ProjectIdKey])) == Some(FromStorage(ProjectText(FromUser(u.projectId.value))))
  {
  }

  /** The request URL with its query string. */
  function DatasetUrl(userId: int, project: ProjectRef): string {
    DatasetEndpoint + "?user_id=" + Decimal(userId) + "&project_id=" + ProjectText(project)
  }

  /** `o?.k` on a decoded reply body. */
  function Member(data: Json, k: string): Option<Json> {
    if data.JObject? then Get(data.fields, k) else None
  }

  /** The rows, when the reply's `dataset` is a non-empty array. */
  function NonEmptyRows(data: Json): (rows: Option<seq<Json>>)
    ensures rows.Some? <==>
      Member(data, "dataset").Some? && Member(data, "dataset").value.JArray? && |Member(data, "dataset").value.items| > 0
    ensures rows.Some? ==> Member(data, "dataset") == Some(JArray(rows.value))
  {
    match Member(data, "dataset")
    case Some(JArray(items)) => if |items| > 0 then Some(items) else None
    case _ => None
  }

  /** The parent's three setters, called with whatever the reply holds. */
  function SetterCalls(data: Json): seq<Event> {
    [Callback("setColumns", Member(data, "columns")),
     Callback("setNumericalColumns", Member(data, "numerical")),
     Callback("setCategoricalColumns", Member(data, "categorical"))]
  }

  class DatasetPreviewPage {
    const user: Option<User>
    var storage: map<string, string>
    var rows: seq<Json>
    var columnDefs: seq<ColumnDef>
    var loading: bool
    var log: seq<Event>

    constructor (user: Option<User>, storage: map<string, string>)
      ensures this.user == user && this.storage == storage
      ensures rows == [] && columnDefs == [] && loading && log == []
    {
      this.user, this.storage := user, storage;
      rows, columnDefs, loading, log := [], [], true, [];
    }

    /** The `project_id` memo: reads storage, and writes the user's id there when it wins. */
    method ResolveProjectId() returns (p: Option<ProjectRef>)
      modifies this`storage
      ensures p == ResolvedProjectId(user, if ProjectIdKey in old(storage) then Some(old(storage)[ProjectIdKey]) else None)
      ensures storage == if user.Some? && TruthyId(user.value.projectId)
                         then old(storage)[ProjectIdKey := Decimal(user.value.projectId.value)] else old(storage)
    {
      var stored := if ProjectIdKey in storage then Some(storage[ProjectIdKey]) else None;
      if user.Some? && TruthyId(user.value.projectId) {
        storage := storage[ProjectIdKey := Decimal(user.value.projectId.value)];
        return Some(FromUser(user.value.projectId.value));
      }
      if TruthyText(stored) {
        p := Some(FromStorage(stored.value));
      } else {
        p := None;
      }
    }

    /** `fetchDataset`. Without a user id or a project id it only reports the gap. Otherwise it
        fetches, hands the column lists to the parent, and installs rows and generated columns
        only for a non-empty array; anything else is a warning with the grid unchanged. A
        failed call, or a `null` first row, is reported. `loading` is false afterwards in
        every case. */
    method FetchDataset(project: Option<ProjectRef>, reply: Call<Json>)
      modifies this`rows, this`columnDefs, this`loading, this`log
      ensures !loading
      ensures user.None? || !TruthyId(Some(user.value.userId)) || project.None? ==>
        rows == old(rows) && columnDefs == old(columnDefs) && log == old(log) + [Notify(MissingInfoNotice, Error)]
      ensures user.Some? && TruthyId(Some(user.value.userId)) && project.Some? ==>
        var get := Request(HttpGet, DatasetUrl(user.value.userId, project.value), []);
        match reply
        case Threw(_) =>
          rows == old(rows) && columnDefs == old(columnDefs) && log == old(log) + [get, Notify(FetchFailedNotice, Error)]
        case Answered(data) =>
          match NonEmptyRows(data)
          case None =>
            rows == old(rows) && columnDefs == old(columnDefs) &&
            log == old(log) + [get] + SetterCalls(data) + [Notify(EmptyNotice, Warning)]
          case Some(items) =>
            match RowKeys(items[0])
            case None =>
              rows == old(rows) && columnDefs == old(columnDefs) &&
              log == old(log) + [get] + SetterCalls(data) + [Notify(FetchFailedNotice, Error)]
            case Some(keys) =>
              rows == items && columnDefs == ColumnDefs(keys) &&
              log == old(log) + [get] + SetterCalls(data) + [Notify(LoadedNotice, Success)]
    {
      loading := true;
      if user.None? || user.value.userId == 0 || project.None? {
        log := log + [Notify(MissingInfoNotice, Error)];
        loading := false;
        return;
      }
      log := log + [Request(HttpGet, DatasetUrl(user.value.userId, project.value), [])];
      match reply {
      case Threw(_) =>
        log := log + [Notify(FetchFailedNotice, Error)];
      case Answered(data) =>
        log := log + SetterCalls(data);
        var dataset := NonEmptyRows(data);
        if dataset.None? {
          log := log + [Notify(EmptyNotice, Warning)];
        } else {
          var keys := RowKeys(dataset.value[0]);
          if keys.None? {
            log := log + [Notify(FetchFailedNotice, Error)];
          } else {
            columnDefs := ColumnDefs(keys.value);
            rows := dataset.value;
            log := log + [Notify(LoadedNotice, Success)];
          }
        }
      }
      loading := false;
    }
  }
}
