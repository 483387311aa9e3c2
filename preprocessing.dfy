/** The preprocessing panel: one scaling method per numerical column and one encoding method per
    categorical column, sent together as the dataset's preprocessing configuration. */
module Preprocessing {
  import opened Wrappers
  import opened Json
  import opened Effects

  const DefaultScaling := "standard"
  const DefaultEncoding := "onehot"
  const PreprocessEndpoint := "process/preprocess"
  const SavedNotice := "Preprocessing Config Saved!"

  /** A column-to-method record, as `Record<string, string>`. */
  type Methods = map<string, string>

  /** One entry of a configuration list; `None` is an `undefined` method. */
  datatype ColumnMethod = ColumnMethod(column: string, choice: Option<string>)

  function Lookup(methods: Methods, column: string): (m: Option<string>)
    ensures m.Some? <==> column in methods
    ensures m.Some? ==> m.value == methods[column]
  {
    if column in methods then Some(methods[column]) else None
  }

  /** `columns.map(column => ({column, method: methods[column]}))`. */
  function ColumnMethods(columns: seq<string>, methods: Methods): (r: seq<ColumnMethod>)
    ensures |r| == |columns|
    ensures forall i :: 0 <= i < |columns| ==> r[i].column == columns[i]
    ensures forall i :: 0 <= i < |columns| ==> r[i].choice == Lookup(methods, columns[i])
  {
    seq(|columns|, i requires 0 <= i < |columns| => ColumnMethod(columns[i], Lookup(methods, columns[i])))
  }

  /** The configuration `handleSubmit` posts. */
  datatype Config = Config(projectId: Option<int>, fileUrl: string, datasetName: string,
                           scaling: seq<ColumnMethod>, encoding: seq<ColumnMethod>)

  function MakeConfig(user: Option<User>, fileUrl: string, datasetName: string,
                      numerical: seq<string>, categorical: seq<string>, scaling: Methods, encoding: Methods): Config {
    Config(if user.Some? then user.value.projectId else None, fileUrl, datasetName,
           ColumnMethods(numerical, scaling), ColumnMethods(categorical, encoding))
  }

  function EntryJson(e: ColumnMethod): Json {
    JObject([Field("column", JString(e.column))] + OptionalField("method", if e.choice.Some? then Some(JString(e.choice.value)) else None))
  }

  /** The configuration as the request body; `undefined` values are dropped when it is
      serialised. */
  function ConfigBody(c: Config): Object {
    OptionalField("project_id", IdJson(c.projectId))
    + [Field("file_url", JString(c.fileUrl)), Field("dataset_name", JString(c.datasetName)),
       Field("preprocessing", JObject([
         Field("scaling", JArray(seq(|c.scaling|, i requires 0 <= i < |c.scaling| => EntryJson(c.scaling[i])))),
         Field("encoding", JArray(seq(|c.encoding|, i requires 0 <= i < |c.encoding| => EntryJson(c.encoding[i]))))]))]
  }

  /** The record the `reduce` at mount builds: every listed column mapped to `choice`, and no
      other key. */
  ghost predicate AllSetTo(methods: Methods, columns: seq<string>, choice: string) {
    && (forall c :: c in methods <==> c in columns)
    && (forall c :: c in methods ==> methods[c] == choice)
  }

  /** With the record built at mount, every configuration entry carries the default method. */
  lemma DefaultsReachConfig(columns: seq<string>, methods: Methods, choice: string)
    requires AllSetTo(methods, columns, choice)
    ensures forall i :: 0 <= i < |columns| ==> ColumnMethods(columns, methods)[i].choice == Some(choice)
  {
  }

  /** Choosing a method for one column changes the configuration entries of that column only,
      and every one of them; a column the record lacks gets an undefined method. */
  lemma ChoiceChangesOneColumn(columns: seq<string>, methods: Methods, column: string, choice: string)
    ensures var before := ColumnMethods(columns, methods);
      var after := ColumnMethods(columns, methods[column := choice]);
      forall i :: 0 <= i < |columns| ==>
        after[i].column == before[i].column &&
        after[i].choice == if columns[i] == column then Some(choice) else before[i].choice
    ensures forall i :: 0 <= i < |columns| && columns[i] !in methods ==> ColumnMethods(columns, methods)[i].choice.None?
  {
  }

  /** The reply of the preprocessing call. */
  datatype PreprocessReply = PreprocessReply(preprocessId: Option<int>)

  class PreprocessingPage {
    var user: Option<User>
    var scaling: Methods
    var encoding: Methods
    var log: seq<Event>

    /** Mounting the panel with the columns it is given. */
    constructor (user: Option<User>, numericalColumns: seq<string>, categoricalColumns: seq<string>)
      ensures this.user == user && log == []
      ensures AllSetTo(scaling, numericalColumns, DefaultScaling)
      ensures AllSetTo(encoding, categoricalColumns, DefaultEncoding)
    {
      var s := FillWith(numericalColumns, DefaultScaling);
      var e := FillWith(categoricalColumns, DefaultEncoding);
      this.user, log, scaling, encoding := user, [], s, e;
    }

    /** The `onChange` of a scaling select: `{...scaling, [column]: value}`. */
    method ChooseScaling(column: string, choice: string)
      modifies this`scaling
      ensures scaling == old(scaling)[column := choice]
    {
      scaling := scaling[column := choice];
    }

    /** The `onChange` of an encoding select. */
    method ChooseEncoding(column: string, choice: string)
      modifies this`encoding
      ensures encoding == old(encoding)[column := choice]
    {
      encoding := encoding[column := choice];
    }

    /** `handleSubmit` with the columns of the current render: the configuration is posted, and
        only a reply writes `preprocess_id` onto the signed-in user, followed by the saved
        notice; a failed call leaves the user as it was and reports the error. */
    method HandleSubmit(fileUrl: string, datasetName: string, numericalColumns: seq<string>, categoricalColumns: seq<string>,
                        reply: Call<PreprocessReply>)
      modifies this`user, this`log
      ensures var config := MakeConfig(old(user), fileUrl, datasetName, numericalColumns, categoricalColumns, scaling, encoding);
        var post := Request(HttpPost, PreprocessEndpoint, ConfigBody(config));
        match reply
        case Threw(m) => user == old(user) && log == old(log) + [post, Notify(m, Error)]
        case Answered(b) =>
          && user == (if old(user).Some? then Some(old(user).value.(preprocessId := b.preprocessId)) else None)
          && log == old(log) + [post, Notify(SavedNotice, Success)]
    {
      var config := MakeConfig(user, fileUrl, datasetName, numericalColumns, categoricalColumns, scaling, encoding);
      log := log + [Request(HttpPost, PreprocessEndpoint, ConfigBody(config))];
      match reply
      case Threw(m) =>
        log := log + [Notify(m, Error)];
      case Answered(b) =>
        if user.Some? {
          user := Some(user.value.(preprocessId := b.preprocessId));
        }
        log := log + [Notify(SavedNotice, Success)];
    }
  }

  /** `columns.reduce((acc, column) => { acc[column] = choice; return acc; }, {})`. */
  method FillWith(columns: seq<string>, choice: string) returns (acc: Methods)
    ensures AllSetTo(acc, columns, choice)
  {
    acc := map[];
    for k := 0 to |columns|
      invariant AllSetTo(acc, columns[..k], choice)
    {
      acc := acc[columns[k] := choice];
      assert columns[..k + 1] == columns[..k] + [columns[k]];
    }
    assert columns[..|columns|] == columns;
  }
}
