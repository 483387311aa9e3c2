/** The form that chooses a plot type and its columns and hands the choice to the page. */
module PlotForm {
  import opened Wrappers
  import opened Json

  /** One row of `plotConfig`; `allowedAggs` is absent on the rows that need no aggregation. */
  datatype PlotConfig = PlotConfig(useCase: string, args: seq<string>, hue: bool, aggNeeded: bool, allowedAggs: Option<seq<string>>)

  /** The keys of `plotConfig`, in the order the plot-type menu lists them. */
  const PlotTypes: seq<string> :=
    ["scatter", "line", "bar", "box", "violin", "hist", "kde", "pie", "pairplot", "swarm", "strip", "count"]

  const AxesAndHue: seq<string> := ["x", "y", "hue"]
  const AxisAndHue: seq<string> := ["x", "hue"]

  /** `plotConfig[t]`, absent for a key the table lacks. */
  function PlotConfigOf(t: string): Option<PlotConfig> {
    match t
    case "scatter" => Some(PlotConfig("Two continuous variables", AxesAndHue, true, false, None))
    case "line" => Some(PlotConfig("Time series or trends", AxesAndHue, true, false, None))
    case "bar" => Some(PlotConfig("Category vs Value", AxesAndHue, true, true, Some(["sum", "mean", "count", "median"])))
    case "box" => Some(PlotConfig("Distribution by category", AxesAndHue, true, false, None))
    case "violin" => Some(PlotConfig("Smoothed distribution by category", AxesAndHue, true, false, None))
    case "hist" => Some(PlotConfig("Distribution of a single variable", AxisAndHue, true, false, None))
    case "kde" => Some(PlotConfig("Density estimation of a variable", AxisAndHue, true, false, None))
    case "pie" => Some(PlotConfig("Proportion of categories", ["x", "y"], false, true, Some(["sum", "count"])))
    case "pairplot" => Some(PlotConfig("Pairwise variable relationships", ["df"], true, false, None))
    case "swarm" => Some(PlotConfig("Categorical scatter distribution", AxesAndHue, true, false, None))
    case "strip" => Some(PlotConfig("Jittered categorical scatter", AxesAndHue, true, false, None))
    case "count" => Some(PlotConfig("Frequency of categorical values", AxisAndHue, true, false, None))
    case _ => None
  }

  /** `selectedConfig`: nothing for the empty plot type. */
  function Selected(t: string): Option<PlotConfig> {
    if t == "" then None else PlotConfigOf(t)
  }

  /** `selectedConfig?.args.includes(a)`. */
  predicate HasArg(t: string, a: string) {
    Selected(t).Some? && a in Selected(t).value.args
  }

  /** `selectedConfig?.agg_needed`. */
  predicate NeedsAggregation(t: string) {
    Selected(t).Some? && Selected(t).value.aggNeeded
  }

  function StringField(k: string, v: string, present: bool): Object {
    if present then [Field(k, JString(v))] else []
  }

  /** The `PlotFormData` that `handleSubmit` hands to `onSubmit`. */
  function PlotData(t: string, x: string, y: string, hue: string, aggregation: string): Object {
    Payload(t, x, y, hue, aggregation, HasArg(t, "x"), HasArg(t, "y"), HasArg(t, "hue"), NeedsAggregation(t))
  }

  /** `{ plotType }` followed by the fields whose flag is set, in assignment order. */
  function Payload(t: string, x: string, y: string, hue: string, aggregation: string,
                   px: bool, py: bool, ph: bool, pa: bool): Object {
    [Field("plotType", JString(t))]
      + StringField("x", x, px)
      + StringField("y", y, py)
      + StringField("hue", hue, ph)
      + StringField("aggregation", aggregation, pa)
  }

  lemma StringFieldGet(k: string, v: string, present: bool, j: string)
    ensures Get(StringField(k, v, present), j) == if present && j == k then Some(JString(v)) else None
    ensures Keys(StringField(k, v, present)) == if present then [k] else []
  {
  }

  lemma PayloadGet(t: string, x: string, y: string, hue: string, aggregation: string,
                   px: bool, py: bool, ph: bool, pa: bool, k: string)
    requires k in {"plotType", "x", "y", "hue", "aggregation"}
    ensures Get(Payload(t, x, y, hue, aggregation, px, py, ph, pa), k) ==
      if k == "plotType" then Some(JString(t))
      else if k == "x" then (if px then Some(JString(x)) else None)
      else if k == "y" then (if py then Some(JString(y)) else None)
      else if k == "hue" then (if ph then Some(JString(hue)) else None)
      else (if pa then Some(JString(aggregation)) else None)
  {
    ChainGet([Field("plotType", JString(t))], StringField("x", x, px), StringField("y", y, py),
             StringField("hue", hue, ph), StringField("aggregation", aggregation, pa), k);
    StringFieldGet("x", x, px, k);
    StringFieldGet("y", y, py, k);
    StringFieldGet("hue", hue, ph, k);
    StringFieldGet("aggregation", aggregation, pa, k);
  }

  lemma PayloadKeys(t: string, x: string, y: string, hue: string, aggregation: string,
                    px: bool, py: bool, ph: bool, pa: bool)
    ensures forall k :: k in Keys(Payload(t, x, y, hue, aggregation, px, py, ph, pa)) ==>
              k in {"plotType", "x", "y", "hue", "aggregation"}
  {
    var o0: Object := [Field("plotType", JString(t))];
    var fx := StringField("x", x, px);
    var fy := StringField("y", y, py);
    var fh := StringField("hue", hue, ph);
    var fa := StringField("aggregation", aggregation, pa);
    StringFieldGet("x", x, px, "x");
    StringFieldGet("y", y, py, "y");
    StringFieldGet("hue", hue, ph, "hue");
    StringFieldGet("aggregation", aggregation, pa, "aggregation");
    KeysConcat(o0, fx);
    KeysConcat(o0 + fx, fy);
    KeysConcat(o0 + fx + fy, fh);
    KeysConcat(o0 + fx + fy + fh, fa);
  }

  /** The payload always names the plot type, carries each axis and the hue exactly when the
      type's `args` list them and the aggregation exactly when the type needs one, and has no
      other field. */
  lemma PlotDataFields(t: string, x: string, y: string, hue: string, aggregation: string)
    ensures var d := PlotData(t, x, y, hue, aggregation);
      && Get(d, "plotType") == Some(JString(t))
      && Get(d, "x") == (if HasArg(t, "x") then Some(JString(x)) else None)
      && Get(d, "y") == (if HasArg(t, "y") then Some(JString(y)) else None)
      && Get(d, "hue") == (if HasArg(t, "hue") then Some(JString(hue)) else None)
      && Get(d, "aggregation") == (if NeedsAggregation(t) then Some(JString(aggregation)) else None)
      && forall k :: k in Keys(d) ==> k in {"plotType", "x", "y", "hue", "aggregation"}
  {
    var px, py, ph, pa := HasArg(t, "x"), HasArg(t, "y"), HasArg(t, "hue"), NeedsAggregation(t);
    PayloadGet(t, x, y, hue, aggregation, px, py, ph, pa, "plotType");
    PayloadGet(t, x, y, hue, aggregation, px, py, ph, pa, "x");
    PayloadGet(t, x, y, hue, aggregation, px, py, ph, pa, "y");
    PayloadGet(t, x, y, hue, aggregation, px, py, ph, pa, "hue");
    PayloadGet(t, x, y, hue, aggregation, px, py, ph, pa, "aggregation");
    PayloadKeys(t, x, y, hue, aggregation, px, py, ph, pa);
  }

  /** A lookup in five objects laid end to end finds the first that has the key. */
  lemma ChainGet(a: Object, b: Object, c: Object, d: Object, e: Object, k: string)
    ensures Get(a + b + c + d + e, k) ==
      if k in Keys(a) then Get(a, k) else if k in Keys(b) then Get(b, k)
      else if k in Keys(c) then Get(c, k) else if k in Keys(d) then Get(d, k) else Get(e, k)
  {
    GetConcat(a, b, k);
    GetConcat(a + b, c, k);
    GetConcat(a + b + c, d, k);
    GetConcat(a + b + c + d, e, k);
    KeysConcat(a, b);
    KeysConcat(a + b, c);
    KeysConcat(a + b + c, d);
  }

  /** The menu's keys only; `plotType ? plotConfig[plotType] : null` finds a row for each one. */
  lemma MenuTypesHaveConfig(t: string)
    requires t in PlotTypes
    ensures Selected(t).Some?
  {
  }

  /** Without a row (the empty or an unknown plot type) the payload holds only `plotType`. */
  lemma NoConfigOnlyPlotType(t: string, x: string, y: string, hue: string, aggregation: string)
    requires Selected(t).None?
    ensures PlotData(t, x, y, hue, aggregation) == [Field("plotType", JString(t))]
  {
  }

  /** `pairplot` lists only `"df"`, so it sends no axis, and no hue despite its `hue` flag. */
  lemma PairplotSendsNoAxes(x: string, y: string, hue: string, aggregation: string)
    ensures PlotConfigOf("pairplot").Some? && PlotConfigOf("pairplot").value.hue
    ensures PlotData("pairplot", x, y, hue, aggregation) == [Field("plotType", JString("pairplot"))]
  {
    assert !HasArg("pairplot", "x") && !HasArg("pairplot", "y") && !HasArg("pairplot", "hue");
  }

  /** `pie` never sends a hue but always an aggregation. */
  lemma PieSendsNoHue(x: string, y: string, hue: string, aggregation: string)
    ensures var d := PlotData("pie", x, y, hue, aggregation);
      Get(d, "hue") == None && Get(d, "aggregation") == Some(JString(aggregation))
  {
    assert !HasArg("pie", "hue") && NeedsAggregation("pie");
    PlotDataFields("pie", x, y, hue, aggregation);
  }

  /** The aggregation menu has a list exactly on the rows that need one, which are `bar` and
      `pie`. */
  lemma AggregationMenus(t: string)
    requires t in PlotTypes
    ensures var c := PlotConfigOf(t).value; c.aggNeeded <==> c.allowedAggs.Some?
    ensures PlotConfigOf(t).value.aggNeeded <==> t == "bar" || t == "pie"
  {
  }

  /** `bar` offers four aggregations and `pie` two. */
  lemma AggregationCounts()
    ensures |PlotConfigOf("bar").value.allowedAggs.value| == 4
    ensures |PlotConfigOf("pie").value.allowedAggs.value| == 2
  {
  }

  /** "Generate Plot" is enabled exactly when a plot type is chosen. */
  predicate SubmitEnabled(t: string) {
    t != ""
  }

  /** A disabled button would send only the empty plot type; every menu choice enables it. */
  lemma SubmitEnabledIff(t: string, x: string, y: string, hue: string, aggregation: string)
    ensures !SubmitEnabled(t) ==> PlotData(t, x, y, hue, aggregation) == [Field("plotType", JString(""))]
    ensures t in PlotTypes ==> SubmitEnabled(t)
  {
  }

  class PlotFormState {
    const columns: seq<string>

    var plotType: string
    var x: string
    var y: string
    var hue: string
    var aggregation: string

    constructor (columns: seq<string>)
      ensures this.columns == columns
      ensures plotType == "" && x == "" && y == "" && hue == "" && aggregation == ""
    {
      this.columns := columns;
      plotType, x, y, hue, aggregation := "", "", "", "", "";
    }

    /** The plot-type menu: `setPlotType(t)`, then the effect on `[plotType]`, which runs only
        when the value changed and clears the four other inputs. */
    method ChoosePlotType(t: string)
      modifies this`plotType, this`x, this`y, this`hue, this`aggregation
      ensures plotType == t
      ensures t != old(plotType) ==> x == "" && y == "" && hue == "" && aggregation == ""
      ensures t == old(plotType) ==> x == old(x) && y == old(y) && hue == old(hue) && aggregation == old(aggregation)
    {
      var changed := t != plotType;
      plotType := t;
      if changed {
        x := "";
        y := "";
        hue := "";
        aggregation := "";
      }
    }

    /** `handleSubmit`: builds the payload field by field, returns it as the `onSubmit`
        argument and resets all five inputs. */
    method HandleSubmit() returns (data: Object)
      modifies this`plotType, this`x, this`y, this`hue, this`aggregation
      ensures data == PlotData(old(plotType), old(x), old(y), old(hue), old(aggregation))
      ensures plotType == "" && x == "" && y == "" && hue == "" && aggregation == ""
    {
      ghost var d0: Object := [Field("plotType", JString(plotType))];
      data := [Field("plotType", JString(plotType))];
      if HasArg(plotType, "x") {
        data := data + [Field("x", JString(x))];
      }
      ghost var d1 := d0 + StringField("x", x, HasArg(plotType, "x"));
      assert data == d1;
      if HasArg(plotType, "y") {
        data := data + [Field("y", JString(y))];
      }
      ghost var d2 := d1 + StringField("y", y, HasArg(plotType, "y"));
      assert data == d2;
      if HasArg(plotType, "hue") {
        data := data + [Field("hue", JString(hue))];
      }
      ghost var d3 := d2 + StringField("hue", hue, HasArg(plotType, "hue"));
      assert data == d3;
      if NeedsAggregation(plotType) {
        data := data + [Field("aggregation", JString(aggregation))];
      }
      assert data == d3 + StringField("aggregation", aggregation, NeedsAggregation(plotType));
      plotType, x, y, hue, aggregation := "", "", "", "", "";
    }
  }
}
