/**
 * The decision logic of the dashboard's callbacks (app.py): the chart-type
 * toggle, the reply of the "Load Data" callback with its default axis
 * selections, and the guard and title choice of the graph callback. Layout
 * and Plotly figure construction are not modelled; a figure is reduced to
 * its title, template, chart kind, axes and colour key.
 */
module Dashboard {
  import opened Wrappers
  import opened Strings
  import opened Tables
  import opened DataAccess

  /** The dataset loaded when the app starts. */
  const BucketName := "ieee-dataport"
  const DefaultPrefix := "data/1292651/EVChargeStationUseSept2018toAug2019nd.xlsx"

  /** The chart kinds the `current-chart-type` store takes; it starts at `scatter`. */
  const Scatter := "scatter"
  const Bar := "bar"
  const Line := "line"

  /** The ids of the three chart-type buttons. */
  const ScatterButton := "scatter-btn"
  const BarButton := "bar-btn"
  const LineButton := "line-btn"

  predicate IsChartKind(kind: string)
  {
    kind == Scatter || kind == Bar || kind == Line
  }

  /** Python truthiness of an optional string: present and non-empty. */
  predicate Truthy(s: Option<string>)
  {
    s.Some? && s.value != ""
  }

  /** The module-level startup: a fresh service that loads the default dataset once. */
  method Startup(env: Backend) returns (service: DataService)
    ensures fresh(service)
    ensures service.data == Load(env, BucketName, DefaultPrefix)
  {
    service := new DataService();
    var _ := service.LoadDatasetFromS3(env, BucketName, DefaultPrefix);
  }

  /** The default key is an Excel workbook: startup yields the single Excel table or nothing. */
  lemma StartupLoadsExcel(env: Backend)
    ensures Load(env, BucketName, DefaultPrefix).Some? ==>
      exists t :: Load(env, BucketName, DefaultPrefix) == Some([Entry(ExcelLabel, t)])
  {
  }

  // ---------------------------------------------------------------------------
  // toggle_chart_type

  /** The outputs of `toggle_chart_type`: the new store value and each button's `outline`. */
  datatype ChartToggle = ChartToggle(chartType: string, scatterOutline: bool, barOutline: bool, lineOutline: bool)

  /** `prop_id.split('.')[0]`: the text before the first `.`, or all of it. */
  function ButtonId(propId: string): (r: string)
    ensures r <= propId
    ensures '.' !in r
    ensures |r| < |propId| ==> propId[|r|] == '.'
    decreases |propId|
  {
    if propId == [] || propId[0] == '.' then ""
    else
      var rest := ButtonId(propId[1..]);
      assert propId == [propId[0]] + propId[1..];
      [propId[0]] + rest
  }

  /** Dash names a trigger `<component id>.<property>`; a component id without a `.` is recovered exactly. */
  lemma {:induction false} ButtonIdOfPropId(id: string, property: string)
    requires '.' !in id
    ensures ButtonId(id + "." + property) == id
  {
    var p := id + "." + property;
    var r := ButtonId(p);
    assert forall i :: 0 <= i < |id| ==> p[i] == id[i] && p[i] != '.';
    assert p[|id|] == '.';
    assert |r| == |id|;
    assert r == p[..|id|] == id;
  }

  /**
   * `toggle_chart_type`, given the triggering property (`None` on the initial
   * call) and the stored chart type; the click counts it receives are unused.
   */
  function ToggleChartType(trigger: Option<string>, current: string): (r: ChartToggle)
    ensures r.scatterOutline == (r.chartType != Scatter)
    ensures r.barOutline == (r.chartType != Bar)
    ensures r.lineOutline == (r.chartType != Line)
    ensures IsChartKind(current) ==> IsChartKind(r.chartType)
    ensures !IsChartKind(r.chartType) ==> r.chartType == current
  {
    if trigger.None? then ChartToggle(Scatter, false, true, true)
    else
      var buttonId := ButtonId(trigger.value);
      if buttonId == ScatterButton then ChartToggle(Scatter, false, true, true)
      else if buttonId == BarButton then ChartToggle(Bar, true, false, true)
      else if buttonId == LineButton then ChartToggle(Line, true, true, false)
      else ChartToggle(current, current != Scatter, current != Bar, current != Line)
  }

  /**
   * The initial call selects `scatter`; a click on a chart-type button selects
   * that button's kind; any other trigger keeps the stored kind.
   */
  lemma ToggleChoosesKind(property: string, current: string)
    ensures ToggleChartType(None, current).chartType == Scatter
    ensures ToggleChartType(Some(ScatterButton + "." + property), current).chartType == Scatter
    ensures ToggleChartType(Some(BarButton + "." + property), current).chartType == Bar
    ensures ToggleChartType(Some(LineButton + "." + property), current).chartType == Line
    ensures forall p :: ButtonId(p) !in {ScatterButton, BarButton, LineButton} ==>
      ToggleChartType(Some(p), current).chartType == current
  {
    ButtonIdOfPropId(ScatterButton, property);
    ButtonIdOfPropId(BarButton, property);
    ButtonIdOfPropId(LineButton, property);
  }

  /** The store's value after a run of toggle callbacks, from its initial `scatter`. */
  function StoredChartType(triggers: seq<Option<string>>): string
    decreases |triggers|
  {
    if triggers == [] then Scatter
    else ToggleChartType(triggers[|triggers| - 1], StoredChartType(triggers[..|triggers| - 1])).chartType
  }

  /** Whatever buttons fire, the store only ever holds one of the three chart kinds. */
  lemma {:induction false} StoreHoldsChartKind(triggers: seq<Option<string>>)
    ensures IsChartKind(StoredChartType(triggers))
  {
    if triggers != [] {
      StoreHoldsChartKind(triggers[..|triggers| - 1]);
    }
  }

  // ---------------------------------------------------------------------------
  // load_data

  /** The alert shown after a load. */
  datatype Alert = LoadFailed | LoadSucceeded(rows: nat, columns: nat)

  /** The `dataset-info` store. */
  datatype DatasetInfo = DatasetInfo(rows: nat, columns: nat, catCols: nat, numCols: nat)

  /**
   * The eight outputs of `load_data`; each dropdown option has the column
   * name as both label and value, so an option list is its names.
   */
  datatype LoadOutput = LoadOutput(
    alert: Alert, info: Option<DatasetInfo>,
    xOptions: seq<string>, xValue: Option<string>,
    yOptions: seq<string>, yValue: Option<string>,
    keyOptions: seq<string>, keyValue: Option<string>)

  datatype LoadReply = NoUpdate | Reply(output: LoadOutput)

  /** What `load_data` reports after a load that returned `loaded`. */
  function Respond(loaded: Option<Dataset>): (o: LoadOutput)
    ensures loaded.None? ==> o == LoadOutput(LoadFailed, None, [], None, [], None, [], None)
    ensures loaded.Some? ==> o.info.Some? && o.alert == LoadSucceeded(o.info.value.rows, o.info.value.columns)
    ensures loaded.Some? ==>
      var c := Classify(FirstTable(loaded));
      o.xOptions == c.categorical && o.yOptions == c.numerical && o.keyOptions == c.numerical
  {
    match loaded
    case None => LoadOutput(LoadFailed, None, [], None, [], None, [], None)
    case Some(_) =>
      var c := Classify(FirstTable(loaded));
      var df := FirstTable(loaded);
      var info := DatasetInfo(
        if df.Some? then df.value.rows else 0,
        if df.Some? then |df.value.columns| else 0,
        |c.categorical|, |c.numerical|);
      LoadOutput(
        LoadSucceeded(info.rows, info.columns), Some(info),
        c.categorical, if |c.categorical| > 0 then Some(c.categorical[0]) else None,
        c.numerical, if |c.numerical| > 0 then Some(c.numerical[0]) else None,
        c.numerical, if |c.numerical| > 1 then Some(c.numerical[1]) else None)
  }

  /** `load_data`: no update without a click; otherwise load, then report on the service's new state. */
  method LoadData(service: DataService, env: Backend, nClicks: Option<int>, bucketName: string, prefix: string)
    returns (reply: LoadReply)
    modifies service
    ensures nClicks.None? ==> reply == NoUpdate && service.data == old(service.data)
    ensures nClicks.Some? ==>
      var loaded := Load(env, bucketName, prefix);
      && reply == Reply(Respond(loaded))
      && service.data == if loaded.Some? then loaded else old(service.data)
  {
    if nClicks.None? {
      return NoUpdate;
    }
    var data := service.LoadDatasetFromS3(env, bucketName, prefix);
    if data.None? {
      return Reply(LoadOutput(LoadFailed, None, [], None, [], None, [], None));
    }
    var c := service.ClassifyColumns();
    var catValue := if |c.categorical| > 0 then Some(c.categorical[0]) else None;
    var numValue := if |c.numerical| > 0 then Some(c.numerical[0]) else None;
    var keyValue := if |c.numerical| > 1 then Some(c.numerical[1]) else None;
    var df := service.GetDataframe();
    var info := DatasetInfo(
      if df.Some? then df.value.rows else 0,
      if df.Some? then |df.value.columns| else 0,
      |c.categorical|, |c.numerical|);
    return Reply(LoadOutput(
      LoadSucceeded(info.rows, info.columns), Some(info),
      c.categorical, catValue, c.numerical, numValue, c.numerical, keyValue));
  }

  /** The columns of the current table, none when there is no table. */
  function ColumnsOf(t: Option<Table>): seq<Column>
  {
    if t.Some? then t.value.columns else []
  }

  /** `name` is the name of the first column with `role`. */
  ghost predicate FirstWith(cols: seq<Column>, role: Role, name: string)
  {
    exists j :: 0 <= j < |cols| && HasRole(cols[j], role) && cols[j].name == name &&
      forall i :: 0 <= i < j ==> !HasRole(cols[i], role)
  }

  /** `name` is the name of the second column with `role`. */
  ghost predicate SecondWith(cols: seq<Column>, role: Role, name: string)
  {
    exists j1, j2 :: 0 <= j1 < j2 < |cols| && HasRole(cols[j1], role) && HasRole(cols[j2], role) &&
      cols[j2].name == name &&
      forall i :: 0 <= i < j2 && i != j1 ==> !HasRole(cols[i], role)
  }

  /** Without a selected name there is no column with the role, and conversely. */
  lemma SelectionEmpty(cols: seq<Column>, role: Role, idx: seq<int>, names: seq<string>)
    requires Selects(cols, role, idx, names)
    ensures |names| == 0 <==> forall j :: 0 <= j < |cols| ==> !HasRole(cols[j], role)
  {
    if |names| > 0 {
      assert HasRole(cols[idx[0]], role);
    }
  }

  /** The first selected name is that of the first column with the role. */
  lemma SelectionFirst(cols: seq<Column>, role: Role, idx: seq<int>, names: seq<string>)
    requires Selects(cols, role, idx, names)
    requires |names| > 0
    ensures FirstWith(cols, role, names[0])
  {
  }

  /** At most one selected name exactly when no two columns have the role. */
  lemma SelectionAtMostOne(cols: seq<Column>, role: Role, idx: seq<int>, names: seq<string>)
    requires Selects(cols, role, idx, names)
    ensures |names| <= 1 <==> forall j1, j2 :: 0 <= j1 < j2 < |cols| ==> !(HasRole(cols[j1], role) && HasRole(cols[j2], role))
  {
    if |names| <= 1 {
      assert forall j :: 0 <= j < |cols| && HasRole(cols[j], role) ==> j == idx[0];
    } else {
      assert HasRole(cols[idx[0]], role) && HasRole(cols[idx[1]], role);
    }
  }

  /** The second selected name is that of the second column with the role. */
  lemma SelectionSecond(cols: seq<Column>, role: Role, idx: seq<int>, names: seq<string>)
    requires Selects(cols, role, idx, names)
    requires |names| > 1
    ensures SecondWith(cols, role, names[1])
  {
    var j1, j2 := idx[0], idx[1];
    assert HasRole(cols[j1], role) && HasRole(cols[j2], role) && cols[j2].name == names[1];
    forall i | 0 <= i < |cols| && HasRole(cols[i], role)
      ensures i == j1 || j2 <= i
    {
      var k :| 0 <= k < |idx| && idx[k] == i;
      assert k == 0 || k == 1 || idx[1] < idx[k];
    }
    assert forall i :: 0 <= i < j2 && i != j1 ==> !HasRole(cols[i], role);
  }

  /** The default selections read off an in-order selection: its first entry, or its second for the key. */
  lemma SelectionHeads(cols: seq<Column>, role: Role, idx: seq<int>, names: seq<string>)
    requires Selects(cols, role, idx, names)
    ensures |names| == 0 <==> forall j :: 0 <= j < |cols| ==> !HasRole(cols[j], role)
    ensures |names| > 0 ==> FirstWith(cols, role, names[0])
    ensures |names| <= 1 <==> forall j1, j2 :: 0 <= j1 < j2 < |cols| ==> !(HasRole(cols[j1], role) && HasRole(cols[j2], role))
    ensures |names| > 1 ==> SecondWith(cols, role, names[1])
  {
    SelectionEmpty(cols, role, idx, names);
    SelectionAtMostOne(cols, role, idx, names);
    if |names| > 0 {
      SelectionFirst(cols, role, idx, names);
    }
    if |names| > 1 {
      SelectionSecond(cols, role, idx, names);
    }
  }

  /**
   * After a successful load the x default is the first categorical column of
   * the current table, when it has one.
   */
  lemma DefaultX(d: Dataset)
    ensures var o, cols := Respond(Some(d)), ColumnsOf(FirstTable(Some(d)));
      && (o.xValue.None? <==> forall j :: 0 <= j < |cols| ==> !HasRole(cols[j], Categorical))
      && (o.xValue.Some? ==> FirstWith(cols, Categorical, o.xValue.value))
  {
    var t := FirstTable(Some(d));
    var cat := Classify(t).categorical;
    assert Respond(Some(d)).xValue == if |cat| > 0 then Some(cat[0]) else None;
    if t.Some? {
      var ci, ni := ClassifySelects(t.value);
      assert ColumnsOf(t) == t.value.columns;
      SelectionHeads(t.value.columns, Categorical, ci, cat);
    }
  }

  /**
   * After a successful load the y default is the first numerical column of
   * the current table and the colour key its second one, each only when
   * there is one.
   */
  lemma DefaultYAndKey(d: Dataset)
    ensures var o, cols := Respond(Some(d)), ColumnsOf(FirstTable(Some(d)));
      && (o.yValue.None? <==> forall j :: 0 <= j < |cols| ==> !HasRole(cols[j], Numerical))
      && (o.yValue.Some? ==> FirstWith(cols, Numerical, o.yValue.value))
      && (o.keyValue.None? <==>
            forall j1, j2 :: 0 <= j1 < j2 < |cols| ==> !(HasRole(cols[j1], Numerical) && HasRole(cols[j2], Numerical)))
      && (o.keyValue.Some? ==> SecondWith(cols, Numerical, o.keyValue.value))
  {
    var t := FirstTable(Some(d));
    var num := Classify(t).numerical;
    assert Respond(Some(d)).yValue == if |num| > 0 then Some(num[0]) else None;
    assert Respond(Some(d)).keyValue == if |num| > 1 then Some(num[1]) else None;
    if t.Some? {
      var ci, ni := ClassifySelects(t.value);
      assert ColumnsOf(t) == t.value.columns;
      SelectionHeads(t.value.columns, Numerical, ni, num);
    }
  }

  /**
   * `dataset-info` reports the current table's rows and columns and the sizes
   * of the two classification lists, which together never exceed the columns.
   */
  lemma DatasetInfoCounts(d: Dataset)
    ensures var o, t := Respond(Some(d)), FirstTable(Some(d));
      && o.info.Some?
      && o.info.value.rows == (if t.Some? then t.value.rows else 0)
      && o.info.value.columns == |ColumnsOf(t)|
      && o.info.value.catCols == |Classify(t).categorical|
      && o.info.value.numCols == |Classify(t).numerical|
      && o.info.value.catCols + o.info.value.numCols <= o.info.value.columns
  {
  }

  /** An empty dataset (a ZIP without tables) is still a success: 0 rows, 0 columns, nothing selected. */
  lemma EmptyDatasetReply()
    ensures Respond(Some([])) ==
      LoadOutput(LoadSucceeded(0, 0), Some(DatasetInfo(0, 0, 0, 0)), [], None, [], None, [], None)
  {
  }

  // ---------------------------------------------------------------------------
  // update_graph

  const SelectColumnsTitle := "Please select valid X and Y columns"
  const NoDataTitle := "No data available"

  /** A figure, reduced to what the callback decides: title, template, chart kind, axes and colour key. */
  datatype Figure = Figure(title: string, template: string, kind: Option<string>,
                           xAxis: Option<string>, yAxis: Option<string>, color: Option<string>)

  /** A chart type outside the three kinds leaves `fig` unbound, and the callback raises. */
  datatype GraphError = FigureUnbound

  /** An empty figure that only carries a message as its title. */
  function Blank(title: string, theme: string): Figure
  {
    Figure(title, theme, None, None, None, None)
  }

  /** `update_graph`, reading the service's current table. */
  function UpdateGraph(service: DataService, xCol: Option<string>, yCol: Option<string>, keyCol: Option<string>,
                       chartType: string, theme: string): (r: Result<Figure, GraphError>)
    reads service
    ensures !Truthy(xCol) || !Truthy(yCol) ==> r == Success(Blank(SelectColumnsTitle, theme))
    ensures r.Failure? <==> Truthy(xCol) && Truthy(yCol) && service.GetDataframe().Some? && !IsChartKind(chartType)
    ensures r.Success? && r.value.kind.Some? ==>
      && service.GetDataframe().Some?
      && r.value.kind == Some(chartType)
      && r.value.xAxis == xCol && r.value.yAxis == yCol
      && r.value.color == (if Truthy(keyCol) then keyCol else None)
  {
    if !Truthy(xCol) || !Truthy(yCol) then Success(Blank(SelectColumnsTitle, theme))
    else if service.GetDataframe().None? then Success(Blank(NoDataTitle, theme))
    else
      var x, y := xCol.value, yCol.value;
      var color := if Truthy(keyCol) then keyCol else None;
      if chartType == Scatter then Success(Figure(y + " vs " + x, theme, Some(Scatter), xCol, yCol, color))
      else if chartType == Bar then Success(Figure(y + " by " + x, theme, Some(Bar), xCol, yCol, color))
      else if chartType == Line then Success(Figure(y + " Trend by " + x, theme, Some(Line), xCol, yCol, color))
      else Failure(FigureUnbound)
  }

  /**
   * With both axes chosen: no current table gives the "No data available"
   * figure; otherwise the title is `{y} vs {x}`, `{y} by {x}` or
   * `{y} Trend by {x}` for scatter, bar and line.
   */
  lemma GraphTitles(service: DataService, x: string, y: string, keyCol: Option<string>, chartType: string, theme: string)
    requires x != "" && y != ""
    ensures var r := UpdateGraph(service, Some(x), Some(y), keyCol, chartType, theme);
      && (service.GetDataframe().None? ==> r == Success(Blank(NoDataTitle, theme)))
      && (service.GetDataframe().Some? && IsChartKind(chartType) ==>
            r.Success? && r.value.title ==
              if chartType == Scatter then y + " vs " + x
              else if chartType == Bar then y + " by " + x
              else y + " Trend by " + x)
  {
  }

  /** Fed from the chart-type store, the graph callback never reaches the unbound-figure error. */
  lemma GraphNeverUnbound(service: DataService, xCol: Option<string>, yCol: Option<string>, keyCol: Option<string>,
                          triggers: seq<Option<string>>, theme: string)
    ensures UpdateGraph(service, xCol, yCol, keyCol, StoredChartType(triggers), theme).Success?
  {
    StoreHoldsChartKind(triggers);
  }
}
