# Dynamic data visualization dashboard — a Dafny model of its decision logic

The dashboard loads a tabular dataset from S3 object storage, sorts its columns
into categorical and numerical ones, and draws a scatter, bar or line chart of
two chosen columns. Two Python files carry the logic this project models:

- `data_service.py`, class `DataService`: one mutable slot, `data`, holding the
  current dataset (a dict from a name to a pandas DataFrame). `load_dataset_from_s3`
  fetches an object and dispatches on the key's suffix: `.csv` and `.xlsx` give one
  table under a fixed label, `.zip` gives one table per `.csv`/`.xlsx` member in
  listing order, anything else or any exception gives `None` and leaves `data`
  alone. `get_dataframe` returns the first table and `classify_columns` splits
  its columns into categorical (object or datetime dtype) and numerical (numeric
  dtype, lower-cased name containing neither `id` nor `index`).
- `app.py`, the Dash callbacks: `toggle_chart_type` (a three-state chart-kind
  switch driven by the button that fired), `load_data` (the reply after a load,
  with default axis and colour-key selections and the `dataset-info` counts) and
  `update_graph` (the guard against missing axes, the "No data available" case
  and the title per chart kind).

Modules, one per concern:

- `Wrappers` (`wrappers.dfy`): `Option` for Python's `None` and for raised
  exceptions, `Result` for a callback that raises.
- `Strings` (`strings.dfy`): `str.endswith`, substring `in`, `str.lower`.
- `Tables` (`tables.dfy`): columns with a four-way dtype (`Object`, `Datetime`,
  `Number`, `Other`), tables (columns and row count), and the dataset as an
  insertion-ordered dict (`seq<Entry>`) with dict assignment `Put`.
- `DataAccess` (`data_access.dfy`): the external collaborators as the datatype
  `Backend` (S3 fetch, `read_csv`, `read_excel`, `zipfile.ZipFile`, each of which
  may fail), the loader's specification `Load` with the ZIP loop's
  specification `ZipFold`, the class `DataService` whose `LoadDatasetFromS3`
  method updates `data` and runs the ZIP loop through `ReadArchive`, and the
  classification. The class's `GetDataframe` and `ClassifyColumns` apply
  `FirstTable` and `Classify` to `data`.
- `Dashboard` (`dashboard.dfy`): the three callbacks and the startup load.

## Model

| member | source | states |
|---|---|---|
| `DataAccess.DataService.constructor` | data_service.py:10-16 | a new service holds no dataset |
| `DataAccess.DataService.LoadDatasetFromS3` | data_service.py:18-68 | returns what `Load` gives; on success `data` becomes that dataset, on failure (unsupported suffix, fetch, archive or parse error) `data` is exactly as before |
| `DataAccess.Load` | data_service.py:18-68 | a successful load has fetched the object, has a `.csv`, `.xlsx` or `.zip` key, and never lists a key twice; a `.zip` key whose archive fails to open gives `None` |
| `DataAccess.LoadSingleCsv` | data_service.py:23-28 | a `.csv` key succeeds exactly when the fetch and `read_csv` succeed, and then the dataset is exactly one entry, `"Single CSV File"`, holding the parsed table |
| `DataAccess.LoadSingleExcel` | data_service.py:30-35 | a `.xlsx` key succeeds exactly when the fetch and `read_excel` succeed, and then the dataset is exactly one entry, `"Single Excel File"` |
| `Strings.SuffixesExclusive` | data_service.py:23-37 | no key ends in two of `.csv`, `.xlsx`, `.zip`, so the order of the suffix tests is immaterial |
| `DataAccess.LoadZip` | data_service.py:37-60 | for an opened archive the load fails exactly when some `.csv`/`.xlsx` member fails to parse; otherwise the keys are exactly those members' names, once each, in first-listing order, and each table is the one parsed from that member |
| `DataAccess.LoadZipWithoutTables` | data_service.py:37-60 | an archive with no `.csv`/`.xlsx` member still loads, as the empty dataset |
| `DataAccess.ReadArchive` | data_service.py:39-59 | the loop over `namelist()` returns what the fold `ZipFold` over the listing gives, including `None` as soon as one read fails |
| `DataAccess.ZipFoldFails` | data_service.py:45-56 | the ZIP loop fails if and only if some member ending in `.csv` or `.xlsx` fails to parse |
| `DataAccess.ZipFoldKeys` | data_service.py:45-56 | a successful ZIP loop's keys are exactly the table members' names, without repeats, ordered by first appearance in the listing; other members are skipped |
| `DataAccess.ZipFoldValues` | data_service.py:45-56 | each table of a successful ZIP loop is the parse of the member of that name |
| `DataAccess.ZipFoldSkipsAll` | data_service.py:39-59 | a listing without table members leaves the local dict empty |
| `DataAccess.Open` | data_service.py:48-54 | `z.open(name)` reads the last member listed under `name` |
| `Tables.Put` | data_service.py:49-55 | dict assignment: an existing key keeps its position and gets the new table, a new key is appended; every other key's table is unchanged |
| `DataAccess.FirstTable` | data_service.py:74-78 | no table exactly when there is no dataset or it is empty; otherwise the table of the first-inserted key (`DataService.GetDataframe` applies it to `data`) |
| `DataAccess.Classify` | data_service.py:80-94 | no table gives `([], [])`; otherwise the two lists together are no longer than the column list (`DataService.ClassifyColumns` applies it to the current table) |
| `DataAccess.ClassifySelects` | data_service.py:86-92 | the categorical list is exactly the object/datetime columns and the numerical list exactly the numeric, non-identifier-like columns, each in column order, at disjoint column positions |
| `DataAccess.NamesWithSelects` | data_service.py:86-92 | filtering by role selects, in increasing column order, every column with that role and nothing else |
| `DataAccess.RolesCount` | data_service.py:86-92 | the categorical and numerical lists together are no longer than the column list |
| `DataAccess.IdLikeNames` | data_service.py:88-92 | numeric `user_id` and `Index` are not numerical, numeric `temperature` is |
| `DataAccess.ClassifyCityTemp` | data_service.py:86-94 | columns `id`, `city`, `temp` (numeric, text, numeric) classify as `(["city"], ["temp"])` |
| `DataAccess.ClassifyDateCategoryValueId` | data_service.py:86-94 | columns `date`, `category`, `value`, `id` classify as `(["date", "category"], ["value"])` |
| `Dashboard.Startup` | app.py:15-22 | the startup service holds whatever loading the default key from `ieee-dataport` gives |
| `Dashboard.StartupLoadsExcel` | app.py:18-22 | the default key ends in `.xlsx`, so startup yields the single Excel entry or nothing |
| `Dashboard.ButtonId` | app.py:411 | `split('.')[0]`: the longest prefix of the property id without a `.` |
| `Dashboard.ButtonIdOfPropId` | app.py:411 | a component id without `.` is recovered exactly from `<id>.<property>` |
| `Dashboard.ToggleChartType` | app.py:405-420 | every button's outline is off exactly for the returned chart kind; a valid stored kind stays valid; a result outside the three kinds is the stored value kept |
| `Dashboard.ToggleChoosesKind` | app.py:407-420 | no trigger gives `scatter`; the scatter, bar and line buttons give `scatter`, `bar`, `line`; any other trigger keeps the stored kind |
| `Dashboard.StoreHoldsChartKind` | app.py:341 | from its initial `scatter`, the chart-type store holds one of the three kinds after any run of toggles |
| `Dashboard.Respond` | app.py:370-392 | a failed load empties every option list and clears every value; a success carries the dataset info and reports its row and column counts, offers the categorical names for x and the numerical names for y and for the colour key |
| `Dashboard.LoadData` | app.py:364-392 | no click gives no update and no load; otherwise the service loads and the reply is `Respond` of the load's result |
| `Dashboard.DefaultX` | app.py:380 | the x default is the first categorical column of the current table, and absent exactly when there is none |
| `Dashboard.DefaultYAndKey` | app.py:381-382 | the y default is the first numerical column; the key default is the second numerical column, present exactly when there are at least two |
| `Dashboard.DatasetInfoCounts` | app.py:384-390 | `dataset-info` gives the current table's rows and columns and the sizes of the two lists, which sum to at most the column count |
| `Dashboard.EmptyDatasetReply` | app.py:370-392 | an empty dataset is a success with 0 rows, 0 columns, empty options and no defaults |
| `Dashboard.UpdateGraph` | app.py:431-491 | a missing or empty x or y gives the "Please select valid X and Y columns" figure whatever the data; the callback raises exactly when both axes are set, there is a table, and the chart type is not one of the three; a chart carries the chosen kind, both axes, and the colour key when it is set, none otherwise |
| `Dashboard.GraphTitles` | app.py:438-475 | with both axes set, no table gives "No data available"; otherwise the title is `{y} vs {x}`, `{y} by {x}` or `{y} Trend by {x}` |
| `Dashboard.GraphNeverUnbound` | app.py:446-476 | fed from the chart-type store, the graph callback never raises |

## Left out

- The boto3 client, its credentials and the `.env` loading (data_service.py:11-15, app.py:9-15): the S3 fetch is the `fetch` field of `Backend`, which may fail.
- pandas `read_csv`/`read_excel` type inference and `zipfile` decompression: they are the `readCsv`, `readExcel` and `openZip` fields of `Backend`. Decompression errors are folded into the reader failing on the member's bytes.
- DataFrame contents: a table is its typed column list and its row count. Dtypes beyond object, datetime, numeric and "other" are merged into `Other`. Non-string column names, on which `col.lower()` would raise, are not modelled.
- IdLike: lowers ASCII letters only; Python's `str.lower` also maps non-ASCII letters, which this model leaves unchanged.
- `get_dataset` (data_service.py:70-72) returns the field itself; the model reads `data` directly. The `isinstance(self.data, dict)` test in `get_dataframe` always holds here, because `data` is always a dict or `None`.
- `print` logging and the unused `scipy`, `h5py` and `numpy` imports.
- Dash layout, styling, `serve_layout` and `app.run`; Plotly figure construction beyond the title, template, chart kind, axes and colour key; the dropdown option records, which carry the column name as both label and value and are modelled as the names.
- `toggle_chart_type`'s three click counts, which it never reads; `load_data`'s `bucket_name`/`prefix` being `None`, which makes the fetch raise (covered by a failing fetch).
- Dash callback scheduling and the unsynchronised module-level `data_service` shared between callbacks.
- There is no current table after loading an empty dataset (a ZIP without table members), as well as before the first successful load; only the first table of a ZIP dataset is ever classified.
