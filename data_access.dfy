/**
 * The data access layer (`DataService` in data_service.py): one mutable slot
 * holding the current dataset, replaced by a successful load from object
 * storage, and the column classification derived from its first table.
 *
 * The storage client, the CSV and Excel readers and the ZIP reader are
 * collaborators the service calls into; they are parameters here, each of
 * which may fail (`None` stands for the exception it would raise).
 */
module DataAccess {
  import opened Wrappers
  import opened Strings
  import opened Tables

  /** The fixed keys of a single-file load. */
  const CsvLabel := "Single CSV File"
  const ExcelLabel := "Single Excel File"

  /** One member of a ZIP archive, in archive-listing order. */
  datatype Member = Member(name: string, content: Bytes)

  type Archive = seq<Member>

  /** The external collaborators: `s3.get_object(...)['Body'].read()`, `pd.read_csv`, `pd.read_excel` and `zipfile.ZipFile`. */
  datatype Backend = Backend(
    fetch: (string, string) -> Option<Bytes>,
    readCsv: Bytes -> Option<Table>,
    readExcel: Bytes -> Option<Table>,
    openZip: Bytes -> Option<Archive>)

  /** `z.namelist()`. */
  function Namelist(z: Archive): seq<string>
  {
    seq(|z|, i requires 0 <= i < |z| => z[i].name)
  }

  /** The bytes `z.open(name)` reads: those of the LAST member listed under that name. */
  function Open(z: Archive, name: string): (b: Bytes)
    ensures name in Namelist(z) ==>
      exists i :: 0 <= i < |z| && z[i].name == name && z[i].content == b &&
        forall j :: i < j < |z| ==> z[j].name != name
  {
    if z == [] then []
    else if z[|z| - 1].name == name then
      z[|z| - 1].content
    else
      var init := z[..|z| - 1];
      assert Namelist(z) == Namelist(init) + [z[|z| - 1].name];
      Open(init, name)
  }

  /** An archive member the loader reads: its name ends in `.csv` or `.xlsx`. */
  predicate IsTableName(name: string)
  {
    EndsWith(name, ".csv") || EndsWith(name, ".xlsx")
  }

  /** The table read from a member: `read_csv` for `.csv`, otherwise `read_excel`. */
  function ParseMember(env: Backend, z: Archive, name: string): Option<Table>
    requires IsTableName(name)
  {
    if EndsWith(name, ".csv") then env.readCsv(Open(z, name)) else env.readExcel(Open(z, name))
  }

  /**
   * The local `dataframes` dict after the ZIP loop has gone through `names`,
   * or `None` once a read raised.
   */
  function ZipFold(env: Backend, z: Archive, names: seq<string>): Option<Dataset>
    decreases |names|
  {
    if names == [] then Some([])
    else
      var name := names[|names| - 1];
      match ZipFold(env, z, names[..|names| - 1])
      case None => None
      case Some(acc) =>
        if !IsTableName(name) then Some(acc)
        else
          match ParseMember(env, z, name)
          case None => None
          case Some(t) => Some(Put(acc, name, t))
  }

  /** `load_dataset_from_s3(bucket, key)`: the dataset it returns, or `None`. */
  function Load(env: Backend, bucket: string, key: string): (r: Option<Dataset>)
    ensures r.Some? ==> env.fetch(bucket, key).Some?
    ensures r.Some? ==> EndsWith(key, ".csv") || EndsWith(key, ".xlsx") || EndsWith(key, ".zip")
    ensures r.Some? ==> NoDup(Keys(r.value))
    ensures EndsWith(key, ".zip") && env.fetch(bucket, key).Some? && env.openZip(env.fetch(bucket, key).value).None? ==> r.None?
  {
    match env.fetch(bucket, key)
    case None => None
    case Some(body) =>
      if EndsWith(key, ".csv") then
        match env.readCsv(body)
        case None => None
        case Some(t) => Some([Entry(CsvLabel, t)])
      else if EndsWith(key, ".xlsx") then
        match env.readExcel(body)
        case None => None
        case Some(t) => Some([Entry(ExcelLabel, t)])
      else if EndsWith(key, ".zip") then
        SuffixesExclusive(key);
        match env.openZip(body)
        case None => None
        case Some(z) =>
          var r := ZipFold(env, z, Namelist(z));
          if r.Some? then ZipFoldKeys(env, z, Namelist(z)); r else r
      else None
  }

  /**
   * `keys` lists each name of `names` that ends in `.csv` or `.xlsx` exactly
   * once, and in the order of their first appearance in `names`.
   */
  ghost predicate TableNamesInOrder(keys: seq<string>, names: seq<string>)
  {
    && NoDup(keys)
    && (forall k :: k in keys <==> k in names && IsTableName(k))
    && (forall p, q :: 0 <= p < q < |keys| ==> FirstIndex(names, keys[p]) < FirstIndex(names, keys[q]))
  }

  /** The ZIP loop fails exactly when some member it reads fails to parse. */
  lemma {:induction false} ZipFoldFails(env: Backend, z: Archive, names: seq<string>)
    ensures ZipFold(env, z, names).None? <==>
      exists n :: n in names && IsTableName(n) && ParseMember(env, z, n).None?
  {
    if names != [] {
      var init, last := names[..|names| - 1], names[|names| - 1];
      assert names == init + [last];
      ZipFoldFails(env, z, init);
    }
  }

  /** A successful ZIP loop keys its dict by the table members' names, once each, in listing order. */
  lemma {:induction false} ZipFoldKeys(env: Backend, z: Archive, names: seq<string>)
    requires ZipFold(env, z, names).Some?
    ensures TableNamesInOrder(Keys(ZipFold(env, z, names).value), names)
  {
    if names != [] {
      var init, last := names[..|names| - 1], names[|names| - 1];
      assert names == init + [last];
      ZipFoldKeys(env, z, init);
      var acc := ZipFold(env, z, init).value;
      var ks, ks' := Keys(acc), Keys(ZipFold(env, z, names).value);
      forall k | k in init
        ensures FirstIndex(names, k) == FirstIndex(init, k)
      {
        FirstIndexAppend(init, last, k);
      }
      if IsTableName(last) && last !in ks {
        assert ks' == ks + [last];
        FirstIndexAppend(init, last, last);
        forall p, q | 0 <= p < q < |ks'|
          ensures FirstIndex(names, ks'[p]) < FirstIndex(names, ks'[q])
        {
          assert ks'[p] in init;
          if q == |ks| {
            assert FirstIndex(init, ks'[p]) < |init|;
          } else {
            assert ks'[q] in init;
          }
        }
      } else {
        assert ks' == ks;
        forall p, q | 0 <= p < q < |ks'|
          ensures FirstIndex(names, ks'[p]) < FirstIndex(names, ks'[q])
        {
          assert ks'[p] in init && ks'[q] in init;
        }
      }
    }
  }

  /** Each table of a successful ZIP loop is the one read from the member of that name. */
  lemma {:induction false} ZipFoldValues(env: Backend, z: Archive, names: seq<string>)
    requires ZipFold(env, z, names).Some?
    ensures forall k :: k in Keys(ZipFold(env, z, names).value) ==>
      IsTableName(k) && Lookup(ZipFold(env, z, names).value, k) == ParseMember(env, z, k)
  {
    if names != [] {
      var init := names[..|names| - 1];
      ZipFoldValues(env, z, init);
      ZipFoldKeys(env, z, names);
    }
  }

  /** A `.csv` key loads one table under the CSV label, or fails when fetching or reading fails. */
  lemma LoadSingleCsv(env: Backend, bucket: string, key: string)
    requires EndsWith(key, ".csv")
    ensures Load(env, bucket, key).Some? <==>
      env.fetch(bucket, key).Some? && env.readCsv(env.fetch(bucket, key).value).Some?
    ensures Load(env, bucket, key).Some? ==>
      Load(env, bucket, key) == Some([Entry(CsvLabel, env.readCsv(env.fetch(bucket, key).value).value)])
  {
  }

  /** A `.xlsx` key loads one table under the Excel label, or fails when fetching or reading fails. */
  lemma LoadSingleExcel(env: Backend, bucket: string, key: string)
    requires EndsWith(key, ".xlsx")
    ensures Load(env, bucket, key).Some? <==>
      env.fetch(bucket, key).Some? && env.readExcel(env.fetch(bucket, key).value).Some?
    ensures Load(env, bucket, key).Some? ==>
      Load(env, bucket, key) == Some([Entry(ExcelLabel, env.readExcel(env.fetch(bucket, key).value).value)])
  {
    SuffixesExclusive(key);
  }

  /**
   * A `.zip` key whose archive opens loads one table per `.csv`/`.xlsx`
   * member, keyed by member name in listing order and read from that member,
   * and fails exactly when one of those reads fails.
   */
  lemma LoadZip(env: Backend, bucket: string, key: string, body: Bytes, z: Archive)
    requires EndsWith(key, ".zip")
    requires env.fetch(bucket, key) == Some(body) && env.openZip(body) == Some(z)
    ensures Load(env, bucket, key).None? <==>
      exists n :: n in Namelist(z) && IsTableName(n) && ParseMember(env, z, n).None?
    ensures Load(env, bucket, key).Some? ==>
      var d := Load(env, bucket, key).value;
      && TableNamesInOrder(Keys(d), Namelist(z))
      && forall k :: k in Keys(d) ==> IsTableName(k) && Lookup(d, k) == ParseMember(env, z, k)
  {
    SuffixesExclusive(key);
    assert Load(env, bucket, key) == ZipFold(env, z, Namelist(z));
    ZipFoldFails(env, z, Namelist(z));
    if Load(env, bucket, key).Some? {
      ZipFoldKeys(env, z, Namelist(z));
      ZipFoldValues(env, z, Namelist(z));
    }
  }

  /** A `.zip` archive without any `.csv` or `.xlsx` member still loads, as an empty dataset. */
  lemma LoadZipWithoutTables(env: Backend, bucket: string, key: string, body: Bytes, z: Archive)
    requires EndsWith(key, ".zip")
    requires env.fetch(bucket, key) == Some(body) && env.openZip(body) == Some(z)
    requires forall n :: n in Namelist(z) ==> !IsTableName(n)
    ensures Load(env, bucket, key) == Some([])
  {
    SuffixesExclusive(key);
    ZipFoldSkipsAll(env, z, Namelist(z));
  }

  /** A listing with no `.csv` or `.xlsx` name leaves the dict empty. */
  lemma {:induction false} ZipFoldSkipsAll(env: Backend, z: Archive, names: seq<string>)
    requires forall n :: n in names ==> !IsTableName(n)
    ensures ZipFold(env, z, names) == Some([])
  {
    if names != [] {
      var init := names[..|names| - 1];
      assert forall n :: n in init ==> n in names;
      ZipFoldSkipsAll(env, z, init);
    }
  }

  /**
   * The current table (`get_dataframe`): the first-inserted table of the
   * current dataset, and nothing when there is no dataset or it is empty.
   */
  function FirstTable(data: Option<Dataset>): (r: Option<Table>)
    ensures r.None? <==> data.None? || data.value == []
    ensures r.Some? ==> r == Lookup(data.value, Keys(data.value)[0])
  {
    if data.Some? && data.value != [] then Some(data.value[0].table) else None
  }

  /** The two groups `classify_columns` sorts columns into. */
  datatype Role = Categorical | Numerical

  /** An identifier-like name: its lower-cased form contains `id` or `index`. */
  predicate IdLike(name: string)
  {
    Contains(Lower(name), "id") || Contains(Lower(name), "index")
  }

  /**
   * Categorical: object or datetime dtype. Numerical: numeric dtype and a
   * name that is not identifier-like.
   */
  predicate HasRole(c: Column, role: Role)
  {
    match role
    case Categorical => c.dtype == Object || c.dtype == Datetime
    case Numerical => c.dtype == Number && !IdLike(c.name)
  }

  /** The names of the columns with the given role, in column order. */
  function NamesWith(cols: seq<Column>, role: Role): seq<string>
    decreases |cols|
  {
    if cols == [] then []
    else
      var last := cols[|cols| - 1];
      NamesWith(cols[..|cols| - 1], role) + if HasRole(last, role) then [last.name] else []
  }

  /**
   * `names` lists, in column order, the names of exactly the columns that have
   * `role`: `idx` gives their positions, increasing, and misses none.
   */
  ghost predicate Selects(cols: seq<Column>, role: Role, idx: seq<int>, names: seq<string>)
  {
    && |idx| == |names|
    && (forall k :: 0 <= k < |idx| ==> 0 <= idx[k] < |cols| && HasRole(cols[idx[k]], role) && names[k] == cols[idx[k]].name)
    && (forall k, l :: 0 <= k < l < |idx| ==> idx[k] < idx[l])
    && (forall j :: 0 <= j < |cols| && HasRole(cols[j], role) ==> j in idx)
  }

  /** `NamesWith` is the in-order selection of the columns with a role. */
  lemma {:induction false} NamesWithSelects(cols: seq<Column>, role: Role) returns (idx: seq<int>)
    ensures Selects(cols, role, idx, NamesWith(cols, role))
  {
    if cols == [] {
      idx := [];
    } else {
      var init := cols[..|cols| - 1];
      idx := NamesWithSelects(init, role);
      if HasRole(cols[|cols| - 1], role) {
        idx := idx + [|cols| - 1];
      }
    }
  }

  /** The result of `classify_columns`. */
  datatype Classification = Classification(categorical: seq<string>, numerical: seq<string>)

  /** `classify_columns` on the current table, `([], [])` when there is none. */
  function Classify(t: Option<Table>): (c: Classification)
    ensures t.None? ==> c == Classification([], [])
    ensures t.Some? ==> |c.categorical| + |c.numerical| <= |t.value.columns|
  {
    match t
    case None => Classification([], [])
    case Some(table) =>
      RolesCount(table.columns);
      Classification(NamesWith(table.columns, Categorical), NamesWith(table.columns, Numerical))
  }

  /** No column is both categorical and numerical, so the two lists together are no longer than the columns. */
  lemma {:induction false} RolesCount(cols: seq<Column>)
    ensures |NamesWith(cols, Categorical)| + |NamesWith(cols, Numerical)| <= |cols|
  {
    if cols != [] {
      RolesCount(cols[..|cols| - 1]);
    }
  }

  /**
   * The categorical and the numerical names are disjoint in-order selections
   * of the table's columns: exactly the object/datetime columns, and exactly
   * the numeric columns whose lower-cased name contains neither `id` nor `index`.
   */
  lemma ClassifySelects(t: Table) returns (ci: seq<int>, ni: seq<int>)
    ensures Selects(t.columns, Categorical, ci, Classify(Some(t)).categorical)
    ensures Selects(t.columns, Numerical, ni, Classify(Some(t)).numerical)
    ensures forall k, l :: 0 <= k < |ci| && 0 <= l < |ni| ==> ci[k] != ni[l]
  {
    ci := NamesWithSelects(t.columns, Categorical);
    ni := NamesWithSelects(t.columns, Numerical);
  }

  /**
   * The ZIP branch's loop over `z.namelist()`: fills a local dict with the
   * `.csv` and `.xlsx` members and skips the rest; a read that raises ends the
   * loop with `None`, so the partial dict is never published.
   */
  method ReadArchive(env: Backend, z: Archive) returns (r: Option<Dataset>)
    ensures r == ZipFold(env, z, Namelist(z))
  {
    var fileList := Namelist(z);
    var dataframes: Dataset := [];
    var i := 0;
    while i < |fileList|
      invariant 0 <= i <= |fileList|
      invariant ZipFold(env, z, fileList[..i]) == Some(dataframes)
    {
      var fileName := fileList[i];
      assert fileList[..i + 1][..i] == fileList[..i];
      if EndsWith(fileName, ".csv") {
        var df := env.readCsv(Open(z, fileName));
        if df.None? {
          assert fileName in fileList && ParseMember(env, z, fileName).None?;
          ZipFoldFails(env, z, fileList);
          return None;
        }
        dataframes := Put(dataframes, fileName, df.value);
      } else if EndsWith(fileName, ".xlsx") {
        var df := env.readExcel(Open(z, fileName));
        if df.None? {
          assert fileName in fileList && ParseMember(env, z, fileName).None?;
          ZipFoldFails(env, z, fileList);
          return None;
        }
        dataframes := Put(dataframes, fileName, df.value);
      }
      i := i + 1;
    }
    assert fileList[..i] == fileList;
    return Some(dataframes);
  }

  /**
   * Identifier-like numeric columns are not offered as numerical, whatever
   * their case: `user_id` and `Index` are left out, `temperature` is kept.
   */
  lemma IdLikeNames()
    ensures !HasRole(Column("user_id", Number), Numerical)
    ensures !HasRole(Column("Index", Number), Numerical)
    ensures HasRole(Column("temperature", Number), Numerical)
  {
    assert OccursAt(Lower("user_id"), "id", 5);
    assert OccursAt(Lower("Index"), "index", 0);
    assert Lower("temperature") == "temperature";
    FirstCharAbsent("temperature", "id");
    FirstCharAbsent("temperature", "index");
  }

  /** The CSV `id,city,temp` with two rows classifies as `(["city"], ["temp"])`. */
  lemma ClassifyCityTemp()
    ensures Classify(Some(Table([Column("id", Number), Column("city", Object), Column("temp", Number)], 2)))
      == Classification(["city"], ["temp"])
  {
    assert OccursAt(Lower("id"), "id", 0);
    assert Lower("temp") == "temp";
    FirstCharAbsent("temp", "id");
    FirstCharAbsent("temp", "index");
    var cols := [Column("id", Number), Column("city", Object), Column("temp", Number)];
    assert cols[..2] == [Column("id", Number), Column("city", Object)];
    assert cols[..2][..1] == [Column("id", Number)];
    assert [Column("id", Number)][..0] == [];
    assert NamesWith([Column("id", Number)], Numerical) == [];
    assert NamesWith([Column("id", Number)], Categorical) == [];
    assert NamesWith(cols[..2], Numerical) == [];
    assert NamesWith(cols[..2], Categorical) == ["city"];
  }

  /** Columns `date` (datetime), `category` (text), `value` and `id` (numeric) classify as `(["date", "category"], ["value"])`. */
  lemma ClassifyDateCategoryValueId()
    ensures Classify(Some(Table([Column("date", Datetime), Column("category", Object), Column("value", Number), Column("id", Number)], 0)))
      == Classification(["date", "category"], ["value"])
  {
    assert OccursAt(Lower("id"), "id", 0);
    assert Lower("value") == "value";
    FirstCharAbsent("value", "id");
    FirstCharAbsent("value", "index");
    var cols := [Column("date", Datetime), Column("category", Object), Column("value", Number), Column("id", Number)];
    assert cols[..3] == [Column("date", Datetime), Column("category", Object), Column("value", Number)];
    assert cols[..3][..2] == [Column("date", Datetime), Column("category", Object)];
    assert cols[..3][..2][..1] == [Column("date", Datetime)];
    assert [Column("date", Datetime)][..0] == [];
    assert NamesWith([Column("date", Datetime)], Categorical) == ["date"];
    assert NamesWith([Column("date", Datetime)], Numerical) == [];
    assert NamesWith(cols[..3][..2], Categorical) == ["date", "category"];
    assert NamesWith(cols[..3][..2], Numerical) == [];
    assert NamesWith(cols[..3], Numerical) == ["value"];
  }

  /** The service object: the S3 client it owns is the `Backend` its load is given. */
  class DataService {
    /** `self.data`: the current dataset, `None` before the first successful load. */
    var data: Option<Dataset>

    constructor ()
      ensures data == None
    {
      data := None;
    }

    /**
     * `load_dataset_from_s3`: a successful load replaces the current dataset
     * and returns it; a failed one returns `None` and keeps it.
     */
    method LoadDatasetFromS3(env: Backend, bucketName: string, prefix: string) returns (r: Option<Dataset>)
      modifies this
      ensures r == Load(env, bucketName, prefix)
      ensures data == if r.Some? then r else old(data)
    {
      var response := env.fetch(bucketName, prefix);
      if response.None? {
        return None;
      }
      var body := response.value;
      if EndsWith(prefix, ".csv") {
        var df := env.readCsv(body);
        if df.None? {
          return None;
        }
        data := Some([Entry(CsvLabel, df.value)]);
        return data;
      } else if EndsWith(prefix, ".xlsx") {
        var df := env.readExcel(body);
        if df.None? {
          return None;
        }
        data := Some([Entry(ExcelLabel, df.value)]);
        return data;
      } else if EndsWith(prefix, ".zip") {
        var archive := env.openZip(body);
        if archive.None? {
          return None;
        }
        var dataframes := ReadArchive(env, archive.value);
        if dataframes.None? {
          return None;
        }
        data := dataframes;
        return data;
      } else {
        return None;
      }
    }

    /** `get_dataframe`. */
    function GetDataframe(): Option<Table>
      reads this
    {
      FirstTable(data)
    }

    /** `classify_columns`. */
    function ClassifyColumns(): Classification
      reads this
    {
      Classify(GetDataframe())
    }
  }
}
