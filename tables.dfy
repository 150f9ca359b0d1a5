/**
 * The data the service handles, once pandas is made abstract: a table is its
 * typed columns and its row count, and a dataset is a Python dict from a name
 * to a table, whose iteration order is the order of first insertion.
 */
module Tables {
  import opened Wrappers

  type Bytes = seq<bv8>

  /** The four dtype families the classification distinguishes. */
  datatype DType = Object | Datetime | Number | Other

  datatype Column = Column(name: string, dtype: DType)

  /** A DataFrame: `df.columns` with their dtypes, and `len(df)`. */
  datatype Table = Table(columns: seq<Column>, rows: nat)

  datatype Entry = Entry(name: string, table: Table)

  /** A dict of DataFrames, as its items in insertion order. */
  type Dataset = seq<Entry>

  /** The dict's keys, in iteration order. */
  function Keys(d: Dataset): seq<string>
  {
    seq(|d|, p requires 0 <= p < |d| => d[p].name)
  }

  /** No name is listed twice. */
  predicate NoDup(names: seq<string>)
  {
    forall p, q :: 0 <= p < q < |names| ==> names[p] != names[q]
  }

  /** `d.get(k)`. */
  function Lookup(d: Dataset, k: string): (r: Option<Table>)
    ensures r.Some? <==> k in Keys(d)
  {
    if d == [] then None
    else if d[0].name == k then
      assert Keys(d)[0] == k;
      Some(d[0].table)
    else
      assert Keys(d) == [d[0].name] + Keys(d[1..]);
      Lookup(d[1..], k)
  }

  /**
   * `d[k] = t`: an existing key keeps its place and gets the new table,
   * a new key goes last.
   */
  function Put(d: Dataset, k: string, t: Table): (r: Dataset)
    ensures Keys(r) == if k in Keys(d) then Keys(d) else Keys(d) + [k]
    ensures forall k' :: Lookup(r, k') == if k' == k then Some(t) else Lookup(d, k')
  {
    if d == [] then [Entry(k, t)]
    else if d[0].name == k then
      assert Keys(d) == [k] + Keys(d[1..]);
      assert Keys([Entry(k, t)] + d[1..]) == [k] + Keys(d[1..]);
      [Entry(k, t)] + d[1..]
    else
      var rest := Put(d[1..], k, t);
      assert Keys(d) == [d[0].name] + Keys(d[1..]);
      assert Keys([d[0]] + rest) == [d[0].name] + Keys(rest);
      assert ([d[0]] + rest)[1..] == rest;
      [d[0]] + rest
  }

  /** Where `k` first occurs in `names`. */
  function FirstIndex(names: seq<string>, k: string): (i: nat)
    requires k in names
    ensures i < |names| && names[i] == k && k !in names[..i]
  {
    if names[0] == k then 0 else 1 + FirstIndex(names[1..], k)
  }

  /** Appending a name leaves the first occurrences of the earlier names where they were. */
  lemma {:induction false} FirstIndexAppend(names: seq<string>, n: string, k: string)
    requires k in names + [n]
    ensures k in names ==> FirstIndex(names + [n], k) == FirstIndex(names, k)
    ensures k !in names ==> FirstIndex(names + [n], k) == |names|
  {
    if k in names {
      if names[0] != k {
        assert (names + [n])[1..] == names[1..] + [n];
        FirstIndexAppend(names[1..], n, k);
      }
    } else if names != [] {
      assert (names + [n])[1..] == names[1..] + [n];
      FirstIndexAppend(names[1..], n, k);
    }
  }
}
