/** The four CSV loaders of load_data.py, on rows that `csv.reader` has
    already split into cells. Reading a file becomes a sequence of rows;
    `next(reader)` past the end while skipping header rows becomes
    `NotEnoughRows`; `float()`/`int()` are the abstract parsers of `Numbers`. */
module LoadData {

  import opened Wrappers
  import opened Text
  import opened Numbers

  type Row = seq<string>

  datatype LoadError =
    | NotEnoughRows              // fewer rows than header rows to skip
    | NoHeaderRow                // nothing left after skipping to take the keys from
    | EmptyRow                   // `rows[0]` of a blank line
    | ShortRow                   // a data row with fewer cells than there are keys
    | BadNumber                  // the parser refused a cell
    | UnknownColumn(key: string) // a component column that the table does not have
    | NoComponents(key: string)  // a combined field with nothing to concatenate
    | RaggedColumns(key: string) // components of a combined field of unequal length

  /** Python's `s[n:]`: empty when `n` is past the end. */
  function Drop<T>(s: seq<T>, n: nat): (d: seq<T>)
    ensures |d| == if n <= |s| then |s| - n else 0
    ensures forall j | 0 <= j < |d| :: d[j] == s[n + j]
  {
    if n <= |s| then s[n..] else []
  }

  /** Python's `zip(a, b)`: pairs up to the shorter of the two. */
  function Zip<A, B>(a: seq<A>, b: seq<B>): (z: seq<(A, B)>)
    ensures |z| == Min(|a|, |b|)
    ensures forall j | 0 <= j < |z| :: z[j] == (a[j], b[j])
  {
    seq(Min(|a|, |b|), j requires 0 <= j < Min(|a|, |b|) => (a[j], b[j]))
  }

  /** Entry `i` is the last one with its key. */
  predicate LastOf<K(==), V>(entries: seq<(K, V)>, i: nat)
    requires i < |entries|
  {
    forall j | i < j < |entries| :: entries[j].0 != entries[i].0
  }

  /** The keys of the entries. */
  function KeysOf<K(==), V>(entries: seq<(K, V)>): set<K>
  {
    set i | 0 <= i < |entries| :: entries[i].0
  }

  /** `m` maps the key of every entry that is the last with its key to that
      entry's value. */
  ghost predicate HoldsLast<K, V>(entries: seq<(K, V)>, m: map<K, V>)
  {
    forall i | 0 <= i < |entries| && LastOf(entries, i) :: entries[i].0 in m && m[entries[i].0] == entries[i].1
  }

  /** A dict filled by `d[k] = v` for each entry in order: every key of an
      entry is present, and a repeated key keeps the value of its last entry. */
  function ToMap<K(==), V>(entries: seq<(K, V)>): (m: map<K, V>)
    ensures m.Keys == KeysOf(entries)
    ensures HoldsLast(entries, m)
  {
    if |entries| == 0 then map[]
    else
      var n := |entries| - 1;
      var m0 := ToMap(entries[..n]);
      KeysOfSnoc(entries);
      HoldsLastSnoc(entries, m0);
      m0[entries[n].0 := entries[n].1]
  }

  lemma KeysOfSnoc<K, V>(entries: seq<(K, V)>)
    requires |entries| > 0
    ensures KeysOf(entries) == KeysOf(entries[..|entries| - 1]) + {entries[|entries| - 1].0}
  {
    var n := |entries| - 1;
    var front := entries[..n];
    assert forall i | 0 <= i < n :: front[i] == entries[i];
  }

  /** Assigning the last entry keeps what the earlier ones established. */
  lemma HoldsLastSnoc<K, V>(entries: seq<(K, V)>, m0: map<K, V>)
    requires |entries| > 0 && HoldsLast(entries[..|entries| - 1], m0)
    ensures HoldsLast(entries, m0[entries[|entries| - 1].0 := entries[|entries| - 1].1])
  {
    var n := |entries| - 1;
    var front := entries[..n];
    var m := m0[entries[n].0 := entries[n].1];
    forall i | 0 <= i < |entries| && LastOf(entries, i)
      ensures entries[i].0 in m && m[entries[i].0] == entries[i].1
    {
      if i < n {
        assert front[i] == entries[i];
        assert LastOf(front, i) by {
          forall j | i < j < n
            ensures front[j].0 != front[i].0
          {
            assert front[j] == entries[j];
          }
        }
        assert entries[i].0 != entries[n].0;
      }
    }
  }

  // ---------------------------------------------------------------------
  // csv_to_dict_keys_per_row

  /** `[float(r) for r in fields]`; None when the parser refuses a field. */
  function ParseAll(fields: seq<string>, parse: FloatParser): (r: Option<seq<Num>>)
    ensures r.Some? <==> forall j | 0 <= j < |fields| :: parse(fields[j]).Some?
    ensures r.Some? ==> |r.value| == |fields|
    ensures r.Some? ==> forall j | 0 <= j < |fields| :: r.value[j] == parse(fields[j]).value
  {
    if |fields| == 0 then Some([])
    else
      var x :- parse(fields[0]);
      var rest :- ParseAll(fields[1..], parse);
      Some([x] + rest)
  }

  /** The array stored for one row: all NaN when some cell from `idx` on is
      empty, otherwise those cells parsed. */
  function RowValue(row: Row, idx: nat, parse: FloatParser): (r: Option<seq<Num>>)
    ensures var fields := Drop(row, idx);
            && (r.Some? ==> |r.value| == |fields|)
            && ("" in fields ==> r.Some? && AllNaN(r.value))
            && ("" !in fields ==> (r.Some? <==> forall j | 0 <= j < |fields| :: parse(fields[j]).Some?))
            && ("" !in fields && r.Some? ==> forall j | 0 <= j < |fields| :: r.value[j] == parse(fields[j]).value)
  {
    var fields := Drop(row, idx);
    if "" in fields then Some(seq(|fields|, _ => NaN))
    else ParseAll(fields, parse)
  }

  /** Entry `e` carries the first cell of row `e` as its key. */
  ghost predicate KeyedBy<V>(entries: seq<(string, V)>, data: seq<Row>)
  {
    |entries| == |data| && forall e | 0 <= e < |data| :: |data[e]| > 0 && entries[e].0 == data[e][0]
  }

  /** A row whose key no later row repeats gives the last entry of its key. */
  lemma LastOfKeyed<V>(entries: seq<(string, V)>, data: seq<Row>, e: nat)
    requires KeyedBy(entries, data) && e < |data|
    requires forall j | e < j < |data| :: data[j][0] != data[e][0]
    ensures LastOf(entries, e)
  {
  }

  /** A data row has a key cell and a value that loads. */
  predicate RowLoads(row: Row, idx: nat, parse: FloatParser)
  {
    |row| > 0 && RowValue(row, idx, parse).Some?
  }

  /** The (key, value) assignments of the data rows, in row order. */
  function RowEntries(data: seq<Row>, idx: nat, parse: FloatParser): (r: Result<seq<(string, seq<Num>)>, LoadError>)
    ensures r.Success? <==> forall i | 0 <= i < |data| :: RowLoads(data[i], idx, parse)
    ensures r.Success? ==> KeyedBy(r.value, data)
    ensures r.Success? ==> forall i | 0 <= i < |data| :: r.value[i].1 == RowValue(data[i], idx, parse).value
    ensures r.Failure? ==> r.error == EmptyRow || r.error == BadNumber
  {
    if |data| == 0 then Success([])
    else
      var row := data[0];
      if |row| == 0 then Failure(EmptyRow)
      else
        match RowValue(row, idx, parse)
        case None => Failure(BadNumber)
        case Some(v) =>
          var rest :- RowEntries(data[1..], idx, parse);
          Success([(row[0], v)] + rest)
  }

  /** `csv_to_dict_keys_per_row`: after `skip` header rows, each row maps its
      first cell to the array of its cells from column `idx` on. */
  function KeysPerRow(rows: seq<Row>, skip: nat, idx: nat, parse: FloatParser): (r: Result<map<string, seq<Num>>, LoadError>)
    ensures r == Failure(NotEnoughRows) <==> |rows| < skip
    ensures r.Success? <==> |rows| >= skip && forall i | skip <= i < |rows| :: RowLoads(rows[i], idx, parse)
  {
    if |rows| < skip then Failure(NotEnoughRows)
    else
      var entries :- RowEntries(rows[skip..], idx, parse);
      Success(ToMap(entries))
  }

  /** The keys are the first cells of the rows after the header. */
  lemma KeysPerRowKeys(rows: seq<Row>, skip: nat, idx: nat, parse: FloatParser)
    requires KeysPerRow(rows, skip, idx, parse).Success?
    ensures var data := rows[skip..];
            KeysPerRow(rows, skip, idx, parse).value.Keys == set i | 0 <= i < |data| :: data[i][0]
  {
    var entries := RowEntries(rows[skip..], idx, parse).value;
    assert KeyedBy(entries, rows[skip..]);
  }

  /** A key holds the value of the last row that has it. */
  lemma KeysPerRowLastWins(rows: seq<Row>, skip: nat, idx: nat, parse: FloatParser, e: nat)
    requires skip <= e < |rows|
    requires forall i | skip <= i < |rows| :: RowLoads(rows[i], idx, parse)
    requires |rows[e]| > 0 && forall j | e < j < |rows| :: |rows[j]| > 0 && rows[j][0] != rows[e][0]
    ensures KeysPerRow(rows, skip, idx, parse).Success?
    ensures rows[e][0] in KeysPerRow(rows, skip, idx, parse).value
    ensures KeysPerRow(rows, skip, idx, parse).value[rows[e][0]] == RowValue(rows[e], idx, parse).value
  {
    KeysPerRowLoads(rows, skip, idx, parse);
    SliceKeepsLast(rows, skip, e);
    LastRowWins(rows[skip..], idx, parse, e - skip);
  }

  /** Dropping the header rows keeps a row the last one with its key. */
  lemma SliceKeepsLast(rows: seq<Row>, skip: nat, e: nat)
    requires skip <= e < |rows|
    requires |rows[e]| > 0 && forall j | e < j < |rows| :: |rows[j]| > 0 && rows[j][0] != rows[e][0]
    ensures var data := rows[skip..];
            && data[e - skip] == rows[e]
            && forall j | e - skip < j < |data| :: |data[j]| > 0 && data[j][0] != data[e - skip][0]
  {
    var data := rows[skip..];
    forall j | e - skip < j < |data| ensures |data[j]| > 0 && data[j][0] != data[e - skip][0] {
      assert data[j] == rows[j + skip];
    }
  }

  /** When every row after the header loads, the dict is built from all of them. */
  lemma KeysPerRowLoads(rows: seq<Row>, skip: nat, idx: nat, parse: FloatParser)
    requires skip <= |rows| && forall i | skip <= i < |rows| :: RowLoads(rows[i], idx, parse)
    ensures RowEntries(rows[skip..], idx, parse).Success?
    ensures KeysPerRow(rows, skip, idx, parse) == Success(ToMap(RowEntries(rows[skip..], idx, parse).value))
  {
    var data := rows[skip..];
    forall i | 0 <= i < |data| ensures RowLoads(data[i], idx, parse) {
      assert data[i] == rows[i + skip];
    }
  }

  /** The dict built from the rows after the header keeps, for a key, the
      value of the last row with that key. */
  lemma LastRowWins(data: seq<Row>, idx: nat, parse: FloatParser, e: nat)
    requires RowEntries(data, idx, parse).Success?
    requires e < |data| && |data[e]| > 0
    requires forall j | e < j < |data| :: |data[j]| > 0 && data[j][0] != data[e][0]
    ensures var m := ToMap(RowEntries(data, idx, parse).value);
            data[e][0] in m && m[data[e][0]] == RowValue(data[e], idx, parse).value
  {
    LastOfKeyed(RowEntries(data, idx, parse).value, data, e);
  }

  // ---------------------------------------------------------------------
  // csv_to_dict_keys_per_col

  /** A cell of a column-keyed table: an `int` in a column whose key
      mentions `frame`, a float elsewhere. */
  datatype Cell = IntCell(i: int) | NumCell(n: Num)

  function ParseCell(key: string, text: string, parseInt: IntParser, parseFloat: FloatParser): (c: Option<Cell>)
    ensures c.Some? ==> (c.value.IntCell? <==> Contains(key, "frame"))
  {
    if Contains(key, "frame") then
      var i :- parseInt(text);
      Some(IntCell(i))
    else
      var x :- parseFloat(text);
      Some(NumCell(x))
  }

  /** One data row, a cell per key position; cells past the keys are ignored. */
  function ParseRow(keys: seq<string>, row: Row, parseInt: IntParser, parseFloat: FloatParser): (r: Result<seq<Cell>, LoadError>)
    ensures r.Success? <==> |row| >= |keys| && forall p | 0 <= p < |keys| :: ParseCell(keys[p], row[p], parseInt, parseFloat).Some?
    ensures r.Success? ==> |r.value| == |keys|
    ensures r.Success? ==> forall p | 0 <= p < |keys| :: r.value[p] == ParseCell(keys[p], row[p], parseInt, parseFloat).value
    ensures r.Failure? ==> r.error == ShortRow || r.error == BadNumber
  {
    if |keys| == 0 then Success([])
    else if |row| == 0 then Failure(ShortRow)
    else
      match ParseCell(keys[0], row[0], parseInt, parseFloat)
      case None => Failure(BadNumber)
      case Some(c) =>
        var rest :- ParseRow(keys[1..], row[1..], parseInt, parseFloat);
        Success([c] + rest)
  }

  function ParseTable(keys: seq<string>, data: seq<Row>, parseInt: IntParser, parseFloat: FloatParser): (r: Result<seq<seq<Cell>>, LoadError>)
    ensures r.Success? <==> forall i | 0 <= i < |data| :: ParseRow(keys, data[i], parseInt, parseFloat).Success?
    ensures r.Success? ==> |r.value| == |data|
    ensures r.Success? ==> forall i | 0 <= i < |data| :: r.value[i] == ParseRow(keys, data[i], parseInt, parseFloat).value
    ensures r.Failure? ==> r.error == ShortRow || r.error == BadNumber
  {
    if |data| == 0 then Success([])
    else
      var first :- ParseRow(keys, data[0], parseInt, parseFloat);
      var rest :- ParseTable(keys, data[1..], parseInt, parseFloat);
      Success([first] + rest)
  }

  /** The cells of one row under key `k`, in key order (more than one when
      the header repeats `k`). */
  function Select(keys: seq<string>, cells: seq<Cell>, k: string): seq<Cell>
    requires |cells| == |keys|
  {
    if |keys| == 0 then []
    else (if keys[0] == k then [cells[0]] else []) + Select(keys[1..], cells[1..], k)
  }

  /** The list `dict_transforms[k]` after appending, row by row. */
  function ColumnOf(keys: seq<string>, table: seq<seq<Cell>>, k: string): seq<Cell>
    requires forall i | 0 <= i < |table| :: |table[i]| == |keys|
  {
    if |table| == 0 then []
    else Select(keys, table[0], k) + ColumnOf(keys, table[1..], k)
  }

  predicate Distinct<T(==)>(s: seq<T>)
  {
    forall i, j | 0 <= i < j < |s| :: s[i] != s[j]
  }

  /** `csv_to_dict_keys_per_col`: after `skip` rows, the next row gives the
      keys and every later row appends one cell to each key's column. */
  function KeysPerCol(rows: seq<Row>, skip: nat, parseInt: IntParser, parseFloat: FloatParser): (r: Result<map<string, seq<Cell>>, LoadError>)
    ensures r == Failure(NotEnoughRows) <==> |rows| < skip
    ensures r == Failure(NoHeaderRow) <==> |rows| == skip
    ensures r.Success? <==> |rows| > skip && forall i | skip < i < |rows| :: ParseRow(rows[skip], rows[i], parseInt, parseFloat).Success?
    ensures r.Success? ==> r.value.Keys == set p | 0 <= p < |rows[skip]| :: rows[skip][p]
  {
    if |rows| < skip then Failure(NotEnoughRows)
    else if |rows| == skip then Failure(NoHeaderRow)
    else
      var keys := rows[skip];
      var data := rows[skip + 1..];
      assert forall i | skip < i < |rows| :: rows[i] == data[i - skip - 1];
      var table :- ParseTable(keys, data, parseInt, parseFloat);
      Success(map k | k in (set p | 0 <= p < |keys| :: keys[p]) :: ColumnOf(keys, table, k))
  }

  lemma {:induction false} SelectDistinct(keys: seq<string>, cells: seq<Cell>, p: nat)
    requires |cells| == |keys| && p < |keys| && Distinct(keys)
    ensures Select(keys, cells, keys[p]) == [cells[p]]
    decreases |keys|
  {
    var k := keys[p];
    if p == 0 {
      SelectAbsent(keys[1..], cells[1..], k);
    } else {
      assert keys[0] != k;
      SelectDistinct(keys[1..], cells[1..], p - 1);
    }
  }

  lemma {:induction false} SelectAbsent(keys: seq<string>, cells: seq<Cell>, k: string)
    requires |cells| == |keys| && k !in keys
    ensures Select(keys, cells, k) == []
    decreases |keys|
  {
    if |keys| > 0 {
      SelectAbsent(keys[1..], cells[1..], k);
    }
  }

  lemma {:induction false} ColumnOfDistinct(keys: seq<string>, table: seq<seq<Cell>>, p: nat)
    requires forall i | 0 <= i < |table| :: |table[i]| == |keys|
    requires p < |keys| && Distinct(keys)
    ensures var col := ColumnOf(keys, table, keys[p]);
            |col| == |table| && forall i | 0 <= i < |table| :: col[i] == table[i][p]
    decreases |table|
  {
    if |table| > 0 {
      SelectDistinct(keys, table[0], p);
      ColumnOfDistinct(keys, table[1..], p);
    }
  }

  /** With distinct keys, the column of the key at position `p` holds, row
      by row in order, the parsed cell at position `p`: an `int` exactly when
      the key mentions `frame`. */
  lemma KeysPerColColumns(rows: seq<Row>, skip: nat, parseInt: IntParser, parseFloat: FloatParser, p: nat)
    requires KeysPerCol(rows, skip, parseInt, parseFloat).Success?
    requires p < |rows[skip]| && Distinct(rows[skip])
    ensures var col := KeysPerCol(rows, skip, parseInt, parseFloat).value[rows[skip][p]];
            && |col| == |rows| - skip - 1
            && forall i | skip < i < |rows| ::
                 && ParseCell(rows[skip][p], rows[i][p], parseInt, parseFloat).Some?
                 && col[i - skip - 1] == ParseCell(rows[skip][p], rows[i][p], parseInt, parseFloat).value
  {
    var keys, data := rows[skip], rows[skip + 1..];
    var table := ParseTable(keys, data, parseInt, parseFloat).value;
    ColumnOfDistinct(keys, table, p);
    assert forall i | skip < i < |rows| :: rows[i] == data[i - skip - 1];
  }

  // ---------------------------------------------------------------------
  // csv_transforms_concatenated_to_dict

  /** A transforms field: a single column, or per-row stacked component
      columns (an `n × m` array). */
  datatype Field = Column(cells: seq<Cell>) | Stacked(rows: seq<seq<Cell>>)

  /** A combined field name and its component keys in order, one entry of
      `dict_fields_after_concat_to_list_of_fields_to_concatenate`. */
  type Combination = (string, seq<string>)

  function Names(spec: seq<Combination>): set<string>
  {
    set i | 0 <= i < |spec| :: spec[i].0
  }

  /** All component keys of all combined fields. */
  function Components(spec: seq<Combination>): set<string>
  {
    set i, j | 0 <= i < |spec| && 0 <= j < |spec[i].1| :: spec[i].1[j]
  }

  function FirstMissing(cols: map<string, seq<Cell>>, comps: seq<string>): (k: Option<string>)
    ensures k.None? <==> forall j | 0 <= j < |comps| :: comps[j] in cols
    ensures k.Some? ==> k.value in comps && k.value !in cols
  {
    if |comps| == 0 then None
    else if comps[0] !in cols then Some(comps[0])
    else FirstMissing(cols, comps[1..])
  }

  /** The components are all present, at least one, and of one length. */
  predicate Stackable(cols: map<string, seq<Cell>>, comps: seq<string>)
  {
    && (forall j | 0 <= j < |comps| :: comps[j] in cols)
    && |comps| > 0
    && forall j | 0 <= j < |comps| :: |cols[comps[j]]| == |cols[comps[0]]|
  }

  /** `np.concatenate` of the component columns as column vectors: row `r`
      holds the components' cells at row `r`, in component order. */
  function Stack(cols: map<string, seq<Cell>>, name: string, comps: seq<string>): (r: Result<seq<seq<Cell>>, LoadError>)
    ensures r.Success? <==> Stackable(cols, comps)
    ensures r.Success? ==> |r.value| == |cols[comps[0]]|
    ensures r.Success? ==> forall i, j | 0 <= i < |r.value| && 0 <= j < |comps| ::
                             |r.value[i]| == |comps| && r.value[i][j] == cols[comps[j]][i]
    ensures r.Failure? && r.error.UnknownColumn? ==> r.error.key in comps && r.error.key !in cols
  {
    match FirstMissing(cols, comps)
    case Some(k) => Failure(UnknownColumn(k))
    case None =>
      if |comps| == 0 then Failure(NoComponents(name))
      else
        var n := |cols[comps[0]]|;
        if exists j | 0 <= j < |comps| :: |cols[comps[j]]| != n then Failure(RaggedColumns(name))
        else Success(seq(n, i requires 0 <= i < n =>
                           seq(|comps|, j requires 0 <= j < |comps| => cols[comps[j]][i])))
  }

  lemma NamesCons(spec: seq<Combination>)
    requires |spec| > 0
    ensures Names(spec) == {spec[0].0} + Names(spec[1..])
  {
    assert forall i | 1 <= i < |spec| :: spec[i] == spec[1..][i - 1];
  }

  /** The second loop: each combined field in turn is stacked and stored. */
  function AddStacked(acc: map<string, Field>, cols: map<string, seq<Cell>>, spec: seq<Combination>): (r: Result<map<string, Field>, LoadError>)
    requires forall i, j | 0 <= i < j < |spec| :: spec[i].0 != spec[j].0
    decreases |spec|
    ensures r.Success? <==> forall i | 0 <= i < |spec| :: Stackable(cols, spec[i].1)
    ensures r.Success? ==> r.value.Keys == acc.Keys + Names(spec)
    ensures r.Success? ==> forall k | k in acc && k !in Names(spec) :: r.value[k] == acc[k]
    ensures r.Success? ==> forall i | 0 <= i < |spec| :: r.value[spec[i].0] == Stacked(Stack(cols, spec[i].0, spec[i].1).value)
  {
    if |spec| == 0 then Success(acc)
    else
      var rows :- Stack(cols, spec[0].0, spec[0].1);
      NamesCons(spec);
      AddStacked(acc[spec[0].0 := Stacked(rows)], cols, spec[1..])
  }

  /** `csv_transforms_concatenated_to_dict` on an already loaded table: keys
      that are no component are copied, component keys are dropped, and each
      combined field holds its stacked components. */
  function Concatenate(cols: map<string, seq<Cell>>, spec: seq<Combination>): (r: Result<map<string, Field>, LoadError>)
    requires forall i, j | 0 <= i < j < |spec| :: spec[i].0 != spec[j].0
    ensures r.Success? <==> forall i | 0 <= i < |spec| :: Stackable(cols, spec[i].1)
    ensures r.Success? ==> r.value.Keys == (cols.Keys - Components(spec)) + Names(spec)
    ensures r.Success? ==> forall k | k in cols && k !in Components(spec) && k !in Names(spec) :: r.value[k] == Column(cols[k])
    ensures r.Success? ==> forall i | 0 <= i < |spec| :: r.value[spec[i].0] == Stacked(Stack(cols, spec[i].0, spec[i].1).value)
  {
    var kept := map k | k in cols.Keys - Components(spec) :: Column(cols[k]);
    AddStacked(kept, cols, spec)
  }

  // ---------------------------------------------------------------------
  // csv_to_dict_TO_L_frames

  /** A TO/L cell: empty text is NaN, anything else goes to `float()`. */
  function ParseOrNaN(text: string, parse: FloatParser): (x: Option<Num>)
    ensures text == "" ==> x == Some(NaN)
    ensures text != "" ==> x == parse(text)
  {
    if text == "" then Some(NaN) else parse(text)
  }

  function ParsePairs(pairs: seq<(string, string)>, parse: FloatParser): (r: Option<seq<(string, Num)>>)
    ensures r.Some? <==> forall j | 0 <= j < |pairs| :: ParseOrNaN(pairs[j].1, parse).Some?
    ensures r.Some? ==> |r.value| == |pairs|
    ensures r.Some? ==> forall j | 0 <= j < |pairs| :: r.value[j] == (pairs[j].0, ParseOrNaN(pairs[j].1, parse).value)
  {
    if |pairs| == 0 then Some([])
    else
      var x :- ParseOrNaN(pairs[0].1, parse);
      var rest :- ParsePairs(pairs[1..], parse);
      Some([(pairs[0].0, x)] + rest)
  }

  /** Every paired cell is accepted by `ParseOrNaN`. */
  predicate PairsParse(pairs: seq<(string, string)>, parse: FloatParser)
  {
    forall j | 0 <= j < |pairs| :: ParseOrNaN(pairs[j].1, parse).Some?
  }

  /** `m` holds, for every subkey whose pair is its last, the parsed cell. */
  ghost predicate HoldsParsed(pairs: seq<(string, string)>, parse: FloatParser, m: map<string, Num>)
    requires PairsParse(pairs, parse)
  {
    forall j | 0 <= j < |pairs| && LastOf(pairs, j) :: pairs[j].0 in m && m[pairs[j].0] == ParseOrNaN(pairs[j].1, parse).value
  }

  /** The per-trial dict of one row: subkeys paired with the cells from
      column `idx` on, up to the shorter of the two; a repeated subkey keeps
      its last cell. */
  function TrialValues(subkeys: seq<string>, row: Row, idx: nat, parse: FloatParser): (r: Option<map<string, Num>>)
    ensures var pairs := Zip(subkeys, Drop(row, idx));
            && (r.Some? <==> PairsParse(pairs, parse))
            && (r.Some? ==> r.value.Keys == KeysOf(pairs) && HoldsParsed(pairs, parse, r.value))
  {
    var pairs := Zip(subkeys, Drop(row, idx));
    match ParsePairs(pairs, parse)
    case None => None
    case Some(entries) =>
      assert forall j | 0 <= j < |pairs| :: entries[j].0 == pairs[j].0;
      assert forall j | 0 <= j < |pairs| && LastOf(pairs, j) :: LastOf(entries, j);
      Some(ToMap(entries))
  }

  /** A trial row has a key cell and a per-trial dict that loads. */
  predicate TrialLoads(subkeys: seq<string>, row: Row, idx: nat, parse: FloatParser)
  {
    |row| > 0 && TrialValues(subkeys, row, idx, parse).Some?
  }

  function TrialEntries(subkeys: seq<string>, data: seq<Row>, idx: nat, parse: FloatParser): (r: Result<seq<(string, map<string, Num>)>, LoadError>)
    ensures r.Success? <==> forall i | 0 <= i < |data| :: TrialLoads(subkeys, data[i], idx, parse)
    ensures r.Success? ==> KeyedBy(r.value, data)
    ensures r.Success? ==> forall i | 0 <= i < |data| :: r.value[i].1 == TrialValues(subkeys, data[i], idx, parse).value
    ensures r.Failure? ==> r.error == EmptyRow || r.error == BadNumber
  {
    if |data| == 0 then Success([])
    else
      match TrialValues(subkeys, data[0], idx, parse)
      case None => Failure(BadNumber)
      case Some(v) =>
        if |data[0]| == 0 then Failure(EmptyRow)
        else
          var rest :- TrialEntries(subkeys, data[1..], idx, parse);
          Success([(data[0][0], v)] + rest)
  }

  /** `csv_to_dict_TO_L_frames`: after `skip` rows, the next row's cells from
      column `idx` on are the subkeys; every later row maps its first cell
      to its per-trial dict. */
  function ToLFrames(rows: seq<Row>, skip: nat, idx: nat, parse: FloatParser): (r: Result<map<string, map<string, Num>>, LoadError>)
    ensures r == Failure(NotEnoughRows) <==> |rows| < skip
    ensures |rows| == skip ==> r == Success(map[])
    ensures |rows| > skip ==>
              (r.Success? <==> forall i | skip < i < |rows| :: TrialLoads(Drop(rows[skip], idx), rows[i], idx, parse))
  {
    if |rows| < skip then Failure(NotEnoughRows)
    else if |rows| == skip then Success(map[])
    else
      var subkeys := Drop(rows[skip], idx);
      var data := rows[skip + 1..];
      assert forall i | skip < i < |rows| :: rows[i] == data[i - skip - 1];
      var entries :- TrialEntries(subkeys, data, idx, parse);
      Success(ToMap(entries))
  }

  /** The trials are the first cells of the rows after the subkey row. */
  lemma ToLFramesKeys(rows: seq<Row>, skip: nat, idx: nat, parse: FloatParser)
    requires skip < |rows|
    requires forall i | skip < i < |rows| :: TrialLoads(Drop(rows[skip], idx), rows[i], idx, parse)
    ensures ToLFrames(rows, skip, idx, parse).Success?
    ensures var data := rows[skip + 1..];
            ToLFrames(rows, skip, idx, parse).value.Keys == set i | 0 <= i < |data| :: data[i][0]
  {
    ToLFramesLoads(rows, skip, idx, parse);
    var entries := TrialEntries(Drop(rows[skip], idx), rows[skip + 1..], idx, parse).value;
    assert KeyedBy(entries, rows[skip + 1..]);
  }

  /** When every trial row loads, the dict is built from all rows after the
      subkey row. */
  lemma ToLFramesLoads(rows: seq<Row>, skip: nat, idx: nat, parse: FloatParser)
    requires skip < |rows| && forall i | skip < i < |rows| :: TrialLoads(Drop(rows[skip], idx), rows[i], idx, parse)
    ensures TrialEntries(Drop(rows[skip], idx), rows[skip + 1..], idx, parse).Success?
    ensures ToLFrames(rows, skip, idx, parse)
         == Success(ToMap(TrialEntries(Drop(rows[skip], idx), rows[skip + 1..], idx, parse).value))
  {
    var subkeys := Drop(rows[skip], idx);
    var data := rows[skip + 1..];
    forall i | 0 <= i < |data| ensures TrialLoads(subkeys, data[i], idx, parse) {
      assert data[i] == rows[i + skip + 1];
    }
  }

  /** The dict built from the trial rows keeps, for a trial, the dict of the
      last row naming it. */
  lemma LastTrialWins(subkeys: seq<string>, data: seq<Row>, idx: nat, parse: FloatParser, e: nat)
    requires TrialEntries(subkeys, data, idx, parse).Success?
    requires e < |data| && |data[e]| > 0
    requires forall j | e < j < |data| :: |data[j]| > 0 && data[j][0] != data[e][0]
    ensures var m := ToMap(TrialEntries(subkeys, data, idx, parse).value);
            data[e][0] in m && m[data[e][0]] == TrialValues(subkeys, data[e], idx, parse).value
  {
    LastOfKeyed(TrialEntries(subkeys, data, idx, parse).value, data, e);
  }

  /** A trial holds the dict of the last row that names it. */
  lemma ToLFramesLastWins(rows: seq<Row>, skip: nat, idx: nat, parse: FloatParser, e: nat)
    requires skip < |rows|
    requires forall i | skip < i < |rows| :: TrialLoads(Drop(rows[skip], idx), rows[i], idx, parse)
    requires var data := rows[skip + 1..];
             e < |data| && |data[e]| > 0 && forall j | e < j < |data| :: |data[j]| > 0 && data[j][0] != data[e][0]
    ensures ToLFrames(rows, skip, idx, parse).Success?
    ensures var data := rows[skip + 1..];
            && data[e][0] in ToLFrames(rows, skip, idx, parse).value
            && ToLFrames(rows, skip, idx, parse).value[data[e][0]] == TrialValues(Drop(rows[skip], idx), data[e], idx, parse).value
  {
    ToLFramesLoads(rows, skip, idx, parse);
    LastTrialWins(Drop(rows[skip], idx), rows[skip + 1..], idx, parse, e);
  }
}
