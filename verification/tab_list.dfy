/** The list editing the management tabs share: rows are JSON objects, found by their `id`
    property, rewritten by `xs.map(x => x.id === id ? f(x) : x)` and removed by
    `xs.filter(x => x.id !== id)`. Ids are compared by value, which is what `===` does for the
    strings, numbers, booleans, null and undefined the tabs use as ids. */
module TabList {
  import opened Wrappers
  import opened Json
  import opened Seqs

  /** A row: the properties of a JSON object, in order. */
  type Row = seq<(string, Json)>

  /** `row.id`. */
  function Id(row: Row): Option<Json> {
    Get(row, "id")
  }

  /** `xs.find(x => x.id === id)`: the first row with the id. */
  function FindById(xs: seq<Row>, id: Option<Json>): (r: Option<Row>)
    ensures r.None? <==> forall i | 0 <= i < |xs| :: Id(xs[i]) != id
    ensures r.Some? ==> exists i | 0 <= i < |xs| :: xs[i] == r.value && Id(xs[i]) == id &&
                          forall j | 0 <= j < i :: Id(xs[j]) != id
  {
    if |xs| == 0 then None
    else if Id(xs[0]) == id then Some(xs[0])
    else
      var rest := FindById(xs[1..], id);
      assert rest.Some? ==> exists i | 0 <= i < |xs[1..]| :: xs[1..][i] == rest.value && Id(xs[1..][i]) == id &&
                              forall j | 0 <= j < i :: Id(xs[1..][j]) != id;
      assert rest.Some? ==> exists i | 1 <= i < |xs| :: xs[i] == rest.value && Id(xs[i]) == id &&
                              forall j | 0 <= j < i :: Id(xs[j]) != id by {
        if rest.Some? {
          var i :| 0 <= i < |xs[1..]| && xs[1..][i] == rest.value && Id(xs[1..][i]) == id &&
                   forall j | 0 <= j < i :: Id(xs[1..][j]) != id;
          assert forall j | 0 <= j < i + 1 :: Id(xs[j]) != id by {
            forall j | 0 <= j < i + 1 ensures Id(xs[j]) != id {
              if j > 0 { assert xs[j] == xs[1..][j - 1]; }
            }
          }
        }
      }
      rest
  }

  /** `xs.map(x => x.id === id ? f(x) : x)`. */
  function UpdateWhere(xs: seq<Row>, id: Option<Json>, f: Row -> Row): (r: seq<Row>)
    ensures |r| == |xs|
    ensures forall i | 0 <= i < |xs| && Id(xs[i]) != id :: r[i] == xs[i]
    ensures forall i | 0 <= i < |xs| && Id(xs[i]) == id :: r[i] == f(xs[i])
  {
    seq(|xs|, i requires 0 <= i < |xs| => if Id(xs[i]) == id then f(xs[i]) else xs[i])
  }

  /** `xs.filter(x => x.id !== id)`. */
  function RemoveWhere(xs: seq<Row>, id: Option<Json>): (r: seq<Row>)
    ensures |r| <= |xs|
  {
    Filter(xs, (x: Row) => Id(x) != id)
  }

  /** Removal keeps exactly the rows with another id, in their order, and drops as many rows as
      have the id. */
  lemma RemoveWhereExact(xs: seq<Row>, id: Option<Json>)
    ensures forall i | 0 <= i < |RemoveWhere(xs, id)| :: Id(RemoveWhere(xs, id)[i]) != id
    ensures forall i | 0 <= i < |xs| :: xs[i] in RemoveWhere(xs, id) <==> Id(xs[i]) != id
    ensures |RemoveWhere(xs, id)| == |xs| - Count(xs, (x: Row) => Id(x) == id)
  {
    FilterMembers(xs, (x: Row) => Id(x) != id);
    FilterComplement(xs, (x: Row) => Id(x) != id, (x: Row) => Id(x) == id);
  }

  /** Removing by an id that no row has changes nothing. */
  lemma RemoveAbsentId(xs: seq<Row>, id: Option<Json>)
    requires forall i | 0 <= i < |xs| :: Id(xs[i]) != id
    ensures RemoveWhere(xs, id) == xs
  {
    FilterExtremes(xs, (x: Row) => Id(x) != id);
  }

  /** Removing the id of a row just appended, when no earlier row has it, gives back the earlier
      rows. */
  lemma RemoveAppended(xs: seq<Row>, x: Row)
    requires forall i | 0 <= i < |xs| :: Id(xs[i]) != Id(x)
    ensures RemoveWhere(xs + [x], Id(x)) == xs
  {
    var p := (y: Row) => Id(y) != Id(x);
    FilterAppend(xs, [x], p);
    RemoveAbsentId(xs, Id(x));
    assert Filter([x], p) == [];
  }
}
