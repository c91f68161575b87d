/** get_lama_object_list: a filter object becomes a conjunction of column conditions
    (one for every attribute that holds a non-default value), which the database then
    evaluates over the core table. */
module ListQuery {
  import opened LamaTypes

  datatype Column = Id | IdInWorld | Name | EmitterId | EmitterName | Type | V0 | V1

  datatype Value = IntValue(i: int) | StringValue(s: string)

  datatype Condition = Equal(column: Column, value: Value) | NotEqual(column: Column, value: Value)

  /** The attributes copied one to one between a LamaObject and a row, in source order. */
  const DirectAttributes: seq<Column> := [Id, IdInWorld, Name, EmitterId, EmitterName, Type]

  /** Python truthiness of a message attribute: a non-zero integer, a non-empty string. */
  predicate Truthy(v: Value)
  {
    match v
    case IntValue(i) => i != 0
    case StringValue(s) => s != ""
  }

  /** The value of a direct attribute of a message. */
  function Attribute(o: LamaObject, c: Column): Value
    requires c in DirectAttributes
  {
    match c
    case Id => IntValue(o.id)
    case IdInWorld => IntValue(o.idInWorld)
    case Name => StringValue(o.name)
    case EmitterId => IntValue(o.emitterId)
    case EmitterName => StringValue(o.emitterName)
    case Type => IntValue(o.kind)
  }

  /** The value of a column in the row stored under `id`. */
  function ColumnValue(id: int, row: Row, c: Column): Value
  {
    match c
    case Id => IntValue(id)
    case IdInWorld => IntValue(row.idInWorld)
    case Name => StringValue(row.name)
    case EmitterId => IntValue(row.emitterId)
    case EmitterName => StringValue(row.emitterName)
    case Type => IntValue(row.kind)
    case V0 => IntValue(row.v0)
    case V1 => IntValue(row.v1)
  }

  predicate Holds(c: Condition, id: int, row: Row)
  {
    match c
    case Equal(col, v) => ColumnValue(id, row, col) == v
    case NotEqual(col, v) => ColumnValue(id, row, col) != v
  }

  /** A WHERE clause made of AND-ed conditions. */
  predicate HoldsAll(q: seq<Condition>, id: int, row: Row)
  {
    forall i :: 0 <= i < |q| ==> Holds(q[i], id, row)
  }

  /** Whether a query can be built from a filter: a filter other than a vertex filter
      must carry at least two references, since both are read. */
  predicate Buildable(f: LamaObject)
  {
    f.kind == VERTEX || |f.references| >= 2
  }

  /** The documented meaning of a list filter, stated field by field: the undefined
      vertex never matches; every attribute of the filter that is set must be equal in
      the row; references count only for a filter that is not a vertex filter. */
  predicate ListMatches(f: LamaObject, id: int, row: Row)
    requires Buildable(f)
  {
    && id != 0
    && (f.id != 0 ==> id == f.id)
    && (f.idInWorld != 0 ==> row.idInWorld == f.idInWorld)
    && (f.name != "" ==> row.name == f.name)
    && (f.emitterId != 0 ==> row.emitterId == f.emitterId)
    && (f.emitterName != "" ==> row.emitterName == f.emitterName)
    && (f.kind != 0 ==> row.kind == f.kind)
    && (f.kind != VERTEX ==>
          && (f.references[0] != 0 ==> row.v0 == f.references[0])
          && (f.references[1] != 0 ==> row.v1 == f.references[1]))
  }

  /** The condition contributed by one direct attribute, as a statement about the row. */
  predicate AttributeMatches(f: LamaObject, c: Column, id: int, row: Row)
    requires c in DirectAttributes
  {
    Truthy(Attribute(f, c)) ==> ColumnValue(id, row, c) == Attribute(f, c)
  }

  /** The six direct-attribute conditions together. */
  predicate DirectMatches(f: LamaObject, id: int, row: Row)
  {
    && (f.id != 0 ==> id == f.id)
    && (f.idInWorld != 0 ==> row.idInWorld == f.idInWorld)
    && (f.name != "" ==> row.name == f.name)
    && (f.emitterId != 0 ==> row.emitterId == f.emitterId)
    && (f.emitterName != "" ==> row.emitterName == f.emitterName)
    && (f.kind != 0 ==> row.kind == f.kind)
  }

  lemma HoldsAllAppend(q: seq<Condition>, c: Condition, id: int, row: Row)
    ensures HoldsAll(q + [c], id, row) <==> HoldsAll(q, id, row) && Holds(c, id, row)
  {
    assert (q + [c])[|q|] == c;
    assert forall i :: 0 <= i < |q| ==> (q + [c])[i] == q[i];
  }

  /** The query building of get_lama_object_list: the references of a vertex filter are
      reset, the undefined vertex is excluded, and each truthy direct attribute and each
      non-zero reference adds an equality condition. */
  method BuildQuery(f: LamaObject) returns (r: Result<seq<Condition>>)
    ensures r.Failure? <==> !Buildable(f)
    ensures r.Failure? ==> r.error == MalformedReferences(|f.references|)
    ensures r.Success? ==> forall id, row :: HoldsAll(r.value, id, row) <==> ListMatches(f, id, row)
  {
    var refs := if f.kind == VERTEX then [0, 0] else f.references;
    if |refs| < 2 {
      return Failure(MalformedReferences(|f.references|));
    }
    var q := [NotEqual(Id, IntValue(0))];
    forall id, row ensures HoldsAll(q, id, row) <==> id != 0 {
      assert HoldsAll(q, id, row) <==> Holds(q[0], id, row);
    }
    for i := 0 to |DirectAttributes|
      invariant forall id, row :: HoldsAll(q, id, row) <==>
                  id != 0 && forall j :: 0 <= j < i ==> AttributeMatches(f, DirectAttributes[j], id, row)
    {
      var c := DirectAttributes[i];
      var v := Attribute(f, c);
      if Truthy(v) {
        forall id, row ensures HoldsAll(q + [Equal(c, v)], id, row) <==> HoldsAll(q, id, row) && Holds(Equal(c, v), id, row) {
          HoldsAllAppend(q, Equal(c, v), id, row);
        }
        q := q + [Equal(c, v)];
      }
    }
    forall id, row ensures HoldsAll(q, id, row) <==> id != 0 && DirectMatches(f, id, row) {
      var d := DirectAttributes;
      assert |d| == 6 && d[0] == Id && d[1] == IdInWorld && d[2] == Name;
      assert d[3] == EmitterId && d[4] == EmitterName && d[5] == Type;
      assert (forall j :: 0 <= j < |DirectAttributes| ==> AttributeMatches(f, DirectAttributes[j], id, row))
        <==> DirectMatches(f, id, row);
    }
    if refs[0] != 0 {
      forall id, row ensures HoldsAll(q + [Equal(V0, IntValue(refs[0]))], id, row) <==> HoldsAll(q, id, row) && row.v0 == refs[0] {
        HoldsAllAppend(q, Equal(V0, IntValue(refs[0])), id, row);
      }
      q := q + [Equal(V0, IntValue(refs[0]))];
    }
    if refs[1] != 0 {
      forall id, row ensures HoldsAll(q + [Equal(V1, IntValue(refs[1]))], id, row) <==> HoldsAll(q, id, row) && row.v1 == refs[1] {
        HoldsAllAppend(q, Equal(V1, IntValue(refs[1])), id, row);
      }
      q := q + [Equal(V1, IntValue(refs[1]))];
    }
    r := Success(q);
  }

  /** The objects of `t` a list query returns: exactly the rows matching the filter,
      each once, in an order the database chooses. */
  ghost predicate ListedExactly(t: Table, f: LamaObject, objects: seq<LamaObject>)
    requires Buildable(f)
  {
    && (forall x :: x in objects <==> x.id in t && x == ObjectOf(x.id, t[x.id]) && ListMatches(f, x.id, t[x.id]))
    && (forall i, j :: 0 <= i < j < |objects| ==> objects[i].id != objects[j].id)
  }

  /** The database's evaluation of a query over the core table, each result row turned
      into an object. */
  method SelectRows(t: Table, q: seq<Condition>) returns (r: seq<LamaObject>)
    ensures forall x :: x in r <==> x.id in t && x == ObjectOf(x.id, t[x.id]) && HoldsAll(q, x.id, t[x.id])
    ensures forall i, j :: 0 <= i < j < |r| ==> r[i].id != r[j].id
  {
    r := [];
    var rest := t.Keys;
    while rest != {}
      invariant rest <= t.Keys
      invariant forall x :: x in r <==> x.id in t && x.id !in rest && x == ObjectOf(x.id, t[x.id]) && HoldsAll(q, x.id, t[x.id])
      invariant forall i, j :: 0 <= i < j < |r| ==> r[i].id != r[j].id
      decreases rest
    {
      assert (forall k :: k !in rest) ==> rest == {};
      var id :| id in rest;
      if HoldsAll(q, id, t[id]) {
        r := r + [ObjectOf(id, t[id])];
      }
      rest := rest - {id};
    }
  }
}
