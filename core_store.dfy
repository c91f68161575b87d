/** CoreDBInterface: the core table of map objects and the descriptor-link table.
    The functions in this module say what each storage operation does to the tables;
    the class CoreDB carries the tables as state and performs the operations step by
    step, as the source does (existence check, delete, insert). */
module CoreStore {
  import opened LamaTypes

  /** The sentinel vertex that edges to not-yet-visited places point at. */
  const UnvisitedVertex: LamaObject := LamaObject(-1, 0, "unvisited", 0, "", VERTEX, [0, 0])

  /** The sentinel vertex that keeps automatically assigned ids above 0. */
  const UndefinedVertex: LamaObject := LamaObject(0, 0, "undefined", 0, "", VERTEX, [0, 0])

  /** Reference validation of set_lama_object, in the order the source applies it. */
  function ReferencesError(o: LamaObject): (e: Option<Error>)
    ensures e.None? <==> |o.references| == 2 && !(o.kind == EDGE && 0 in o.references)
    ensures |o.references| != 2 ==> e == Some(MalformedReferences(|o.references|))
  {
    if |o.references| != 2 then Some(MalformedReferences(|o.references|))
    else if o.kind == EDGE && 0 in o.references then Some(ZeroEdgeReference)
    else None
  }

  predicate IsSpecial(o: LamaObject)
  {
    o.id < 0 || o.name == "undefined"
  }

  predicate IsNew(o: LamaObject)
  {
    o.id == 0 && o.name != "undefined"
  }

  lemma {:induction false} MaxExists(s: set<int>)
    requires s != {}
    ensures exists m :: m in s && forall k :: k in s ==> k <= m
  {
    assert (forall k :: k !in s) ==> s == {};
    var x :| x in s;
    var rest := s - {x};
    if rest == {} {
      forall k | k in s ensures k <= x {
        assert k !in rest;
      }
    } else {
      MaxExists(rest);
      var m :| m in rest && forall k :: k in rest ==> k <= m;
      var top := if x <= m then m else x;
      forall k | k in s ensures k <= top {
        if k != x {
          assert k in rest;
        }
      }
    }
  }

  ghost function MaxKey(s: set<int>): (m: int)
    requires s != {}
    ensures m in s && forall k :: k in s ==> k <= m
  {
    MaxExists(s);
    var m :| m in s && forall k :: k in s ==> k <= m;
    m
  }

  /** The primary key the database gives a row inserted without one: one more than the
      largest key in the table, or 1 in an empty table (the rule of an SQLite integer
      primary key). */
  ghost function NextRowId(keys: set<int>): (r: int)
    ensures r !in keys
    ensures forall k :: k in keys ==> k < r
    ensures keys == {} ==> r == 1
  {
    if keys == {} then 1 else MaxKey(keys) + 1
  }

  /** The database's key assignment, as a scan over the keys in use. */
  method AllocateRowId(keys: set<int>) returns (r: int)
    ensures r == NextRowId(keys)
  {
    if keys == {} {
      return 1;
    }
    assert (forall k :: k !in keys) ==> keys == {};
    var m :| m in keys;
    var rest := keys - {m};
    while rest != {}
      invariant rest <= keys && m in keys
      invariant forall k :: k in keys && k !in rest ==> k <= m
      decreases rest
    {
      assert (forall k :: k !in rest) ==> rest == {};
      var k :| k in rest;
      if k > m {
        m := k;
      }
      rest := rest - {k};
    }
    r := m + 1;
  }

  /** The outcome of a successful set_lama_object: the id it returns and the new table. */
  datatype Stored = Stored(id: int, table: Table)

  /** What set_lama_object does to the core table. */
  ghost function StoreObject(t: Table, o: LamaObject): (r: Result<Stored>)
    ensures r.Failure? <==> ReferencesError(o).Some?
    ensures r.Failure? ==> r.error == ReferencesError(o).value
    ensures r.Success? ==> r.value.table.Keys == t.Keys + {r.value.id}
    ensures r.Success? ==> forall k :: k in t && k != r.value.id ==> r.value.table[k] == t[k]
  {
    match ReferencesError(o)
    case Some(e) => Failure(e)
    case None =>
      if o.id in t && IsSpecial(o) then
        Success(Stored(o.id, t))
      else if IsNew(o) then
        var id := NextRowId(t.Keys);
        Success(Stored(id, t[id := RowOf(o)]))
      else
        Success(Stored(o.id, (t - {o.id})[o.id := RowOf(o)]))
  }

  /** get_lama_object: the object stored under `id`, or an error when there is none. */
  function GetLamaObject(t: Table, id: int): (r: Result<LamaObject>)
    ensures r.Success? <==> id in t
    ensures r.Failure? ==> r.error == NoSuchObject(id)
    ensures r.Success? ==> r.value.id == id && |r.value.references| == 2 && RowOf(r.value) == t[id]
  {
    if id in t then Success(ObjectOf(id, t[id])) else Failure(NoSuchObject(id))
  }

  /** The sentinel bootstrap of the constructor: store "unvisited", then "undefined". */
  ghost function Bootstrap(t: Table): (r: Table)
    ensures -1 in r && 0 in r
  {
    var first := StoreObject(t, UnvisitedVertex);
    StoreObject(first.value.table, UndefinedVertex).value.table
  }

  /** A write to an existing special object (negative id, or named "undefined") changes
      nothing and returns the given id. */
  lemma SpecialWriteIsNoop(t: Table, o: LamaObject)
    requires ReferencesError(o).None?
    requires IsSpecial(o) && o.id in t
    ensures StoreObject(t, o) == Success(Stored(o.id, t))
  {
  }

  /** Any other valid write stores the object wholesale: reading back the returned id gives
      exactly the written fields (no residue of an earlier row), under the caller's id unless
      the object is new. */
  lemma SetThenGet(t: Table, o: LamaObject)
    requires ReferencesError(o).None?
    requires !(IsSpecial(o) && o.id in t)
    ensures StoreObject(t, o).Success?
    ensures !IsNew(o) ==> StoreObject(t, o).value.id == o.id
    ensures var s := StoreObject(t, o).value;
            GetLamaObject(s.table, s.id) == Success(o.(id := s.id))
  {
    var s := StoreObject(t, o).value;
    assert s.table[s.id] == RowOf(o);
    StoredObjectReadsBack(o.(id := s.id));
  }

  /** Writing an object with id 0 and a name other than "undefined" inserts it under a
      key not in use before, which is positive once the "undefined" vertex exists. */
  lemma NewObjectGetsFreshPositiveId(t: Table, o: LamaObject)
    requires ReferencesError(o).None?
    requires IsNew(o) && 0 in t
    ensures StoreObject(t, o).Success?
    ensures var s := StoreObject(t, o).value;
            s.id !in t && s.id > 0 && s.table == t[s.id := RowOf(o)]
  {
  }

  /** Two new objects written one after the other get different ids. */
  lemma SuccessiveNewIdsDiffer(t: Table, o1: LamaObject, o2: LamaObject)
    requires ReferencesError(o1).None? && ReferencesError(o2).None?
    requires IsNew(o1) && IsNew(o2)
    ensures var s1 := StoreObject(t, o1).value;
            StoreObject(s1.table, o2).value.id != s1.id
  {
  }

  /** Once both sentinels exist, no write changes either of them. */
  lemma SetKeepsSentinels(t: Table, o: LamaObject)
    requires -1 in t && 0 in t
    requires StoreObject(t, o).Success?
    ensures var s := StoreObject(t, o).value;
            -1 in s.table && 0 in s.table && s.table[-1] == t[-1] && s.table[0] == t[0]
  {
  }

  /** The bootstrap puts the two sentinel vertices in a table that lacks them and leaves
      every other row alone. */
  lemma BootstrapInstallsSentinels(t: Table)
    ensures var r := Bootstrap(t);
            && r.Keys == t.Keys + {-1, 0}
            && (-1 !in t ==> r[-1] == RowOf(UnvisitedVertex))
            && (0 !in t ==> r[0] == RowOf(UndefinedVertex))
            && forall k :: k in t ==> r[k] == t[k]
  {
  }

  /** Running the bootstrap on a store that already has it changes nothing. */
  lemma BootstrapIdempotent(t: Table)
    ensures Bootstrap(Bootstrap(t)) == Bootstrap(t)
  {
  }

  /** Whether a descriptor-link read restricts by interface name: only for a name that
      is neither empty nor the wildcard "*". */
  predicate RestrictsInterface(name: string)
  {
    name != "" && name != "*"
  }

  predicate LinkSelected(l: DescriptorLink, id: int, name: string)
  {
    l.objectId == id && (RestrictsInterface(name) ==> l.interfaceName == name)
  }

  /** get_descriptor_links: the links of object `id`, restricted to interface `name` when
      the name restricts; in table order. */
  function DescriptorLinksOf(links: seq<DescriptorLink>, id: int, name: string): (r: seq<DescriptorLink>)
    ensures |r| <= |links|
    ensures forall l :: l in r <==> l in links && LinkSelected(l, id, name)
  {
    if links == [] then []
    else
      var rest := DescriptorLinksOf(links[1..], id, name);
      assert forall l :: l in links <==> l == links[0] || l in links[1..];
      if LinkSelected(links[0], id, name) then [links[0]] + rest else rest
  }

  /** Appending one link extends a read that selects it by exactly that link, and leaves
      every other read as it was. */
  lemma {:induction false} LinksOfAppend(links: seq<DescriptorLink>, l: DescriptorLink, id: int, name: string)
    ensures DescriptorLinksOf(links + [l], id, name)
            == DescriptorLinksOf(links, id, name) + (if LinkSelected(l, id, name) then [l] else [])
  {
    if links == [] {
      assert links + [l] == [l];
    } else {
      assert (links + [l])[1..] == links[1..] + [l];
      LinksOfAppend(links[1..], l, id, name);
    }
  }

  /** The core and descriptor-link tables of the database, and the descriptor tables
      other interfaces keep in the same database (name to the ids it holds), which this
      core only reads. */
  class CoreDB {
    var objects: Table
    var links: seq<DescriptorLink>
    var descriptorTables: map<string, set<int>>

    ghost predicate HasSentinels()
      reads this
    {
      -1 in objects && 0 in objects
    }

    /** Opens the store over existing tables and runs the sentinel bootstrap. */
    constructor (existing: Table, existingLinks: seq<DescriptorLink>, tables: map<string, set<int>>)
      ensures objects == Bootstrap(existing)
      ensures links == existingLinks && descriptorTables == tables
      ensures HasSentinels()
    {
      objects, links, descriptorTables := existing, existingLinks, tables;
      new;
      var unvisited := SetLamaObject(UnvisitedVertex);
      var undefined := SetLamaObject(UndefinedVertex);
    }

    /** set_lama_object: validate, return early for an existing special object, delete an
        existing row unless the object is new, insert. */
    method SetLamaObject(o: LamaObject) returns (r: Result<int>)
      modifies this
      ensures links == old(links) && descriptorTables == old(descriptorTables)
      ensures match StoreObject(old(objects), o)
              case Failure(e) => r == Failure(e) && objects == old(objects)
              case Success(s) => r == Success(s.id) && objects == s.table
      ensures old(HasSentinels()) ==> HasSentinels() && objects[-1] == old(objects[-1]) && objects[0] == old(objects[0])
    {
      ghost var before := objects;
      match ReferencesError(o) {
        case Some(e) => return Failure(e);
        case None =>
      }
      var found := o.id in objects;
      if found && IsSpecial(o) {
        return Success(o.id);
      }
      if found && !IsNew(o) {
        DelLamaObject(o.id);
      }
      var id := o.id;
      if IsNew(o) {
        id := AllocateRowId(objects.Keys);
      }
      objects := objects[id := RowOf(o)];
      r := Success(id);
      if -1 in before && 0 in before {
        SetKeepsSentinels(before, o);
      }
    }

    /** del_lama_object: removes the row if there is one; no error otherwise. */
    method DelLamaObject(id: int)
      modifies this
      ensures objects == old(objects) - {id}
      ensures links == old(links) && descriptorTables == old(descriptorTables)
    {
      objects := objects - {id};
    }

    /** The insert of a descriptor link, once the caller has validated it. */
    method AddDescriptorLink(l: DescriptorLink)
      modifies this
      ensures links == old(links) + [l]
      ensures objects == old(objects) && descriptorTables == old(descriptorTables)
    {
      links := links + [l];
    }
  }
}
