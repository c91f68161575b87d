# LaMa map core: store and ActOnMap dispatcher

This project models the core of the LaMa map interface (`interfaces/src/lama_interfaces/core_interface.py`)
and proves properties of it in Dafny.

The core has two parts:

- **`CoreDBInterface`** persists the map graph. It keeps a core table of `LamaObject`s (vertices and edges)
  keyed by an integer id, and a table of descriptor links that attach external descriptors to map objects.
  Two sentinel vertices are bootstrapped when the store opens: -1 "unvisited" and 0 "undefined".
  `set_lama_object` validates references, ignores writes to an existing special object, replaces an
  existing row by delete-then-insert, and lets the database assign the id when the caller passes id 0.
- **`MapAgentInterface`** serves the ActOnMap service. `action_callback` rejects a push whose object has
  the wrong kind, forces the pushed kind, rejects unknown action codes and routes the request to one of
  eleven callbacks (push, pull, assign descriptor, vertex/edge lists, descriptor links, neighbours,
  outgoing edges).

Files:

- `lama_types.dfy` (module `LamaTypes`): the `LamaObject` and `DescriptorLink` messages, the core-table
  `Row`, the errors, and the conversions between an object and its row.
- `core_store.dfy` (module `CoreStore`): what each storage operation does to the tables, as functions
  (`StoreObject`, `GetLamaObject`, `Bootstrap`, `DescriptorLinksOf`), the lemmas about them, and the
  class `CoreDB`. `CoreDB` holds the tables as fields; its methods perform set, delete and link insert
  step by step and are proved against those functions.
- `list_query.dfy` (module `ListQuery`): the query building of `get_lama_object_list` (a conjunction of
  column conditions, accumulated in a loop over the direct attributes) and the database's evaluation of
  it. Both are proved against `ListMatches`, a field-by-field statement of what a filter selects.
- `map_agent.dfy` (module `MapAgent`): action codes, the push type check, the check order of descriptor
  attachment, and the class `MapAgentInterface` with `ActionCallback` and every callback.

Modelling choices:

- The database is state: a `map<int, Row>` for the core table, a `seq<DescriptorLink>` for the link
  table, and a `map<string, set<int>>` for the descriptor tables that other interfaces keep in the same
  database. The core only reads that last map, as `has_table` plus a lookup by id.
- An id assigned by the database follows the rule of an SQLite integer primary key: one more than the
  largest key, or 1 in an empty table. This rule is why the source inserts the "undefined" vertex 0
  (lines 63-64): with only -1 present, the next key would be 0.
- `LamaObject.VERTEX = 1`, `LamaObject.EDGE = 2`, and action codes 1 to 11 in the order of the callback
  table are the values of the lama_interfaces message definitions. Those definitions are not part of this
  model. The proofs depend only on VERTEX, EDGE and 0 being distinct and on the codes being distinct.
- The source changes the request message in place (it forces `type`, and resets the references of a
  vertex filter). The model derives new values instead. The response is the same.
- Reading `references[0]` and `references[1]` of an edge filter that has fewer than two references raises
  an IndexError in the source. The model turns this into `Failure(MalformedReferences(n))`.
- The database returns rows in an order it chooses. List results are therefore specified by membership,
  with each id appearing once. Descriptor links are returned in table order.

Behaviour of the code that a reader might not expect, modelled as written:

- GET_NEIGHBOR_VERTICES answers with an empty successful response (lines 558-561), not a tagged
  "not implemented" failure.
- A vertex list with an empty filter returns the "unvisited" vertex -1 as well. Only id 0 is excluded
  (line 475).
- A write is a no-op only when its special id already exists. An object named "undefined" with an absent
  id is inserted under that id. An object named "undefined" whose id exists is ignored, even if that id
  is an ordinary vertex (lines 202-216).
- Deleting an absent id is a silent no-op (lines 246-253). `del_lama_object` does not protect the
  sentinels. No write deletes them, and `SetKeepsSentinels` proves this.

## Model

| member | source | states |
|---|---|---|
| `LamaTypes.StoredObjectReadsBack` | interfaces/src/lama_interfaces/core_interface.py:123-129 | reading back the row an object was inserted as gives the object, with references rebuilt from v0/v1 |
| `LamaTypes.ReadRowStoresBack` | interfaces/src/lama_interfaces/core_interface.py:223-231 | a row read as an object and inserted again gives the same row |
| `CoreStore.ReferencesError` | interfaces/src/lama_interfaces/core_interface.py:194-200 | a write is refused exactly when references do not have length 2, or when an edge has a 0 reference; a length error is reported first |
| `CoreStore.NextRowId` | interfaces/src/lama_interfaces/core_interface.py:232-241 | a database-assigned key is not in use and is above every key in use |
| `CoreStore.AllocateRowId` | interfaces/src/lama_interfaces/core_interface.py:232-241 | the scan over the keys in use computes the assigned key |
| `CoreStore.StoreObject` | interfaces/src/lama_interfaces/core_interface.py:185-244 | set_lama_object fails exactly on invalid references; otherwise the new table holds the old keys plus the returned id, and no other row changes |
| `CoreStore.GetLamaObject` | interfaces/src/lama_interfaces/core_interface.py:162-183 | get fails with NoSuchObject exactly when the id is absent; otherwise it returns the stored row under that id with two references |
| `CoreStore.Bootstrap` | interfaces/src/lama_interfaces/core_interface.py:55-69 | after the bootstrap both sentinel ids are present |
| `CoreStore.SpecialWriteIsNoop` | interfaces/src/lama_interfaces/core_interface.py:202-216 | a valid write to an existing special object returns its id and leaves the table as it was |
| `CoreStore.SetThenGet` | interfaces/src/lama_interfaces/core_interface.py:218-241 | any other valid write succeeds; reading back the returned id gives exactly the written fields (a full replace) under the caller's id unless the object is new |
| `CoreStore.NewObjectGetsFreshPositiveId` | interfaces/src/lama_interfaces/core_interface.py:232-241 | a new object (id 0, not "undefined") is inserted under an id not in use before, which is positive once vertex 0 exists; nothing else changes |
| `CoreStore.SuccessiveNewIdsDiffer` | interfaces/src/lama_interfaces/core_interface.py:232-241 | two new objects stored in a row get different ids |
| `CoreStore.SetKeepsSentinels` | interfaces/src/lama_interfaces/core_interface.py:202-220 | once both sentinels exist, no write removes or alters either of them |
| `CoreStore.BootstrapInstallsSentinels` | interfaces/src/lama_interfaces/core_interface.py:55-69 | the bootstrap adds the "unvisited" and "undefined" rows where they are missing and leaves every existing row unchanged |
| `CoreStore.BootstrapIdempotent` | interfaces/src/lama_interfaces/core_interface.py:55-69 | running the bootstrap on a bootstrapped table changes nothing |
| `CoreStore.DescriptorLinksOf` | interfaces/src/lama_interfaces/core_interface.py:255-288 | a link is returned exactly when it belongs to the object and, for a name other than "" or "*", to that interface |
| `CoreStore.LinksOfAppend` | interfaces/src/lama_interfaces/core_interface.py:269-288 | appending a link extends a read that selects it by exactly that link and leaves other reads unchanged |
| `CoreStore.CoreDB.constructor` | interfaces/src/lama_interfaces/core_interface.py:29-69 | opening the store over existing tables leaves the core table equal to its bootstrap, with both sentinels present |
| `CoreStore.CoreDB.SetLamaObject` | interfaces/src/lama_interfaces/core_interface.py:185-244 | the step-by-step check, delete and insert produce the returned id and table that StoreObject gives; links are untouched; sentinels survive |
| `CoreStore.CoreDB.DelLamaObject` | interfaces/src/lama_interfaces/core_interface.py:246-253 | removes the row with that id if there is one, and nothing else |
| `CoreStore.CoreDB.AddDescriptorLink` | interfaces/src/lama_interfaces/core_interface.py:441-454 | appends exactly one link and changes nothing else |
| `ListQuery.BuildQuery` | interfaces/src/lama_interfaces/core_interface.py:470-483 | the accumulated conditions hold exactly for rows with id other than 0 that agree with every non-default attribute and, outside vertex filters, every non-zero reference; fails exactly when those references cannot be read |
| `ListQuery.SelectRows` | interfaces/src/lama_interfaces/core_interface.py:486-496 | returns exactly the stored objects whose rows satisfy the query, each id once |
| `MapAgent.ActionOf` | interfaces/src/lama_interfaces/core_interface.py:337-354 | exactly the eleven codes 1 to 11 name an action, and each names the action with that code |
| `MapAgent.ActionCodesRoundTrip` | interfaces/src/lama_interfaces/core_interface.py:337-351 | every action is reached by its own code and by no other |
| `MapAgent.NormalizePush` | interfaces/src/lama_interfaces/core_interface.py:321-335 | a push is refused exactly when its object's kind is neither 0 nor the pushed kind, checked before the kind is forced; an accepted push gets the pushed kind; other requests pass through unchanged |
| `MapAgent.OutgoingFilter` | interfaces/src/lama_interfaces/core_interface.py:576-578 | the fresh edge filter can always be built |
| `MapAgent.OutgoingFilterSelectsEdgesFrom` | interfaces/src/lama_interfaces/core_interface.py:563-579 | the fresh filter selects exactly the edges, other than id 0, whose first reference is the vertex (every edge for vertex 0) |
| `MapAgent.AssignError` | interfaces/src/lama_interfaces/core_interface.py:406-439 | attachment is accepted exactly when the object exists, the interface name is non-empty, its table exists and holds the descriptor id; otherwise the first failing check in that order is reported |
| `MapAgent.PullReturnsObjectWithAllLinks` | interfaces/src/lama_interfaces/core_interface.py:389-394 | a pull succeeds exactly when the object exists and then returns that object and every link of it, unfiltered by interface |
| `MapAgent.AssignedLinkIsRetrievable` | interfaces/src/lama_interfaces/core_interface.py:441-454 | after an accepted attach, reading the object's links for that interface, or with "*", gives the earlier result plus exactly the new link |
| `MapAgent.MapAgentInterface.constructor` | interfaces/src/lama_interfaces/core_interface.py:293-310 | the agent opens a fresh bootstrapped core store over the existing tables |
| `MapAgent.MapAgentInterface.ActionCallback` | interfaces/src/lama_interfaces/core_interface.py:312-357 | a wrong-kind push fails with nothing changed; an unknown code fails with nothing changed; every other request has exactly the effect of its callback; the descriptor registry never changes and sentinels survive |
| `MapAgent.MapAgentInterface.PushLamaObject` | interfaces/src/lama_interfaces/core_interface.py:359-373 | the response holds the pushed object under the id the store returned, and the table is the store's new table; a refused write changes nothing |
| `MapAgent.MapAgentInterface.PullLamaObject` | interfaces/src/lama_interfaces/core_interface.py:375-394 | succeeds exactly when the id exists, with the object and all of its links |
| `MapAgent.MapAgentInterface.AssignDescriptorToLamaObject` | interfaces/src/lama_interfaces/core_interface.py:396-457 | the first failing check in the order object, name, table, descriptor is reported with links unchanged; otherwise exactly one link (object, descriptor, interface) is appended and the response is empty |
| `MapAgent.MapAgentInterface.GetLamaObjectList` | interfaces/src/lama_interfaces/core_interface.py:459-496 | returns exactly the objects the filter selects, never id 0, each once, and an empty list when nothing matches; fails only on an unreadable reference filter |
| `MapAgent.MapAgentInterface.GetVertexList` | interfaces/src/lama_interfaces/core_interface.py:498-511 | never fails; returns exactly the objects a vertex filter selects, ignoring references |
| `MapAgent.MapAgentInterface.GetEdgeList` | interfaces/src/lama_interfaces/core_interface.py:513-529 | returns exactly the objects an edge filter selects; fails exactly when the filter has fewer than two references |
| `MapAgent.MapAgentInterface.GetDescriptorLinks` | interfaces/src/lama_interfaces/core_interface.py:531-546 | echoes the request object and returns exactly its links, restricted to the interface when the name is neither "" nor "*" |
| `MapAgent.MapAgentInterface.GetNeighborVertices` | interfaces/src/lama_interfaces/core_interface.py:548-561 | always succeeds with an empty response |
| `MapAgent.MapAgentInterface.GetOutgoingEdges` | interfaces/src/lama_interfaces/core_interface.py:563-579 | equals GET_EDGE_LIST on the fresh filter, so returns exactly the stored edges leaving the vertex |

## Left out

- Schema generation, engines, connections and transactions (`_generate_schema`, `_generate_core_table`, `_generate_descriptor_table`) are not modelled. The tables are abstract state.
- ROS plumbing is not modelled: service start-up, `getter_callback`/`setter_callback`, `core_interface()`, `rospy.get_param`, logging and message class lookup.
- `_check_md5sum` is not modelled. It compares against a generated message hash, which is outside the model.
- Timestamps are not modelled: `_set_timestamp` after a write, and the timestamp columns of a descriptor link, both read the clock.
- The check-then-act race in `set_lama_object` and `assign_descriptor_to_lama_object` is not modelled. Every operation is sequential.
- The foreign key from links to objects is not enforced. Deleting an object can leave links that point to it, since the database does not check that constraint.
- int32 wire widths are not modelled. Ids and attributes are unbounded integers, and an out-of-range value fails at serialization, outside the core.
- `jockeys/include/lama_jockeys/localizing_jockey.h` is not part of this model. It declares a server base class with pure-virtual callbacks and has no logic.
