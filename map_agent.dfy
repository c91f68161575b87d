/** MapAgentInterface: the ActOnMap service, which takes one action-coded request,
    checks it and routes it onto the core store. */
module MapAgent {
  import opened LamaTypes
  import opened CoreStore
  import opened ListQuery

  /** The actions the service implements. */
  datatype Action =
    | PushVertex | PullVertex | AssignDescriptorVertex
    | PushEdge | PullEdge | AssignDescriptorEdge
    | GetVertexList | GetEdgeList | GetDescriptorLinks
    | GetNeighborVertices | GetOutgoingEdges

  /** The wire code of each action. */
  function CodeOf(a: Action): int
  {
    match a
    case PushVertex => 1
    case PullVertex => 2
    case AssignDescriptorVertex => 3
    case PushEdge => 4
    case PullEdge => 5
    case AssignDescriptorEdge => 6
    case GetVertexList => 7
    case GetEdgeList => 8
    case GetDescriptorLinks => 9
    case GetNeighborVertices => 10
    case GetOutgoingEdges => 11
  }

  /** The action a wire code names, if any: the lookup in the callback table. */
  function ActionOf(code: int): (a: Option<Action>)
    ensures a.Some? <==> 1 <= code <= 11
    ensures a.Some? ==> CodeOf(a.value) == code
  {
    if code == 1 then Some(PushVertex)
    else if code == 2 then Some(PullVertex)
    else if code == 3 then Some(AssignDescriptorVertex)
    else if code == 4 then Some(PushEdge)
    else if code == 5 then Some(PullEdge)
    else if code == 6 then Some(AssignDescriptorEdge)
    else if code == 7 then Some(GetVertexList)
    else if code == 8 then Some(GetEdgeList)
    else if code == 9 then Some(GetDescriptorLinks)
    else if code == 10 then Some(GetNeighborVertices)
    else if code == 11 then Some(GetOutgoingEdges)
    else None
  }

  /** Every action is reached by its own code and by no other. */
  lemma ActionCodesRoundTrip(a: Action, code: int)
    ensures ActionOf(CodeOf(a)) == Some(a)
    ensures ActionOf(code) == Some(a) ==> code == CodeOf(a)
  {
  }

  datatype Request = Request(action: int, obj: LamaObject, interfaceName: string, descriptorId: int)

  datatype Response = Response(objects: seq<LamaObject>, descriptorLinks: seq<DescriptorLink>)

  /** The type check and type forcing the dispatcher applies to pushes before routing:
      a push whose object carries the other kind is refused, otherwise the object gets
      the pushed kind; every other request goes through untouched. */
  function NormalizePush(req: Request): (r: Result<Request>)
    ensures req.action == CodeOf(PushVertex) ==>
              && (r.Success? <==> req.obj.kind == 0 || req.obj.kind == VERTEX)
              && (r.Failure? ==> r.error == NotAVertex)
              && (r.Success? ==> r.value == req.(obj := req.obj.(kind := VERTEX)))
    ensures req.action == CodeOf(PushEdge) ==>
              && (r.Success? <==> req.obj.kind == 0 || req.obj.kind == EDGE)
              && (r.Failure? ==> r.error == NotAnEdge)
              && (r.Success? ==> r.value == req.(obj := req.obj.(kind := EDGE)))
    ensures req.action != CodeOf(PushVertex) && req.action != CodeOf(PushEdge) ==> r == Success(req)
  {
    if req.action == CodeOf(PushVertex) && req.obj.kind != 0 && req.obj.kind != VERTEX then
      Failure(NotAVertex)
    else if req.action == CodeOf(PushEdge) && req.obj.kind != 0 && req.obj.kind != EDGE then
      Failure(NotAnEdge)
    else if req.action == CodeOf(PushEdge) then
      Success(req.(obj := req.obj.(kind := EDGE)))
    else if req.action == CodeOf(PushVertex) then
      Success(req.(obj := req.obj.(kind := VERTEX)))
    else
      Success(req)
  }

  function VertexFilter(o: LamaObject): LamaObject
  {
    o.(kind := VERTEX)
  }

  function EdgeFilter(o: LamaObject): LamaObject
  {
    o.(kind := EDGE)
  }

  /** The fresh request GET_OUTGOING_EDGES hands to GET_EDGE_LIST: a default object of
      kind edge whose first reference is the vertex. */
  function OutgoingRequest(vertex: int): Request
  {
    Request(0, DefaultObject.(kind := EDGE, references := [vertex, 0]), "", 0)
  }

  /** The filter GET_OUTGOING_EDGES ends up querying with. */
  function OutgoingFilter(vertex: int): (f: LamaObject)
    ensures Buildable(f)
  {
    EdgeFilter(OutgoingRequest(vertex).obj)
  }

  /** The outgoing-edge filter selects exactly the edges whose first reference is the
      vertex (every edge, for vertex 0, whose reference is not a filter). */
  lemma OutgoingFilterSelectsEdgesFrom(vertex: int, id: int, row: Row)
    ensures ListMatches(OutgoingFilter(vertex), id, row)
            <==> id != 0 && row.kind == EDGE && (vertex != 0 ==> row.v0 == vertex)
  {
  }

  /** The order of the checks of ASSIGN_DESCRIPTOR_*: the object, then a non-empty
      interface name, then the interface's table, then the descriptor in it. */
  function AssignError(t: Table, tables: map<string, set<int>>, req: Request): (e: Option<Error>)
    ensures e.None? <==>
              && req.obj.id in t
              && req.interfaceName != ""
              && req.interfaceName in tables
              && req.descriptorId in tables[req.interfaceName]
    ensures req.obj.id !in t ==> e == Some(NoSuchObject(req.obj.id))
    ensures req.obj.id in t && req.interfaceName == "" ==> e == Some(MissingInterfaceName)
    ensures req.obj.id in t && req.interfaceName != "" && req.interfaceName !in tables
            ==> e == Some(NoSuchInterface(req.interfaceName))
    ensures req.obj.id in t && req.interfaceName in tables && req.interfaceName != ""
            && req.descriptorId !in tables[req.interfaceName]
            ==> e == Some(NoSuchDescriptor(req.descriptorId))
  {
    if req.obj.id !in t then Some(NoSuchObject(req.obj.id))
    else if req.interfaceName == "" then Some(MissingInterfaceName)
    else if req.interfaceName !in tables then Some(NoSuchInterface(req.interfaceName))
    else if req.descriptorId !in tables[req.interfaceName] then Some(NoSuchDescriptor(req.descriptorId))
    else None
  }

  /** The link an accepted attach request records. */
  function LinkOf(req: Request): DescriptorLink
  {
    DescriptorLink(req.obj.id, req.descriptorId, req.interfaceName)
  }

  /** PUSH_*: the outcome of storing the (normalized) object. */
  ghost predicate Pushed(t0: Table, t1: Table, o: LamaObject, r: Result<Response>)
  {
    match StoreObject(t0, o)
    case Failure(e) => r == Failure(e) && t1 == t0
    case Success(s) => r == Success(Response([o.(id := s.id)], [])) && t1 == s.table
  }

  /** PULL_*: the object and all of its links, unfiltered. */
  ghost predicate Pulled(t: Table, links: seq<DescriptorLink>, id: int, r: Result<Response>)
  {
    match GetLamaObject(t, id)
    case Failure(e) => r == Failure(e)
    case Success(o) => r == Success(Response([o], DescriptorLinksOf(links, id, "")))
  }

  /** ASSIGN_DESCRIPTOR_*: the first failing check, or exactly one new link. */
  ghost predicate Assigned(t: Table, tables: map<string, set<int>>, links0: seq<DescriptorLink>,
                           links1: seq<DescriptorLink>, req: Request, r: Result<Response>)
  {
    match AssignError(t, tables, req)
    case Some(e) => r == Failure(e) && links1 == links0
    case None => r == Success(Response([], [])) && links1 == links0 + [LinkOf(req)]
  }

  /** GET_*_LIST: the matching objects, or the failure of a filter that cannot be built. */
  ghost predicate Listed(t: Table, f: LamaObject, r: Result<Response>)
  {
    if Buildable(f) then
      r.Success? && r.value.descriptorLinks == [] && ListedExactly(t, f, r.value.objects)
    else
      r == Failure(MalformedReferences(|f.references|))
  }

  /** GET_DESCRIPTOR_LINKS: the request's object echoed, and its links for the interface. */
  ghost predicate LinksListed(links: seq<DescriptorLink>, req: Request, r: Result<Response>)
  {
    r == Success(Response([req.obj], DescriptorLinksOf(links, req.obj.id, req.interfaceName)))
  }

  /** What one routed request does, given the tables before (t0, links0) and after. */
  ghost predicate Dispatched(t0: Table, links0: seq<DescriptorLink>, t1: Table, links1: seq<DescriptorLink>,
                             tables: map<string, set<int>>, req: Request, r: Result<Response>)
  {
    match ActionOf(req.action)
    case None => r == Failure(ActionNotImplemented(req.action)) && t1 == t0 && links1 == links0
    case Some(a) =>
      match a
      case PushVertex => links1 == links0 && Pushed(t0, t1, req.obj, r)
      case PushEdge => links1 == links0 && Pushed(t0, t1, req.obj, r)
      case PullVertex => t1 == t0 && links1 == links0 && Pulled(t0, links0, req.obj.id, r)
      case PullEdge => t1 == t0 && links1 == links0 && Pulled(t0, links0, req.obj.id, r)
      case AssignDescriptorVertex => t1 == t0 && Assigned(t0, tables, links0, links1, req, r)
      case AssignDescriptorEdge => t1 == t0 && Assigned(t0, tables, links0, links1, req, r)
      case GetVertexList => t1 == t0 && links1 == links0 && Listed(t0, VertexFilter(req.obj), r)
      case GetEdgeList => t1 == t0 && links1 == links0 && Listed(t0, EdgeFilter(req.obj), r)
      case GetDescriptorLinks => t1 == t0 && links1 == links0 && LinksListed(links0, req, r)
      case GetNeighborVertices => t1 == t0 && links1 == links0 && r == Success(Response([], []))
      case GetOutgoingEdges => t1 == t0 && links1 == links0 && Listed(t0, OutgoingFilter(req.obj.id), r)
  }

  /** A pull answers with the stored object and every link of it, whatever the interface. */
  lemma PullReturnsObjectWithAllLinks(t: Table, links: seq<DescriptorLink>, id: int, r: Result<Response>)
    requires Pulled(t, links, id, r)
    ensures r.Success? <==> id in t
    ensures r.Failure? ==> r.error == NoSuchObject(id)
    ensures r.Success? ==> r.value.objects == [ObjectOf(id, t[id])]
    ensures r.Success? ==> forall l :: l in r.value.descriptorLinks <==> l in links && l.objectId == id
  {
  }

  /** After an accepted attach, a read of the object's links for that interface gives what
      it gave before plus exactly the new link, and a wildcard read includes it. */
  lemma {:induction false} AssignedLinkIsRetrievable(t: Table, tables: map<string, set<int>>,
      links0: seq<DescriptorLink>, links1: seq<DescriptorLink>, req: Request, r: Result<Response>)
    requires Assigned(t, tables, links0, links1, req, r) && r.Success?
    ensures DescriptorLinksOf(links1, req.obj.id, req.interfaceName)
            == DescriptorLinksOf(links0, req.obj.id, req.interfaceName) + [LinkOf(req)]
    ensures DescriptorLinksOf(links1, req.obj.id, "*")
            == DescriptorLinksOf(links0, req.obj.id, "*") + [LinkOf(req)]
  {
    LinksOfAppend(links0, LinkOf(req), req.obj.id, req.interfaceName);
    LinksOfAppend(links0, LinkOf(req), req.obj.id, "*");
  }

  /** The ActOnMap service over one core store. */
  class MapAgentInterface {
    const core: CoreDB

    constructor (existing: Table, existingLinks: seq<DescriptorLink>, tables: map<string, set<int>>)
      ensures fresh(core)
      ensures core.objects == Bootstrap(existing)
      ensures core.links == existingLinks && core.descriptorTables == tables
    {
      core := new CoreDB(existing, existingLinks, tables);
    }

    /** action_callback: refuse a push of the wrong kind, force the pushed kind, refuse
        an unknown code, and route the request to its callback. */
    method ActionCallback(req: Request) returns (r: Result<Response>)
      modifies core
      ensures core.descriptorTables == old(core.descriptorTables)
      ensures match NormalizePush(req)
              case Failure(e) => r == Failure(e) && unchanged(core)
              case Success(msg) =>
                Dispatched(old(core.objects), old(core.links), core.objects, core.links,
                           old(core.descriptorTables), msg, r)
      ensures old(core.HasSentinels()) ==> core.HasSentinels()
    {
      var normalized := NormalizePush(req);
      if normalized.Failure? {
        return Failure(normalized.error);
      }
      var msg := normalized.value;
      match ActionOf(msg.action) {
        case None =>
          r := Failure(ActionNotImplemented(msg.action));
        case Some(a) =>
          match a {
            case PushVertex => r := PushLamaObject(msg);
            case PullVertex => r := PullLamaObject(msg);
            case AssignDescriptorVertex => r := AssignDescriptorToLamaObject(msg);
            case PushEdge => r := PushLamaObject(msg);
            case PullEdge => r := PullLamaObject(msg);
            case AssignDescriptorEdge => r := AssignDescriptorToLamaObject(msg);
            case GetVertexList => r := GetVertexList(msg);
            case GetEdgeList => r := GetEdgeList(msg);
            case GetDescriptorLinks => r := GetDescriptorLinks(msg);
            case GetNeighborVertices => r := GetNeighborVertices(msg);
            case GetOutgoingEdges => r := GetOutgoingEdges(msg);
          }
      }
    }

    /** push_lama_object: store the object and answer with it under the id it got. */
    method PushLamaObject(msg: Request) returns (r: Result<Response>)
      modifies core
      ensures core.links == old(core.links) && core.descriptorTables == old(core.descriptorTables)
      ensures Pushed(old(core.objects), core.objects, msg.obj, r)
      ensures old(core.HasSentinels()) ==> core.HasSentinels()
    {
      var stored := core.SetLamaObject(msg.obj);
      match stored {
        case Failure(e) => r := Failure(e);
        case Success(id) => r := Success(Response([msg.obj.(id := id)], []));
      }
    }

    /** pull_lama_object: the object by id, with all of its descriptor links. */
    method PullLamaObject(msg: Request) returns (r: Result<Response>)
      ensures Pulled(core.objects, core.links, msg.obj.id, r)
      ensures r.Success? <==> msg.obj.id in core.objects
      ensures r.Success? ==> forall l :: l in r.value.descriptorLinks <==> l in core.links && l.objectId == msg.obj.id
    {
      var id := msg.obj.id;
      var got := GetLamaObject(core.objects, id);
      if got.Failure? {
        return Failure(got.error);
      }
      r := Success(Response([got.value], DescriptorLinksOf(core.links, id, "")));
    }

    /** assign_descriptor_to_lama_object: check the object, the interface name, the
        interface's table and the descriptor, then record one link. */
    method AssignDescriptorToLamaObject(msg: Request) returns (r: Result<Response>)
      modifies core
      ensures core.objects == old(core.objects) && core.descriptorTables == old(core.descriptorTables)
      ensures Assigned(old(core.objects), old(core.descriptorTables), old(core.links), core.links, msg, r)
      ensures old(core.HasSentinels()) ==> core.HasSentinels()
    {
      var objectId := msg.obj.id;
      if objectId !in core.objects {
        return Failure(NoSuchObject(objectId));
      }
      if msg.interfaceName == "" {
        return Failure(MissingInterfaceName);
      }
      if msg.interfaceName !in core.descriptorTables {
        return Failure(NoSuchInterface(msg.interfaceName));
      }
      if msg.descriptorId !in core.descriptorTables[msg.interfaceName] {
        return Failure(NoSuchDescriptor(msg.descriptorId));
      }
      core.AddDescriptorLink(LinkOf(msg));
      r := Success(Response([], []));
    }

    /** get_lama_object_list: build the query from the filter and run it. */
    method GetLamaObjectList(f: LamaObject) returns (r: Result<seq<LamaObject>>)
      ensures r.Failure? <==> !Buildable(f)
      ensures r.Failure? ==> r.error == MalformedReferences(|f.references|)
      ensures r.Success? ==> ListedExactly(core.objects, f, r.value)
    {
      var query := BuildQuery(f);
      if query.Failure? {
        return Failure(query.error);
      }
      var objects := SelectRows(core.objects, query.value);
      r := Success(objects);
    }

    /** get_vertex_list: the list query with the kind forced to vertex; never fails. */
    method GetVertexList(msg: Request) returns (r: Result<Response>)
      ensures r.Success? && r.value.descriptorLinks == []
      ensures ListedExactly(core.objects, VertexFilter(msg.obj), r.value.objects)
    {
      var objects := GetLamaObjectList(VertexFilter(msg.obj));
      r := Success(Response(objects.value, []));
    }

    /** get_edge_list: the list query with the kind forced to edge. */
    method GetEdgeList(msg: Request) returns (r: Result<Response>)
      ensures r.Failure? <==> |msg.obj.references| < 2
      ensures Listed(core.objects, EdgeFilter(msg.obj), r)
    {
      var objects := GetLamaObjectList(EdgeFilter(msg.obj));
      if objects.Failure? {
        return Failure(objects.error);
      }
      r := Success(Response(objects.value, []));
    }

    /** get_descriptor_links: the request's object and its links, restricted to the
        request's interface name when that name restricts. */
    method GetDescriptorLinks(msg: Request) returns (r: Result<Response>)
      ensures LinksListed(core.links, msg, r)
      ensures r.Success? && r.value.objects == [msg.obj]
      ensures forall l :: l in r.value.descriptorLinks <==>
                l in core.links && LinkSelected(l, msg.obj.id, msg.interfaceName)
    {
      r := Success(Response([msg.obj], DescriptorLinksOf(core.links, msg.obj.id, msg.interfaceName)));
    }

    /** get_neighbor_vertices: not implemented by the service; answers with an empty
        response, which a caller cannot tell from an empty result. */
    method GetNeighborVertices(msg: Request) returns (r: Result<Response>)
      ensures r.Success? && r.value.objects == [] && r.value.descriptorLinks == []
    {
      r := Success(Response([], []));
    }

    /** get_outgoing_edges: GET_EDGE_LIST on a fresh request whose filter is an edge with
        the vertex as first reference, so exactly the edges leaving the vertex. */
    method GetOutgoingEdges(msg: Request) returns (r: Result<Response>)
      ensures Listed(core.objects, OutgoingFilter(msg.obj.id), r)
      ensures r.Success? && r.value.descriptorLinks == []
      ensures forall x :: x in r.value.objects <==>
                && x.id in core.objects && x.id != 0 && x == ObjectOf(x.id, core.objects[x.id])
                && core.objects[x.id].kind == EDGE
                && (msg.obj.id != 0 ==> core.objects[x.id].v0 == msg.obj.id)
    {
      r := GetEdgeList(OutgoingRequest(msg.obj.id));
      forall x ensures x in r.value.objects <==>
                && x.id in core.objects && x.id != 0 && x == ObjectOf(x.id, core.objects[x.id])
                && core.objects[x.id].kind == EDGE
                && (msg.obj.id != 0 ==> core.objects[x.id].v0 == msg.obj.id)
      {
        if x.id in core.objects {
          OutgoingFilterSelectsEdgesFrom(msg.obj.id, x.id, core.objects[x.id]);
        }
      }
    }
  }
}
