/**
 * The five GET handlers and their registration order. Each handler is a
 * decision from the request's query or path parameters to a status, a
 * JSON body and the storage call it made, over the `MemStorage` model.
 * Whether a storage call throws is an input (`fails`): the in-memory
 * store throws only in `searchTools`, on a non-string query; the
 * database-backed one can throw on any call.
 */
module Routes {
  import opened Wrappers
  import opened Schema
  import Text
  import Auth
  import Storage

  /** A query-string value: absent, a string, or something else (an array or object from a repeated or nested key). */
  datatype QueryValue = Missing | Single(value: string) | Structured

  datatype Body = Message(text: string) | ToolsJson(tools: seq<Tool>) | ToolJson(tool: Tool)

  datatype Response = Response(status: int, body: Body)

  /** The storage operation a handler invoked, if any. */
  datatype StorageCall =
    | NoCall
    | GetAllToolsCall(category: Option<Category>)
    | SearchToolsCall(query: string)
    | SearchToolsWithNonString
    | GetToolCall(id: int)
    | GetFeaturedToolsCall
    | GetPopularToolsCall

  datatype Outcome = Outcome(response: Response, call: StorageCall)

  /** `Object.values(ToolCategory).join(", ")`, piece by piece. */
  lemma JoinedCategoryValues()
    ensures Text.Join(CategoryValues(), ", ")
         == "text" + ", " + "image" + ", " + "audio" + ", " + "video" + ", " + "code" + ", " + "data" + ", " + "all"
  {
    CategoryValuesListed();
    var v := CategoryValues();
    var sep := ", ";
    assert Text.Join(v[..1], sep) == v[0];
    assert Text.Join(v[..2], sep) == v[0] + sep + v[1] by { assert v[..2][..1] == v[..1]; }
    assert Text.Join(v[..3], sep) == v[0] + sep + v[1] + sep + v[2] by { assert v[..3][..2] == v[..2]; }
    assert Text.Join(v[..4], sep) == v[0] + sep + v[1] + sep + v[2] + sep + v[3] by { assert v[..4][..3] == v[..3]; }
    assert Text.Join(v[..5], sep) == v[0] + sep + v[1] + sep + v[2] + sep + v[3] + sep + v[4] by {
      assert v[..5][..4] == v[..4];
    }
    assert Text.Join(v[..6], sep) == v[0] + sep + v[1] + sep + v[2] + sep + v[3] + sep + v[4] + sep + v[5] by {
      assert v[..6][..5] == v[..5];
    }
    assert Text.Join(v, sep) == v[0] + sep + v[1] + sep + v[2] + sep + v[3] + sep + v[4] + sep + v[5] + sep + v[6] by {
      assert v[..6] == v[..|v| - 1];
    }
  }

  /** The 400 message of `/api/tools`, listing the category values joined by ", ". */
  function InvalidCategoryMessage(): (r: string)
    ensures r == "Invalid category. Must be one of: " + "text" + ", " + "image" + ", " + "audio" + ", " +
                 "video" + ", " + "code" + ", " + "data" + ", " + "all"
  {
    JoinedCategoryValues();
    "Invalid category. Must be one of: " + Text.Join(CategoryValues(), ", ")
  }

  /**
   * `GET /api/tools` after the auth gate: an absent or empty category lists
   * everything; one of the seven values is passed on; anything else is a
   * 400 and storage is not consulted.
   */
  function ListTools(s: Storage.MemStorage, category: QueryValue, fails: bool): (r: Outcome)
    reads s
    requires s.Valid()
    ensures (category.Missing? || category == Single("")) ==> r.call == GetAllToolsCall(None)
    ensures category.Single? && category.value in CategoryValues() ==>
      r.call == GetAllToolsCall(ParseCategory(category.value)) && ParseCategory(category.value).Some?
    ensures r.call.NoCall? <==>
      (category.Structured? || (category.Single? && category.value != "" && category.value !in CategoryValues()))
    ensures r.call.NoCall? ==> r.response == Response(400, Message(InvalidCategoryMessage()))
    ensures r.call.GetAllToolsCall? && fails ==> r.response == Response(500, Message("Failed to retrieve tools"))
    ensures r.call.GetAllToolsCall? && !fails ==>
      r.response == Response(200, ToolsJson(s.GetAllTools(r.call.category)))
  {
    var parsed: Option<Option<Category>> :=
      match category
      case Missing => Some(None)
      case Single(v) =>
        if v == "" then Some(None)
        else if ParseCategory(v).Some? then Some(ParseCategory(v))
        else None
      case Structured => None;
    match parsed
    case None => Outcome(Response(400, Message(InvalidCategoryMessage())), NoCall)
    case Some(c) =>
      if fails then Outcome(Response(500, Message("Failed to retrieve tools")), GetAllToolsCall(c))
      else Outcome(Response(200, ToolsJson(s.GetAllTools(c))), GetAllToolsCall(c))
  }

  /** `/api/tools` as registered: `requireAuth` first, the handler only on `next`. */
  function ListToolsRoute(s: Storage.MemStorage, userId: Option<string>, category: QueryValue, fails: bool): (r: Outcome)
    reads s
    requires s.Valid()
    ensures Auth.RequireAuth(userId).Reject? ==> r == Outcome(Response(401, Message("Authentication required")), NoCall)
    ensures Auth.RequireAuth(userId).Next? ==> r == ListTools(s, category, fails)
  {
    match Auth.RequireAuth(userId)
    case Reject(status, message) => Outcome(Response(status, Message(message)), NoCall)
    case Next => ListTools(s, category, fails)
  }

  /**
   * `GET /api/tools/search`: a missing or empty `q` is a 400; any other
   * string, whitespace included, goes to `searchTools` unchanged. A
   * non-string `q` is truthy and reaches storage, where lower-casing it
   * throws, so the answer is the route's 500.
   */
  function SearchRoute(s: Storage.MemStorage, q: QueryValue, fails: bool): (r: Outcome)
    reads s
    requires s.Valid()
    ensures (q.Missing? || q == Single("")) <==> r.call.NoCall?
    ensures r.call.NoCall? ==> r.response == Response(400, Message("Search query is required"))
    ensures q.Single? && q.value != "" ==> r.call == SearchToolsCall(q.value)
    ensures q.Single? && q.value != "" && !fails ==> r.response == Response(200, ToolsJson(s.SearchTools(q.value)))
    ensures (q.Structured? || fails) && !r.call.NoCall? ==> r.response == Response(500, Message("Failed to search tools"))
  {
    match q
    case Missing => Outcome(Response(400, Message("Search query is required")), NoCall)
    case Single(v) =>
      if v == "" then Outcome(Response(400, Message("Search query is required")), NoCall)
      else if fails then Outcome(Response(500, Message("Failed to search tools")), SearchToolsCall(v))
      else Outcome(Response(200, ToolsJson(s.SearchTools(v))), SearchToolsCall(v))
    case Structured => Outcome(Response(500, Message("Failed to search tools")), SearchToolsWithNonString)
  }

  /**
   * `GET /api/tools/:id`, given what `parseInt` made of the segment (`None`
   * for NaN): 400 for NaN, 404 when no tool has the id, the tool otherwise.
   */
  function ToolByIdRoute(s: Storage.MemStorage, parsed: Option<int>, fails: bool): (r: Outcome)
    reads s
    requires s.Valid()
    ensures parsed.None? <==> r.call.NoCall?
    ensures parsed.None? ==> r.response == Response(400, Message("Invalid tool ID"))
    ensures parsed.Some? ==> r.call == GetToolCall(parsed.value)
    ensures parsed.Some? && fails ==> r.response == Response(500, Message("Failed to retrieve tool"))
    ensures parsed.Some? && !fails ==>
      (r.response.status == 200 <==> 1 <= parsed.value < s.currentToolId)
    ensures parsed.Some? && !fails && r.response.status == 200 ==>
      r.response.body == ToolJson(s.ToolList()[parsed.value - 1]) && r.response.body.tool.id == parsed.value
    ensures parsed.Some? && !fails && r.response.status != 200 ==>
      r.response == Response(404, Message("Tool not found"))
  {
    match parsed
    case None => Outcome(Response(400, Message("Invalid tool ID")), NoCall)
    case Some(id) =>
      if fails then Outcome(Response(500, Message("Failed to retrieve tool")), GetToolCall(id))
      else match s.GetTool(id)
        case None => Outcome(Response(404, Message("Tool not found")), GetToolCall(id))
        case Some(tool) => Outcome(Response(200, ToolJson(tool)), GetToolCall(id))
  }

  /** Nothing rejects a zero or negative id: it is looked up and not found. */
  lemma NonPositiveIdNotFound(s: Storage.MemStorage, id: int)
    requires s.Valid() && id <= 0
    ensures ToolByIdRoute(s, Some(id), false) == Outcome(Response(404, Message("Tool not found")), GetToolCall(id))
  {
  }

  /** `GET /api/featured-tools`. */
  function FeaturedRoute(s: Storage.MemStorage, fails: bool): (r: Outcome)
    reads s
    requires s.Valid()
    ensures r.call == GetFeaturedToolsCall
    ensures fails ==> r.response == Response(500, Message("Failed to retrieve featured tools"))
    ensures !fails ==> r.response == Response(200, ToolsJson(s.GetFeaturedTools()))
    ensures !fails ==> forall i :: 0 <= i < |s.GetFeaturedTools()| ==> s.GetFeaturedTools()[i].isFeatured
  {
    if fails then Outcome(Response(500, Message("Failed to retrieve featured tools")), GetFeaturedToolsCall)
    else
      var tools := s.GetFeaturedTools();
      Storage.FeaturedAreFeatured(s.ToolList());
      Outcome(Response(200, ToolsJson(tools)), GetFeaturedToolsCall)
  }

  /** `GET /api/popular-tools`. */
  function PopularRoute(s: Storage.MemStorage, fails: bool): (r: Outcome)
    reads s
    requires s.Valid()
    ensures r.call == GetPopularToolsCall
    ensures fails ==> r.response == Response(500, Message("Failed to retrieve popular tools"))
    ensures !fails ==> r.response == Response(200, ToolsJson(s.GetPopularTools()))
    ensures !fails ==> forall i :: 0 <= i < |s.GetPopularTools()| ==> s.GetPopularTools()[i].isPopular
  {
    if fails then Outcome(Response(500, Message("Failed to retrieve popular tools")), GetPopularToolsCall)
    else
      var tools := s.GetPopularTools();
      Storage.PopularArePopular(s.ToolList());
      Outcome(Response(200, ToolsJson(tools)), GetPopularToolsCall)
  }

  /** The registered GET routes. */
  datatype Route = ListToolsPath | SearchPath | ToolByIdPath(segment: string) | FeaturedPath | PopularPath | NoRoute

  /**
   * Express tries the routes in registration order, so the literal
   * `/api/tools/search` is taken before the `/:id` pattern, which matches
   * any other single non-empty segment.
   */
  function Dispatch(path: seq<string>): (r: Route)
    ensures r.ToolByIdPath? ==> r.segment != "search" && r.segment != "" && path == ["api", "tools", r.segment]
    ensures path == ["api", "tools", "search"] ==> r == SearchPath
    ensures path == ["api", "tools"] ==> r == ListToolsPath
    ensures |path| == 3 && path[0] == "api" && path[1] == "tools" && path[2] != "" && path[2] != "search" ==>
      r == ToolByIdPath(path[2])
    ensures path == ["api", "featured-tools"] ==> r == FeaturedPath
    ensures path == ["api", "popular-tools"] ==> r == PopularPath
    ensures r.NoRoute? <==>
      !(|| path == ["api", "tools"]
        || (|path| == 3 && path[0] == "api" && path[1] == "tools" && path[2] != "")
        || path == ["api", "featured-tools"]
        || path == ["api", "popular-tools"])
  {
    if path == ["api", "tools"] then ListToolsPath
    else if path == ["api", "tools", "search"] then SearchPath
    else if |path| == 3 && path[0] == "api" && path[1] == "tools" && path[2] != "" then ToolByIdPath(path[2])
    else if path == ["api", "featured-tools"] then FeaturedPath
    else if path == ["api", "popular-tools"] then PopularPath
    else NoRoute
  }

  /** A GET request as the handlers see it. */
  datatype Request = Request(path: seq<string>, userIdHeader: Option<string>, category: QueryValue, q: QueryValue)

  /**
   * Serving a request: dispatch, then the route's handler; only the
   * listing route is behind `requireAuth`. `parseId` stands for `parseInt`
   * on the id segment. Unmatched paths fall through to the rest of the app.
   */
  function Handle(s: Storage.MemStorage, req: Request, parseId: string -> Option<int>, fails: bool): (r: Option<Outcome>)
    reads s
    requires s.Valid()
    ensures r.None? <==> Dispatch(req.path).NoRoute?
    ensures r.Some? && r.value.response.status == 401 ==> Dispatch(req.path).ListToolsPath?
    ensures Dispatch(req.path).ListToolsPath? ==>
      r == Some(ListToolsRoute(s, req.userIdHeader, req.category, fails))
    ensures r.Some? && r.value.call.GetToolCall? ==> Dispatch(req.path).ToolByIdPath?
    ensures Dispatch(req.path).SearchPath? ==> r == Some(SearchRoute(s, req.q, fails))
    ensures Dispatch(req.path).ToolByIdPath? ==>
      r == Some(ToolByIdRoute(s, parseId(Dispatch(req.path).segment), fails))
    ensures Dispatch(req.path).FeaturedPath? ==> r == Some(FeaturedRoute(s, fails))
    ensures Dispatch(req.path).PopularPath? ==> r == Some(PopularRoute(s, fails))
  {
    match Dispatch(req.path)
    case ListToolsPath => Some(ListToolsRoute(s, req.userIdHeader, req.category, fails))
    case SearchPath => Some(SearchRoute(s, req.q, fails))
    case ToolByIdPath(segment) => Some(ToolByIdRoute(s, parseId(segment), fails))
    case FeaturedPath => Some(FeaturedRoute(s, fails))
    case PopularPath => Some(PopularRoute(s, fails))
    case NoRoute => None
  }

  /** The search path is never read as an id, whatever `parseInt` would make of it. */
  lemma SearchNeverById(s: Storage.MemStorage, req: Request, parseId: string -> Option<int>, fails: bool)
    requires s.Valid() && req.path == ["api", "tools", "search"]
    ensures Handle(s, req, parseId, fails) == Some(SearchRoute(s, req.q, fails))
  {
  }

  /** Only the listing route can answer 401; the others ignore the header. */
  lemma OnlyListingNeedsAuth(s: Storage.MemStorage, req: Request, parseId: string -> Option<int>, fails: bool, h: Option<string>)
    requires s.Valid() && !Dispatch(req.path).ListToolsPath?
    ensures Handle(s, req, parseId, fails) == Handle(s, req.(userIdHeader := h), parseId, fails)
  {
  }
}
