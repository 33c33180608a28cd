/**
 * `MemStorage`: the in-memory implementation of the storage interface. Two
 * JavaScript `Map`s keyed by id and two auto-increment counters; every read
 * is an order-preserving filter or lookup over the maps' insertion order.
 * The search predicate is also the one `DatabaseStorage.searchTools` applies
 * to the rows it fetches.
 */
module Storage {
  import opened Wrappers
  import opened Schema
  import Seqs
  import Text
  import OrderedMaps
  import Seeds

  /**
   * The search predicate: the lower-cased query occurs in the lower-cased
   * name, the lower-cased description, or some lower-cased tag.
   */
  predicate MatchesQuery(t: Tool, query: string)
  {
    var q := Text.Lower(query);
    || Text.Includes(Text.Lower(t.name), q)
    || Text.Includes(Text.Lower(t.description), q)
    || exists i | 0 <= i < |t.tags| :: Text.Includes(Text.Lower(t.tags[i]), q)
  }

  function Matches(query: string): Tool -> bool
  {
    (t: Tool) => MatchesQuery(t, query)
  }

  function InCategory(name: string): Tool -> bool
  {
    (t: Tool) => t.category == name
  }

  function IsFeatured(): Tool -> bool
  {
    (t: Tool) => t.isFeatured
  }

  function IsPopular(): Tool -> bool
  {
    (t: Tool) => t.isPopular
  }

  /** The search is case-insensitive: queries equal up to case find the same tools. */
  lemma SearchIgnoresCase(t: Tool, q1: string, q2: string)
    requires Text.Lower(q1) == Text.Lower(q2)
    ensures MatchesQuery(t, q1) <==> MatchesQuery(t, q2)
  {
  }

  /** The empty query matches every tool. */
  lemma EmptyQueryMatches(t: Tool)
    ensures MatchesQuery(t, "")
  {
    Text.IncludesEmpty(Text.Lower(t.name));
  }

  /** A tool is found by its own name, whatever its case. */
  lemma NameMatches(t: Tool)
    ensures MatchesQuery(t, t.name)
  {
    Text.IncludesSelf(Text.Lower(t.name));
  }

  /** The ids `1 .. n - 1`, in increasing order. */
  function IdsBelow(n: int): (r: seq<int>)
    requires 1 <= n
    ensures |r| == n - 1
    ensures forall i :: 0 <= i < |r| ==> r[i] == i + 1
  {
    seq(n - 1, i requires 0 <= i < n - 1 => i + 1)
  }

  /** `ins` numbered from `first` on, as `createTool` numbers a run of inserts. */
  function Numbered(ins: seq<InsertTool>, first: int): (r: seq<Tool>)
    ensures |r| == |ins|
    ensures forall i :: 0 <= i < |ins| ==> r[i] == WithId(ins[i], first + i)
  {
    seq(|ins|, i requires 0 <= i < |ins| => WithId(ins[i], first + i))
  }

  /**
   * The listing `getAllTools(category)` returns from the tools `list`: all
   * of them when the category is absent or `all`, otherwise exactly those
   * stored under that category's string, in order.
   */
  function ToolsIn(list: seq<Tool>, category: Option<Category>): (r: seq<Tool>)
    ensures category.None? || category == Some(All) ==> r == list
    ensures category.Some? && category.value != All ==>
      Seqs.SelectsInOrder(r, list, InCategory(CategoryName(category.value)))
  {
    if category.None? || category.value == All then list
    else
      var p := InCategory(CategoryName(category.value));
      Seqs.FilterSelectsInOrder(p, list);
      Seqs.Filter(p, list)
  }

  /**
   * The listing `searchTools(query)` returns: exactly the tools the search
   * predicate accepts, in order; the empty query keeps them all.
   */
  function Search(list: seq<Tool>, query: string): (r: seq<Tool>)
    ensures Seqs.SelectsInOrder(r, list, Matches(query))
    ensures query == "" ==> r == list
  {
    Seqs.FilterSelectsInOrder(Matches(query), list);
    if query == "" then
      assert forall i :: 0 <= i < |list| ==> Matches(query)(list[i]) by {
        forall i | 0 <= i < |list| ensures Matches(query)(list[i]) {
          EmptyQueryMatches(list[i]);
        }
      }
      Seqs.FilterKeepsAll(Matches(query), list);
      Seqs.Filter(Matches(query), list)
    else
      Seqs.Filter(Matches(query), list)
  }

  /** The listing `getFeaturedTools()` returns: exactly the featured tools, in order. */
  function Featured(list: seq<Tool>): (r: seq<Tool>)
    ensures Seqs.SelectsInOrder(r, list, IsFeatured())
  {
    Seqs.FilterSelectsInOrder(IsFeatured(), list);
    Seqs.Filter(IsFeatured(), list)
  }

  /** The listing `getPopularTools()` returns: exactly the popular tools, in order. */
  function Popular(list: seq<Tool>): (r: seq<Tool>)
    ensures Seqs.SelectsInOrder(r, list, IsPopular())
  {
    Seqs.FilterSelectsInOrder(IsPopular(), list);
    Seqs.Filter(IsPopular(), list)
  }

  /** Every tool in the featured listing is featured. */
  lemma FeaturedAreFeatured(list: seq<Tool>)
    ensures forall i :: 0 <= i < |Featured(list)| ==> Featured(list)[i].isFeatured
  {
    var r := Featured(list);
    var idx :| Seqs.IsSelection(r, list, IsFeatured(), idx);
    forall i | 0 <= i < |r| ensures r[i].isFeatured {
      assert IsFeatured()(r[i]);
    }
  }

  /** Every tool in the popular listing is popular. */
  lemma PopularArePopular(list: seq<Tool>)
    ensures forall i :: 0 <= i < |Popular(list)| ==> Popular(list)[i].isPopular
  {
    var r := Popular(list);
    var idx :| Seqs.IsSelection(r, list, IsPopular(), idx);
    forall i | 0 <= i < |r| ensures r[i].isPopular {
      assert IsPopular()(r[i]);
    }
  }

  /**
   * A created tool goes to the end of exactly the listings whose filter
   * accepts it; every listing keeps what it had.
   */
  lemma ListingsAfterCreate(list: seq<Tool>, tool: Tool)
    ensures forall q :: Search(list + [tool], q) == Search(list, q) + (if MatchesQuery(tool, q) then [tool] else [])
    ensures forall c: Option<Category> ::
      ToolsIn(list + [tool], c)
        == ToolsIn(list, c) + (if c.None? || c == Some(All) || tool.category == CategoryName(c.value) then [tool] else [])
    ensures Featured(list + [tool]) == Featured(list) + (if tool.isFeatured then [tool] else [])
    ensures Popular(list + [tool]) == Popular(list) + (if tool.isPopular then [tool] else [])
  {
    forall q
      ensures Search(list + [tool], q) == Search(list, q) + (if MatchesQuery(tool, q) then [tool] else [])
    {
      Seqs.FilterSnoc(Matches(q), list, tool);
    }
    forall c: Option<Category> | c.Some? && c != Some(All)
      ensures ToolsIn(list + [tool], c) == ToolsIn(list, c) +
        (if tool.category == CategoryName(c.value) then [tool] else [])
    {
      Seqs.FilterSnoc(InCategory(CategoryName(c.value)), list, tool);
    }
    Seqs.FilterSnoc(IsFeatured(), list, tool);
    Seqs.FilterSnoc(IsPopular(), list, tool);
  }

  /** Numbering one more record of a run extends the numbered prefix by that record. */
  lemma NumberedPrefix(ins: seq<InsertTool>, first: int, i: int)
    requires 0 <= i < |ins|
    ensures Numbered(ins[..i + 1], first) == Numbered(ins[..i], first) + [WithId(ins[i], first + i)]
  {
    assert ins[..i + 1] == ins[..i] + [ins[i]];
  }

  class MemStorage {
    var users: OrderedMaps.OrderedMap<User>
    var aiTools: OrderedMaps.OrderedMap<Tool>
    var currentUserId: int
    var currentToolId: int

    /**
     * The ids handed out so far are exactly `1 .. current - 1`, in the order
     * they were handed out, and every record carries the id it is stored under.
     */
    ghost predicate Valid()
      reads this
    {
      && users.Valid() && aiTools.Valid()
      && 1 <= currentUserId && 1 <= currentToolId
      && users.keys == IdsBelow(currentUserId)
      && aiTools.keys == IdsBelow(currentToolId)
      && (forall k :: k in users.entries ==> users.entries[k].id == k)
      && (forall k :: k in aiTools.entries ==> aiTools.entries[k].id == k)
    }

    /** `Array.from(this.aiTools.values())`: the tool in place `i` has id `i + 1`. */
    function ToolList(): (r: seq<Tool>)
      reads this
      requires Valid()
      ensures |r| == currentToolId - 1
      ensures forall i :: 0 <= i < |r| ==> r[i].id == i + 1
    {
      aiTools.Values()
    }

    /** `Array.from(this.users.values())`: the user in place `i` has id `i + 1`. */
    function UserList(): (r: seq<User>)
      reads this
      requires Valid()
      ensures |r| == currentUserId - 1
      ensures forall i :: 0 <= i < |r| ==> r[i].id == i + 1
    {
      users.Values()
    }

    /**
     * Construction starts both counters at 1 and inserts the thirteen sample
     * tools, which get ids 1 to 13 in listing order.
     */
    constructor (stamp: nat -> string)
      ensures Valid()
      ensures currentUserId == 1 && currentToolId == 14
      ensures UserList() == []
      ensures ToolList() == Numbered(Seeds.SeedTools(stamp), 1)
    {
      users := OrderedMaps.Empty();
      aiTools := OrderedMaps.Empty();
      currentUserId := 1;
      currentToolId := 1;
      new;
      InitializeTools(stamp);
    }

    /** `initializeTools`: `createTool` on each sample record in turn. */
    method InitializeTools(stamp: nat -> string)
      requires Valid()
      modifies this
      ensures Valid()
      ensures ToolList() == old(ToolList()) + Numbered(Seeds.SeedTools(stamp), old(currentToolId))
      ensures currentToolId == old(currentToolId) + |Seeds.SeedTools(stamp)|
      ensures users == old(users) && currentUserId == old(currentUserId)
    {
      CreateTools(Seeds.SeedTools(stamp));
    }

    /** The `forEach` over the sample records: one `createTool` per record, in order. */
    method CreateTools(tools: seq<InsertTool>)
      requires Valid()
      modifies this
      ensures Valid()
      ensures ToolList() == old(ToolList()) + Numbered(tools, old(currentToolId))
      ensures currentToolId == old(currentToolId) + |tools|
      ensures users == old(users) && currentUserId == old(currentUserId)
    {
      for i := 0 to |tools|
        invariant Valid()
        invariant currentToolId == old(currentToolId) + i
        invariant ToolList() == old(ToolList()) + Numbered(tools[..i], old(currentToolId))
        invariant users == old(users) && currentUserId == old(currentUserId)
      {
        NumberedPrefix(tools, old(currentToolId), i);
        var created := CreateTool(tools[i]);
      }
      assert tools[..|tools|] == tools;
    }

    /** `getUser(id)`: `undefined` unless `id` was assigned. */
    function GetUser(id: int): (r: Option<User>)
      reads this
      requires Valid()
      ensures r.Some? <==> 1 <= id < currentUserId
      ensures r.Some? ==> r.value.id == id && r.value == UserList()[id - 1]
    {
      assert forall k :: k in users.keys <==> 1 <= k < currentUserId by {
        forall k ensures k in users.keys <==> 1 <= k < currentUserId {
          if 1 <= k < currentUserId { assert users.keys[k - 1] == k; }
        }
      }
      users.Get(id)
    }

    /** `getUserByUsername`: the first-inserted user with that name, if any. */
    function GetUserByUsername(username: string): (r: Option<User>)
      reads this
      requires Valid()
      ensures r.Some? ==> r.value.username == username
      ensures r.Some? ==>
        exists i :: 0 <= i < |UserList()| && UserList()[i] == r.value &&
          forall j :: 0 <= j < i ==> UserList()[j].username != username
      ensures r.None? <==> forall j :: 0 <= j < |UserList()| ==> UserList()[j].username != username
    {
      Seqs.Find((u: User) => u.username == username, UserList())
    }

    /** `createUser`: ids come from `currentUserId` exactly as tool ids do. */
    method CreateUser(insertUser: InsertUser) returns (user: User)
      requires Valid()
      modifies this
      ensures Valid()
      ensures user == UserWithId(insertUser, old(currentUserId))
      ensures currentUserId == old(currentUserId) + 1
      ensures UserList() == old(UserList()) + [user]
      ensures GetUser(user.id) == Some(user)
      ensures forall id :: id != user.id ==> GetUser(id) == old(GetUser(id))
      ensures aiTools == old(aiTools) && currentToolId == old(currentToolId)
    {
      var id := currentUserId;
      currentUserId := currentUserId + 1;
      user := UserWithId(insertUser, id);
      assert id !in users.keys;
      OrderedMaps.SetNewKeyValues(users, id, user);
      users := users.Set(id, user);
      assert users.keys == IdsBelow(currentUserId);
    }

    /** `getTool(id)`: `undefined` unless `id` was assigned. */
    function GetTool(id: int): (r: Option<Tool>)
      reads this
      requires Valid()
      ensures r.Some? <==> 1 <= id < currentToolId
      ensures r.Some? ==> r.value.id == id && r.value == ToolList()[id - 1]
    {
      assert forall k :: k in aiTools.keys <==> 1 <= k < currentToolId by {
        forall k ensures k in aiTools.keys <==> 1 <= k < currentToolId {
          if 1 <= k < currentToolId { assert aiTools.keys[k - 1] == k; }
        }
      }
      aiTools.Get(id)
    }

    /** `getAllTools(category)`, over the current insertion order. */
    function GetAllTools(category: Option<Category>): (r: seq<Tool>)
      reads this
      requires Valid()
      ensures r == ToolsIn(ToolList(), category)
      ensures category.None? || category == Some(All) ==> r == ToolList()
      ensures category.Some? && category.value != All ==>
        Seqs.SelectsInOrder(r, ToolList(), InCategory(CategoryName(category.value)))
    {
      ToolsIn(ToolList(), category)
    }

    /** `searchTools(query)`, over the current insertion order. */
    function SearchTools(query: string): (r: seq<Tool>)
      reads this
      requires Valid()
      ensures r == Search(ToolList(), query)
      ensures Seqs.SelectsInOrder(r, ToolList(), Matches(query))
      ensures query == "" ==> r == ToolList()
    {
      Search(ToolList(), query)
    }

    /** `getFeaturedTools()`, over the current insertion order. */
    function GetFeaturedTools(): (r: seq<Tool>)
      reads this
      requires Valid()
      ensures r == Featured(ToolList())
      ensures Seqs.SelectsInOrder(r, ToolList(), IsFeatured())
    {
      Featured(ToolList())
    }

    /** `getPopularTools()`, over the current insertion order. */
    function GetPopularTools(): (r: seq<Tool>)
      reads this
      requires Valid()
      ensures r == Popular(ToolList())
      ensures Seqs.SelectsInOrder(r, ToolList(), IsPopular())
    {
      Popular(ToolList())
    }

    /**
     * `createTool`: the record gets the counter's value as its id, the
     * counter moves on by one, the tool is readable back under its id and
     * goes to the end of the insertion order; nothing else changes.
     * `ListingsAfterCreate` says what that does to every listing.
     */
    method CreateTool(insertTool: InsertTool) returns (tool: Tool)
      requires Valid()
      modifies this
      ensures Valid()
      ensures tool == WithId(insertTool, old(currentToolId))
      ensures currentToolId == old(currentToolId) + 1
      ensures ToolList() == old(ToolList()) + [tool]
      ensures GetTool(tool.id) == Some(tool)
      ensures forall id :: id != tool.id ==> GetTool(id) == old(GetTool(id))
      ensures users == old(users) && currentUserId == old(currentUserId)
    {
      var id := currentToolId;
      currentToolId := currentToolId + 1;
      tool := WithId(insertTool, id);
      assert id !in aiTools.keys;
      OrderedMaps.SetNewKeyValues(aiTools, id, tool);
      aiTools := aiTools.Set(id, tool);
      assert aiTools.keys == IdsBelow(currentToolId);
    }
  }
}
