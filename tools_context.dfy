/**
 * The client's filter state: the selected category, the search query, and
 * the effect that clears the search whenever the category changes. React
 * applies state updates after the event handler and then runs the effects
 * whose dependencies changed; `RunEffects` is that commit step, and
 * `effectCategory` is the category the effect last ran for.
 */
module ToolsContext {
  import opened Schema
  import Text

  class ToolsState {
    var category: Category
    var searchQuery: string
    var effectCategory: Category

    /** No change of category is waiting for its effect. */
    predicate Settled()
      reads this
    {
      effectCategory == category
    }

    /** The provider mounts with category "all" and an empty query; the mount effect clears the (empty) query. */
    constructor ()
      ensures category == All && searchQuery == "" && Settled()
    {
      category := All;
      searchQuery := "";
      effectCategory := All;
    }

    /** `setCategory(c)`. */
    method SetCategory(c: Category)
      modifies this
      ensures category == c && searchQuery == old(searchQuery) && effectCategory == old(effectCategory)
    {
      category := c;
    }

    /** `setSearchQuery(q)`. */
    method SetSearchQuery(q: string)
      modifies this
      ensures searchQuery == q && category == old(category) && effectCategory == old(effectCategory)
    {
      searchQuery := q;
    }

    /**
     * The commit after a handler: the effect on `[category]` runs only if
     * the category differs from the one it last ran for, and then clears
     * the search query.
     */
    method RunEffects()
      modifies this
      ensures Settled() && category == old(category)
      ensures old(category) != old(effectCategory) ==> searchQuery == ""
      ensures old(category) == old(effectCategory) ==> searchQuery == old(searchQuery)
    {
      if category != effectCategory {
        effectCategory := category;
        searchQuery := "";
      }
    }

    /**
     * `searchTools(query)`, the handler alone: a blank query (empty after
     * trimming) empties the search and keeps the category; any other query
     * is stored as given, untrimmed, and the category goes back to "all".
     */
    method SearchTools(query: string)
      modifies this
      ensures Text.IsBlank(query) ==> searchQuery == "" && category == old(category)
      ensures !Text.IsBlank(query) ==> searchQuery == query && category == All
      ensures effectCategory == old(effectCategory)
    {
      Text.TrimEmptyIff(query);
      if Text.Trim(query) == "" {
        SetSearchQuery("");
        return;
      }
      SetSearchQuery(query);
      if category != All {
        SetCategory(All);
      }
    }

    /**
     * A search followed by its commit, as the code is written: a non-blank
     * search issued while another category is selected changes the
     * category, so the effect then clears the query that was just stored.
     */
    method Search(query: string)
      requires Settled()
      modifies this
      ensures Settled() && (Text.IsBlank(query) ==> category == old(category))
      ensures !Text.IsBlank(query) ==> category == All
      ensures Text.IsBlank(query) ==> searchQuery == ""
      ensures !Text.IsBlank(query) && old(category) == All ==> searchQuery == query
      ensures !Text.IsBlank(query) && old(category) != All ==> searchQuery == ""
    {
      SearchTools(query);
      RunEffects();
    }

    /**
     * The search as intended: the category is reset (and its effect runs)
     * before the query is stored, so a non-blank query always survives.
     */
    method SearchIntended(query: string)
      requires Settled()
      modifies this
      ensures Settled() && (Text.IsBlank(query) ==> category == old(category))
      ensures !Text.IsBlank(query) ==> category == All
      ensures Text.IsBlank(query) ==> searchQuery == ""
      ensures !Text.IsBlank(query) ==> searchQuery == query
    {
      Text.TrimEmptyIff(query);
      if Text.Trim(query) == "" {
        SetSearchQuery("");
        return;
      }
      if category != All {
        SetCategory(All);
        RunEffects();
      }
      SetSearchQuery(query);
    }

    /**
     * Picking a category (a `setCategory` call and its commit): choosing a
     * different one clears the search, choosing the same one keeps it.
     */
    method SelectCategory(c: Category)
      requires Settled()
      modifies this
      ensures Settled() && category == c
      ensures c != old(category) ==> searchQuery == ""
      ensures c == old(category) ==> searchQuery == old(searchQuery)
    {
      SetCategory(c);
      RunEffects();
    }
  }

  /**
   * The lost search, concretely: select "image", then search for "ai";
   * once the effects have run the query shown is empty again.
   */
  method LostSearchScenario() returns (shown: string, selected: Category)
    ensures shown == "" && selected == All
  {
    var st := new ToolsState();
    st.SelectCategory(Image);
    assert !Text.IsTrimmable("ai"[0]);
    assert !Text.IsBlank("ai");
    st.Search("ai");
    shown, selected := st.searchQuery, st.category;
  }

  /** The same steps with the intended search keep the query. */
  method KeptSearchScenario() returns (shown: string, selected: Category)
    ensures shown == "ai" && selected == All
  {
    var st := new ToolsState();
    st.SelectCategory(Image);
    assert !Text.IsTrimmable("ai"[0]);
    assert !Text.IsBlank("ai");
    st.SearchIntended("ai");
    shown, selected := st.searchQuery, st.category;
  }
}
