/** The nutrition page: the meal list from the recipe service, its
    categories, the name and category filters, the ingredient lines of a
    meal, and paging eight meals at a time. */
module NutritionPage {
  import opened Common
  import Text
  import Paging
  import Sequences

  /** A meal record; `ingredients[i]` and `measures[i]` are the fields
      `strIngredient<i>` and `strMeasure<i>`, absent when null or missing. */
  datatype Meal = Meal(id: string, name: string, category: string, ingredients: map<int, string>, measures: map<int, string>)

  const MealsPerPage: nat := 8
  const AllCategories: string := "All"

  predicate NameMatches(query: string, m: Meal) {
    Text.Contains(Text.Lower(m.name), Text.Lower(query))
  }

  predicate InCategory(category: string, m: Meal) {
    m.category == category
  }

  /** The criterion a kept meal meets: an empty query and the category
      "All" do not filter. */
  predicate Keep(query: string, category: string, m: Meal) {
    (query == "" || NameMatches(query, m)) && (category == AllCategories || InCategory(category, m))
  }

  /** `filterMeals`: first by name when a query is given, then by category
      unless it is "All". */
  function FilterMeals(meals: seq<Meal>, query: string, category: string): seq<Meal>
  {
    var byName := if query != "" then Sequences.Where(meals, m => NameMatches(query, m)) else meals;
    if category != AllCategories then Sequences.Where(byName, m => InCategory(category, m)) else byName
  }

  /** The filtered list keeps, in their order, exactly the meals that meet
      both criteria. */
  lemma FilterMealsSpec(meals: seq<Meal>, query: string, category: string)
    ensures FilterMeals(meals, query, category) == Sequences.Where(meals, m => Keep(query, category, m))
    ensures Sequences.IsSubsequence(FilterMeals(meals, query, category), meals)
  {
    var keep := (m: Meal) => Keep(query, category, m);
    var byName := (m: Meal) => NameMatches(query, m);
    var inCat := (m: Meal) => InCategory(category, m);
    if query != "" && category != AllCategories {
      Sequences.WhereWhere(meals, byName, inCat, keep);
    } else if query != "" {
      Sequences.WhereSame(meals, byName, keep);
    } else if category != AllCategories {
      Sequences.WhereSame(meals, inCat, keep);
    } else {
      Sequences.WhereAll(meals, keep);
    }
    Sequences.WhereIsSubsequence(meals, keep);
  }

  /** `meals.map(meal => meal.strCategory)`. */
  function CategoryColumn(meals: seq<Meal>): (r: seq<string>)
    ensures |r| == |meals| && forall k :: 0 <= k < |meals| ==> r[k] == meals[k].category
  {
    seq(|meals|, k requires 0 <= k < |meals| => meals[k].category)
  }

  function Categories(meals: seq<Meal>): seq<string>
  {
    Sequences.Dedupe(CategoryColumn(meals))
  }

  /** The loaded list and its categories: `null` meals count as none, and
      the categories come in the order their first meal appears. */
  function LoadedMeals(response: Option<seq<Meal>>): (r: (seq<Meal>, seq<string>))
    ensures response.None? ==> r == ([], [])
    ensures response.Some? ==> r.0 == response.value
    ensures forall i, j :: 0 <= i < j < |r.1| ==> r.1[i] != r.1[j]
    ensures forall c :: c in r.1 <==> exists k :: 0 <= k < |r.0| && r.0[k].category == c
    ensures forall k :: 0 <= k < |r.1| ==> r.1[k] in CategoryColumn(r.0)
    ensures forall i, j :: 0 <= i < j < |r.1| ==>
              Sequences.FirstIndex(CategoryColumn(r.0), r.1[i]) < Sequences.FirstIndex(CategoryColumn(r.0), r.1[j])
  {
    var meals := if response.Some? then response.value else [];
    var cats := Categories(meals);
    assert forall k :: 0 <= k < |meals| ==> meals[k].category in cats by {
      ghost var all := CategoryColumn(meals);
      assert forall k :: 0 <= k < |meals| ==> all[k] == meals[k].category;
    }
    (meals, cats)
  }

  // ------------------------------------------------------------ ingredients

  const MaxIngredients: nat := 20

  /** Index `i` contributes a line when its ingredient is present and not
      blank. */
  predicate HasIngredient(m: Meal, i: int) {
    i in m.ingredients && m.ingredients[i] != "" && !Text.IsBlank(m.ingredients[i])
  }

  /** `` `${measure || ""} ${ingredient}`.trim() ``. */
  function IngredientLine(m: Meal, i: int): string
    requires i in m.ingredients
  {
    var measure := if i in m.measures then m.measures[i] else "";
    Text.Trim(measure + " " + m.ingredients[i])
  }

  /** The lines of indices 1..n, in index order. */
  function IngredientLines(m: Meal, n: nat): (r: seq<string>)
    ensures |r| <= n
  {
    if n == 0 then []
    else IngredientLines(m, n - 1) + (if HasIngredient(m, n) then [IngredientLine(m, n)] else [])
  }

  /** `getIngredients`: nothing for no meal, otherwise one line per present
      ingredient among the twenty slots. */
  method GetIngredients(meal: Option<Meal>) returns (lines: seq<string>)
    ensures meal.None? ==> lines == []
    ensures meal.Some? ==> lines == IngredientLines(meal.value, MaxIngredients)
  {
    if meal.None? {
      return [];
    }
    var m := meal.value;
    lines := [];
    var i := 1;
    while i <= MaxIngredients
      invariant 1 <= i <= MaxIngredients + 1
      invariant lines == IngredientLines(m, i - 1)
    {
      if i in m.ingredients && m.ingredients[i] != "" && Text.Trim(m.ingredients[i]) != "" {
        var measure := if i in m.measures then m.measures[i] else "";
        lines := lines + [Text.Trim(measure + " " + m.ingredients[i])];
      }
      i := i + 1;
    }
  }

  /** No line is blank: each holds the ingredient's non-space character. */
  lemma {:induction false} IngredientLinesNotBlank(m: Meal, n: nat)
    ensures forall k :: 0 <= k < |IngredientLines(m, n)| ==> IngredientLines(m, n)[k] != ""
  {
    if n > 0 {
      IngredientLinesNotBlank(m, n - 1);
      if HasIngredient(m, n) {
        var measure := if n in m.measures then m.measures[n] else "";
        Text.PrefixKeepsNonBlank(measure + " ", m.ingredients[n]);
        assert measure + " " + m.ingredients[n] == (measure + " ") + m.ingredients[n];
      }
    }
  }

  /** A slot with no ingredient adds nothing, whatever its measure says. */
  lemma {:induction false} IngredientLinesSkipEmptySlots(m: Meal, n: nat)
    requires forall i :: 1 <= i <= n ==> !HasIngredient(m, i)
    ensures IngredientLines(m, n) == []
  {
    if n > 0 {
      IngredientLinesSkipEmptySlots(m, n - 1);
    }
  }

  // ----------------------------------------------------------------- paging

  function CurrentMeals(filtered: seq<Meal>, page: int): seq<Meal>
  {
    Paging.PageOneBased(filtered, page, MealsPerPage)
  }

  /** Page `p` holds the meals `(p-1)*8 .. p*8-1` of the filtered list. */
  lemma CurrentMealsWindow(filtered: seq<Meal>, page: int)
    requires page >= 1
    ensures var shown := CurrentMeals(filtered, page);
            && |shown| <= MealsPerPage
            && (shown != [] <==> page <= Paging.TotalPages(|filtered|, MealsPerPage))
            && forall k :: 0 <= k < |shown| ==> shown[k] == filtered[(page - 1) * MealsPerPage + k]
  {
    Paging.PageOneBasedWindow(filtered, page, MealsPerPage);
  }

  // ------------------------------------------------------------- the page

  class Nutrition {
    var meals: seq<Meal>
    var filteredMeals: seq<Meal>
    var categories: seq<string>
    var searchQuery: string
    var selectedCategory: string
    var currentPage: int
    var loading: bool
    var error: Option<string>

    /** The page's effects have run: the shown list follows the filters. */
    predicate Filtered()
      reads this
    {
      filteredMeals == FilterMeals(meals, searchQuery, selectedCategory)
    }

    constructor()
      ensures meals == [] && filteredMeals == [] && categories == []
      ensures searchQuery == "" && selectedCategory == AllCategories && currentPage == 1
      ensures !loading && error == None && Filtered()
    {
      meals, filteredMeals, categories := [], [], [];
      searchQuery, selectedCategory := "", AllCategories;
      currentPage := 1;
      loading, error := false, None;
    }

    /** `fetchMeals` and the filter effect that follows. `response` is the
      `meals` field of the answer (`None` for null); `failed` a network error. */
    method FetchMeals(response: Option<seq<Meal>>, failed: bool)
      modifies this
      ensures failed ==> meals == old(meals) && categories == old(categories) && error == Some("Failed to load meals. Please try again.")
      ensures !failed ==> (meals, categories) == LoadedMeals(response) && error == None
      ensures !loading && searchQuery == old(searchQuery) && selectedCategory == old(selectedCategory) && currentPage == old(currentPage)
      ensures old(Filtered()) ==> Filtered()
    {
      loading := true;
      error := None;
      if failed {
        error := Some("Failed to load meals. Please try again.");
      } else {
        LoadMeals(response);
      }
      loading := false;
    }

    /** The successful `fetchMeals`: meals and categories as loaded, and the
      filter effect run on them. */
    method LoadMeals(response: Option<seq<Meal>>)
      modifies this
      ensures (meals, categories) == LoadedMeals(response) && Filtered()
      ensures searchQuery == old(searchQuery) && selectedCategory == old(selectedCategory) && currentPage == old(currentPage)
      ensures loading == old(loading) && error == old(error)
    {
      var loaded := LoadedMeals(response);
      meals, categories := loaded.0, loaded.1;
      filteredMeals := FilterMeals(meals, searchQuery, selectedCategory);
    }

    /** Typing in the search box: the list is refiltered and, when the query
      changed, the page goes back to 1. */
    method SetSearchQuery(q: string)
      modifies this
      ensures searchQuery == q && selectedCategory == old(selectedCategory) && meals == old(meals) && Filtered()
      ensures currentPage == if q != old(searchQuery) then 1 else old(currentPage)
      ensures categories == old(categories) && loading == old(loading) && error == old(error)
    {
      if q != searchQuery {
        currentPage := 1;
      }
      searchQuery := q;
      filteredMeals := FilterMeals(meals, searchQuery, selectedCategory);
    }

    method SetCategory(c: string)
      modifies this
      ensures selectedCategory == c && searchQuery == old(searchQuery) && meals == old(meals) && Filtered()
      ensures currentPage == if c != old(selectedCategory) then 1 else old(currentPage)
      ensures categories == old(categories) && loading == old(loading) && error == old(error)
    {
      if c != selectedCategory {
        currentPage := 1;
      }
      selectedCategory := c;
      filteredMeals := FilterMeals(meals, searchQuery, selectedCategory);
    }

    /** `clearFilters`: no query and every category; the page resets only if
      a filter actually changed. */
    method ClearFilters()
      modifies this
      ensures searchQuery == "" && selectedCategory == AllCategories && meals == old(meals) && Filtered()
      ensures filteredMeals == meals
      ensures currentPage == if old(searchQuery) != "" || old(selectedCategory) != AllCategories then 1 else old(currentPage)
    {
      if searchQuery != "" || selectedCategory != AllCategories {
        currentPage := 1;
      }
      searchQuery := "";
      selectedCategory := AllCategories;
      filteredMeals := FilterMeals(meals, searchQuery, selectedCategory);
    }

    /** `setCurrentPage(n)`, as the pagination buttons call it: the arrows
      pass the page one below or one above, a numbered button its number. */
    method SetPage(n: int)
      modifies this
      ensures currentPage == n
      ensures meals == old(meals) && filteredMeals == old(filteredMeals) && categories == old(categories)
      ensures searchQuery == old(searchQuery) && selectedCategory == old(selectedCategory)
      ensures loading == old(loading) && error == old(error)
    {
      currentPage := n;
    }
  }
}
