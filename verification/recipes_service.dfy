/** The recipe queries of one user: a sorted, paginated listing, a single
    recipe, and deletion. The recipe table is a sequence of rows and every
    query is answered from it; a failing query is an input. */
module RecipesService {
  import opened Wrappers
  import opened AppErrors

  datatype RecipeSource = Manual | Ai

  /** A row of the recipe table. Timestamps are instants in milliseconds. */
  datatype RecipeRow = RecipeRow(
    id: string, userId: string, title: string, content: string,
    source: RecipeSource, createdAt: int, updatedAt: int)

  /** A listed recipe: the row without its owner and content. */
  datatype ListItem = ListItem(id: string, title: string, source: RecipeSource, createdAt: int, updatedAt: int)

  /** A fetched recipe: the row without its owner. */
  datatype Recipe = Recipe(id: string, title: string, content: string, source: RecipeSource, createdAt: int, updatedAt: int)

  datatype SortField = UpdatedAt | CreatedAt | Title
  datatype SortDir = Asc | Desc

  /** The listing's parameters; `None` takes the default. */
  datatype ListParams = ListParams(
    userId: string, page: Option<int>, pageSize: Option<int>,
    sortField: Option<SortField>, sortDir: Option<SortDir>)

  datatype RecipePage = RecipePage(items: seq<ListItem>, total: int)

  const DefaultPage := 1
  const DefaultPageSize := 20
  const DefaultSortField := UpdatedAt
  const DefaultSortDir := Desc
  const RecipeNotFound := "Recipe not found"

  /** Lexicographic order of strings by code unit. */
  predicate StringLe(a: string, b: string)
    decreases |a|
  {
    a == [] || (b != [] && (a[0] < b[0] || (a[0] == b[0] && StringLe(a[1..], b[1..]))))
  }

  lemma {:induction false} StringLeTotal(a: string, b: string)
    ensures StringLe(a, b) || StringLe(b, a)
    decreases |a|
  {
    if a != [] && b != [] && a[0] == b[0] {
      StringLeTotal(a[1..], b[1..]);
    }
  }

  /** `a`'s sort key is at most `b`'s. */
  predicate KeyLe(a: RecipeRow, b: RecipeRow, field: SortField) {
    match field
    case UpdatedAt => a.updatedAt <= b.updatedAt
    case CreatedAt => a.createdAt <= b.createdAt
    case Title => StringLe(a.title, b.title)
  }

  /** `a` may come before `b` in the requested order. */
  predicate InOrder(a: RecipeRow, b: RecipeRow, field: SortField, dir: SortDir) {
    if dir == Asc then KeyLe(a, b, field) else KeyLe(b, a, field)
  }

  lemma InOrderTotal(a: RecipeRow, b: RecipeRow, field: SortField, dir: SortDir)
    ensures InOrder(a, b, field, dir) || InOrder(b, a, field, dir)
  {
    if field == Title { StringLeTotal(a.title, b.title); }
  }

  predicate Sorted(s: seq<RecipeRow>, field: SortField, dir: SortDir) {
    forall i :: 0 < i < |s| ==> InOrder(s[i - 1], s[i], field, dir)
  }

  /** Puts `x` into a sorted sequence, before the first row it may precede. */
  function Insert(x: RecipeRow, s: seq<RecipeRow>, field: SortField, dir: SortDir): (r: seq<RecipeRow>)
    requires Sorted(s, field, dir)
    ensures Sorted(r, field, dir)
    ensures multiset(r) == multiset(s) + multiset{x}
    ensures |r| == |s| + 1 && (r[0] == x || (s != [] && r[0] == s[0]))
  {
    if s == [] then [x]
    else if InOrder(x, s[0], field, dir) then [x] + s
    else
      InOrderTotal(x, s[0], field, dir);
      var rest := Insert(x, s[1..], field, dir);
      assert s == [s[0]] + s[1..];
      [s[0]] + rest
  }

  /** The database's ordering, as an insertion sort: a sorted permutation of
      its input. Rows with equal keys may come in either order in the
      database; this model fixes one. */
  function Sort(s: seq<RecipeRow>, field: SortField, dir: SortDir): (r: seq<RecipeRow>)
    ensures Sorted(r, field, dir)
    ensures multiset(r) == multiset(s)
    ensures |r| == |s|
  {
    if s == [] then []
    else
      assert s == [s[0]] + s[1..];
      Insert(s[0], Sort(s[1..], field, dir), field, dir)
  }

  /** The rows of one user, in table order. */
  function Owned(rows: seq<RecipeRow>, userId: string): (r: seq<RecipeRow>)
    ensures forall x :: x in r <==> x in rows && x.userId == userId
    ensures |r| <= |rows|
  {
    if rows == [] then []
    else (if rows[0].userId == userId then [rows[0]] else []) + Owned(rows[1..], userId)
  }

  /** The elements at positions `from` to `to` inclusive, as far as they
      exist. */
  function Range<T>(s: seq<T>, from: nat, to: int): (r: seq<T>)
    ensures |r| == if from >= |s| || to < from then 0 else (if to + 1 < |s| then to + 1 else |s|) - from
    ensures forall i :: 0 <= i < |r| ==> r[i] == s[from + i]
  {
    if from >= |s| || to < from then []
    else s[from..if to + 1 < |s| then to + 1 else |s|]
  }

  function Project(row: RecipeRow): ListItem {
    ListItem(row.id, row.title, row.source, row.createdAt, row.updatedAt)
  }

  function ProjectAll(rows: seq<RecipeRow>): (r: seq<ListItem>)
    ensures |r| == |rows|
    ensures forall i :: 0 <= i < |r| ==> r[i] == Project(rows[i])
  {
    if rows == [] then [] else [Project(rows[0])] + ProjectAll(rows[1..])
  }

  /** The first index of the page. */
  function Offset(page: int, pageSize: int): int {
    (page - 1) * pageSize
  }

  lemma OffsetNonNegative(page: int, pageSize: int)
    requires page >= 1 && pageSize >= 1
    ensures Offset(page, pageSize) >= 0
  {
  }

  /** The page's rows: the user's rows in the requested order, from the
      offset through offset + pageSize − 1. */
  function PageRows(rows: seq<RecipeRow>, userId: string, page: int, pageSize: int, field: SortField, dir: SortDir)
    : seq<RecipeRow>
    requires page >= 1 && pageSize >= 1
  {
    OffsetNonNegative(page, pageSize);
    var offset := Offset(page, pageSize);
    Range(Sort(Owned(rows, userId), field, dir), offset, offset + pageSize - 1)
  }

  /** The listing. The data query fails first, then the count query; a
      missing count is a total of 0. */
  function ListRecipes(rows: seq<RecipeRow>, p: ListParams, dataError: Option<string>,
                       count: Result<Option<nat>, string>): (r: Result<RecipePage, Thrown>)
    requires p.page.GetOr(DefaultPage) >= 1 && p.pageSize.GetOr(DefaultPageSize) >= 1
    ensures dataError.Some? ==> r == Failure(PlainError("Failed to fetch recipes: " + dataError.value))
    ensures dataError.None? && count.Failure? ==>
              r == Failure(PlainError("Failed to fetch recipe count: " + count.error))
    ensures r.Success? <==> dataError.None? && count.Success?
    ensures r.Success? ==> r.value.total == count.value.GetOr(0)
  {
    if dataError.Some? then Failure(PlainError("Failed to fetch recipes: " + dataError.value))
    else if count.Failure? then Failure(PlainError("Failed to fetch recipe count: " + count.error))
    else
      var page := PageRows(rows, p.userId, p.page.GetOr(DefaultPage), p.pageSize.GetOr(DefaultPageSize),
                           p.sortField.GetOr(DefaultSortField), p.sortDir.GetOr(DefaultSortDir));
      Success(RecipePage(ProjectAll(page), count.value.GetOr(0)))
  }

  /** Every listed item is one of the user's own recipes. */
  lemma ListedItemsOwned(rows: seq<RecipeRow>, p: ListParams, count: Result<Option<nat>, string>)
    requires p.page.GetOr(DefaultPage) >= 1 && p.pageSize.GetOr(DefaultPageSize) >= 1
    requires ListRecipes(rows, p, None, count).Success?
    ensures var items := ListRecipes(rows, p, None, count).value.items;
            forall i :: 0 <= i < |items| ==>
              exists row :: row in rows && row.userId == p.userId && items[i] == Project(row)
  {
    var field, dir := p.sortField.GetOr(DefaultSortField), p.sortDir.GetOr(DefaultSortDir);
    var sorted := Sort(Owned(rows, p.userId), field, dir);
    var page := PageRows(rows, p.userId, p.page.GetOr(DefaultPage), p.pageSize.GetOr(DefaultPageSize), field, dir);
    OffsetNonNegative(p.page.GetOr(DefaultPage), p.pageSize.GetOr(DefaultPageSize));
    forall i | 0 <= i < |page| ensures page[i] in rows && page[i].userId == p.userId {
      assert page[i] in sorted;
      assert page[i] in multiset(sorted);
    }
  }

  /** With the exact count the database reports, the total is the number of
      the user's recipes, and a page holds a full page size of them, or what
      is left after the offset. */
  lemma PageSizes(rows: seq<RecipeRow>, p: ListParams)
    requires p.page.GetOr(DefaultPage) >= 1 && p.pageSize.GetOr(DefaultPageSize) >= 1
    ensures var n := |Owned(rows, p.userId)|;
            var size := p.pageSize.GetOr(DefaultPageSize);
            var offset := Offset(p.page.GetOr(DefaultPage), size);
            var r := ListRecipes(rows, p, None, Success(Some(n)));
            && r.Success? && r.value.total == n
            && |r.value.items| == if n <= offset then 0 else if n - offset < size then n - offset else size
  {
    OffsetNonNegative(p.page.GetOr(DefaultPage), p.pageSize.GetOr(DefaultPageSize));
  }

  /** Page after page, the listing reads the sorted rows without a gap or
      an overlap: pages `page` and `page + 1` together are the range of both. */
  lemma PagesAdjoin<T>(s: seq<T>, page: nat, size: nat)
    requires page >= 1 && size >= 1
    ensures Range(s, Offset(page, size), Offset(page, size) + size - 1)
            + Range(s, Offset(page + 1, size), Offset(page + 1, size) + size - 1)
            == Range(s, Offset(page, size), Offset(page, size) + 2 * size - 1)
  {
    assert Offset(page + 1, size) == Offset(page, size) + size by {
      assert page * size == (page - 1) * size + size;
    }
  }

  /** The page's rows come in the requested order. */
  lemma PageSorted(rows: seq<RecipeRow>, userId: string, page: int, pageSize: int, field: SortField, dir: SortDir)
    requires page >= 1 && pageSize >= 1
    ensures Sorted(PageRows(rows, userId, page, pageSize, field, dir), field, dir)
  {
    OffsetNonNegative(page, pageSize);
  }

  function ToRecipe(row: RecipeRow): Recipe {
    Recipe(row.id, row.title, row.content, row.source, row.createdAt, row.updatedAt)
  }

  /** The first row with this id owned by this user. */
  function Find(rows: seq<RecipeRow>, userId: string, recipeId: string): (r: Option<RecipeRow>)
    ensures r.Some? ==> r.value in rows && r.value.id == recipeId && r.value.userId == userId
    ensures r.None? <==> forall x :: x in rows ==> !(x.id == recipeId && x.userId == userId)
  {
    if rows == [] then None
    else if rows[0].id == recipeId && rows[0].userId == userId then Some(rows[0])
    else Find(rows[1..], userId, recipeId)
  }

  /** One recipe of one user. A query error and a missing row are both plain
      errors, with different messages. */
  function GetRecipe(rows: seq<RecipeRow>, userId: string, recipeId: string, dbError: Option<string>)
    : (r: Result<Recipe, Thrown>)
    ensures dbError.Some? ==> r == Failure(PlainError("Failed to fetch recipe: " + dbError.value))
    ensures r.Success? ==> exists x :: x in rows && x.id == recipeId && x.userId == userId && r.value == ToRecipe(x)
    ensures dbError.None? ==>
              (r == Failure(PlainError(RecipeNotFound)) <==>
                forall x :: x in rows ==> !(x.id == recipeId && x.userId == userId))
  {
    if dbError.Some? then Failure(PlainError("Failed to fetch recipe: " + dbError.value))
    else match Find(rows, userId, recipeId)
      case None => Failure(PlainError(RecipeNotFound))
      case Some(row) => Success(ToRecipe(row))
  }

  /** Another user's recipe reads exactly like a missing one. */
  lemma OthersRecipesInvisible(rows: seq<RecipeRow>, userId: string, recipeId: string)
    requires forall x :: x in rows && x.id == recipeId ==> x.userId != userId
    ensures GetRecipe(rows, userId, recipeId, None) == Failure(PlainError(RecipeNotFound))
  {
  }

  /** The rows a delete of `recipeId` by `userId` matches. */
  predicate Matches(x: RecipeRow, userId: string, recipeId: string) {
    x.id == recipeId && x.userId == userId
  }

  /** The table without the matching rows, and how many there were. */
  function Without(rows: seq<RecipeRow>, userId: string, recipeId: string): (r: (seq<RecipeRow>, nat))
    ensures forall x :: x in r.0 <==> x in rows && !Matches(x, userId, recipeId)
    ensures |r.0| + r.1 == |rows|
    ensures r.1 == 0 <==> forall x :: x in rows ==> !Matches(x, userId, recipeId)
  {
    if rows == [] then ([], 0)
    else
      var rest := Without(rows[1..], userId, recipeId);
      if Matches(rows[0], userId, recipeId) then (rest.0, rest.1 + 1)
      else ([rows[0]] + rest.0, rest.1)
  }

  /** Deleting one recipe: a database error is rethrown as it is; deleting
      nothing is a `NotFoundError`; otherwise the table loses exactly the
      matching rows. */
  function DeleteRecipe(rows: seq<RecipeRow>, userId: string, recipeId: string, dbError: Option<Thrown>)
    : (r: Result<seq<RecipeRow>, Thrown>)
    ensures dbError.Some? ==> r == Failure(dbError.value)
    ensures dbError.None? ==>
              (r == Failure(NotFoundError(RecipeNotFound)) <==>
                forall x :: x in rows ==> !Matches(x, userId, recipeId))
    ensures r.Success? ==> forall x :: x in r.value <==> x in rows && !Matches(x, userId, recipeId)
  {
    if dbError.Some? then Failure(dbError.value)
    else
      var (left, count) := Without(rows, userId, recipeId);
      if count == 0 then Failure(NotFoundError(RecipeNotFound)) else Success(left)
  }

  /** A second delete of the same recipe finds nothing, and other users'
      rows survive a delete. */
  lemma DeleteTwiceNotFound(rows: seq<RecipeRow>, userId: string, recipeId: string)
    requires DeleteRecipe(rows, userId, recipeId, None).Success?
    ensures var left := DeleteRecipe(rows, userId, recipeId, None).value;
            && DeleteRecipe(left, userId, recipeId, None) == Failure(NotFoundError(RecipeNotFound))
            && forall x :: x in rows && x.userId != userId ==> x in left
  {
  }
}
