/** The default orderings and the tag filter of
    `backend/apps/recipes/managers.py`, over the rows of a table in the order
    the store returns them. */
module Managers {
  import opened Queries
  import opened Recipes

  function StepOf(i: Instruction): int { i.step }
  function PositionOf(i: Ingredient): int { i.position }
  function NewestFirstKey(r: Recipe): int { -r.createdAt }

  /** `RecipeManager`: all recipes, newest first. */
  function RecipeListing(rows: seq<Recipe>): (r: seq<Recipe>)
    ensures multiset(r) == multiset(rows)
    ensures forall i, j :: 0 <= i < j < |r| ==> r[i].createdAt >= r[j].createdAt
  {
    SortBySortedPermutation(rows, NewestFirstKey);
    var sorted := SortBy(rows, NewestFirstKey);
    assert forall i, j :: 0 <= i < j < |sorted| ==> NewestFirstKey(sorted[i]) <= NewestFirstKey(sorted[j]);
    sorted
  }

  /** `InstructionManager`: instructions by ascending step. */
  function InstructionListing(rows: seq<Instruction>): (r: seq<Instruction>)
    ensures multiset(r) == multiset(rows)
    ensures SortedBy(r, StepOf)
  {
    SortBySortedPermutation(rows, StepOf);
    SortBy(rows, StepOf)
  }

  /** `IngredientManager`: ingredients by ascending position. */
  function IngredientListing(rows: seq<Ingredient>): (r: seq<Ingredient>)
    ensures multiset(r) == multiset(rows)
    ensures SortedBy(r, PositionOf)
  {
    SortBySortedPermutation(rows, PositionOf);
    SortBy(rows, PositionOf)
  }

  /** `recipe.instructions.all()`: the instructions of one recipe, through the
      default manager, so by ascending step; every instruction of the recipe
      is listed, duplicated steps included, and no other recipe's. */
  function InstructionsOf(rows: seq<Instruction>, recipe: RecipeId): (r: seq<Instruction>)
    ensures forall x :: multiset(r)[x] == if x.recipe == recipe then multiset(rows)[x] else 0
    ensures SortedBy(r, StepOf)
  {
    InstructionListing(Where(rows, (i: Instruction) => i.recipe == recipe))
  }

  /** `recipe.ingredients.all()`: the ingredients of one recipe, by ascending
      position. */
  function IngredientsOf(rows: seq<Ingredient>, recipe: RecipeId): (r: seq<Ingredient>)
    ensures forall x :: multiset(r)[x] == if x.recipe == recipe then multiset(rows)[x] else 0
    ensures SortedBy(r, PositionOf)
  {
    IngredientListing(Where(rows, (i: Ingredient) => i.recipe == recipe))
  }

  /** `user.recipes.all()`: the recipes of one author, newest first. */
  function RecipesOf(rows: seq<Recipe>, author: UserId): (r: seq<Recipe>)
    ensures forall x :: multiset(r)[x] == if x.author == author then multiset(rows)[x] else 0
    ensures forall i, j :: 0 <= i < j < |r| ==> r[i].createdAt >= r[j].createdAt
  {
    RecipeListing(Where(rows, (x: Recipe) => x.author == author))
  }

  /** The listing differs from any other step-sorted arrangement of the same
      rows only in how rows with equal steps are ordered. */
  lemma InstructionOrderUpToTies(rows: seq<Instruction>, other: seq<Instruction>)
    requires multiset(other) == multiset(rows) && SortedBy(other, StepOf)
    ensures KeysOf(InstructionListing(rows), StepOf) == KeysOf(other, StepOf)
  {
    SortedPermutationsAgreeOnKeys(InstructionListing(rows), other, StepOf);
  }

  /** The same for ingredient positions. */
  lemma IngredientOrderUpToTies(rows: seq<Ingredient>, other: seq<Ingredient>)
    requires multiset(other) == multiset(rows) && SortedBy(other, PositionOf)
    ensures KeysOf(IngredientListing(rows), PositionOf) == KeysOf(other, PositionOf)
  {
    SortedPermutationsAgreeOnKeys(IngredientListing(rows), other, PositionOf);
  }

  /** When no two ingredients share a position, the listing is the one
      arrangement of them by ascending position. */
  lemma IngredientListingDistinctPositions(rows: seq<Ingredient>, want: seq<Ingredient>)
    requires multiset(want) == multiset(rows) && SortedBy(want, PositionOf)
    requires forall i, j :: 0 <= i < j < |want| ==> want[i].position != want[j].position
    ensures IngredientListing(rows) == want
  {
    DistinctKeysDetermineOrder(IngredientListing(rows), want, PositionOf);
  }

  /** Ingredients added at positions 2, 3, 5, 1, 4 are listed by position. */
  lemma IngredientListingExample(a: Ingredient, b: Ingredient, c: Ingredient, d: Ingredient, e: Ingredient)
    requires a.position == 1 && b.position == 2 && c.position == 3 && d.position == 4 && e.position == 5
    ensures IngredientListing([b, c, e, a, d]) == [a, b, c, d, e]
  {
    var rows, want := [b, c, e, a, d], [a, b, c, d, e];
    AscendingFive(a, b, c, d, e);
    SamePermutation(a, b, c, d, e);
    IngredientListingDistinctPositions(rows, want);
  }

  lemma SamePermutation(a: Ingredient, b: Ingredient, c: Ingredient, d: Ingredient, e: Ingredient)
    requires a.position == 1 && b.position == 2 && c.position == 3 && d.position == 4 && e.position == 5
    ensures multiset([a, b, c, d, e]) == multiset([b, c, e, a, d])
  {
  }

  lemma AscendingFive(a: Ingredient, b: Ingredient, c: Ingredient, d: Ingredient, e: Ingredient)
    requires a.position == 1 && b.position == 2 && c.position == 3 && d.position == 4 && e.position == 5
    ensures SortedBy([a, b, c, d, e], PositionOf)
    ensures forall i, j :: 0 <= i < j < 5 ==> [a, b, c, d, e][i].position != [a, b, c, d, e][j].position
  {
  }

  /** `TagManager.by_type`: exactly the tags whose stored type is the code of
      `t`, each as often as it is stored. */
  function ByType(tags: seq<Tag>, t: TagType): (r: seq<Tag>)
    ensures forall x :: multiset(r)[x] == if x.tagType == TagTypeCode(t) then multiset(tags)[x] else 0
  {
    Where(tags, (x: Tag) => x.tagType == TagTypeCode(t))
  }

  predicate HasKnownType(x: Tag) {
    exists t: TagType :: x.tagType == TagTypeCode(t)
  }

  /** When every stored tag carries one of the four type codes, the four
      filters partition the tags: every tag is listed under exactly one type. */
  lemma ByTypePartitions(tags: seq<Tag>)
    requires forall k :: 0 <= k < |tags| ==> HasKnownType(tags[k])
    ensures multiset(ByType(tags, DietaryPreference)) + multiset(ByType(tags, Course))
          + multiset(ByType(tags, Difficulty)) + multiset(ByType(tags, Custom)) == multiset(tags)
  {
    var whole := multiset(ByType(tags, DietaryPreference)) + multiset(ByType(tags, Course))
               + multiset(ByType(tags, Difficulty)) + multiset(ByType(tags, Custom));
    forall x ensures whole[x] == multiset(tags)[x] {
      PartitionAt(tags, x);
    }
    assert whole == multiset(tags);
  }

  /** The partition, counted at one tag value `x`. */
  lemma PartitionAt(tags: seq<Tag>, x: Tag)
    requires forall k :: 0 <= k < |tags| ==> HasKnownType(tags[k])
    ensures multiset(ByType(tags, DietaryPreference))[x] + multiset(ByType(tags, Course))[x]
          + multiset(ByType(tags, Difficulty))[x] + multiset(ByType(tags, Custom))[x] == multiset(tags)[x]
  {
    if x in tags {
      var k :| 0 <= k < |tags| && tags[k] == x;
      assert HasKnownType(tags[k]);
      var t :| x.tagType == TagTypeCode(t);
      CountUnderType(tags, x, t, DietaryPreference);
      CountUnderType(tags, x, t, Course);
      CountUnderType(tags, x, t, Difficulty);
      CountUnderType(tags, x, t, Custom);
    } else {
      assert multiset(tags)[x] == 0;
    }
  }

  /** A tag of type `t` is counted under `t` as often as it is stored, and
      under no other type. */
  lemma CountUnderType(tags: seq<Tag>, x: Tag, t: TagType, u: TagType)
    requires x.tagType == TagTypeCode(t)
    ensures multiset(ByType(tags, u))[x] == if u == t then multiset(tags)[x] else 0
  {
    if TagTypeCode(u) == TagTypeCode(t) {
      TagTypeCodesDistinct(u, t);
    }
  }

  /** Without that condition a tag with an unknown type is listed under no type. */
  lemma ByTypeMissesUnknownType(tags: seq<Tag>, x: Tag)
    requires x in tags && !HasKnownType(x)
    ensures forall t :: x !in ByType(tags, t)
  {
    forall t ensures x !in ByType(tags, t) {
      assert multiset(ByType(tags, t))[x] == 0;
    }
  }
}
