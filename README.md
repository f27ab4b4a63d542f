# Social Cookbook backend — a verified model of its core rules

The Social Cookbook App is a recipe-sharing backend. Users publish recipes
with ordered instructions and ingredients and categorise them with tags.
Other users comment on recipes and like recipes and comments. Almost all of
the code is declarative schema. This project models the parts that carry
behaviour:

- **Deletion rules of the content store.** Each foreign key declares
  CASCADE or SET_NULL. Deleting a recipe removes its instructions,
  ingredients, comments, recipe likes and the likes on those comments.
  Deleting a user removes their recipes with everything that hangs on them.
  The user's own comments and likes elsewhere are kept, with no author.
  The rules are stated as functions on a snapshot `Db` in module `Store`.
  `Store.ContentStore` is a class with one map per table that performs the
  same rules in place and keeps referential integrity as its invariant
  (the `Like` parent table and the tag through-table are folded in; see
  "Left out").
- **Listings** (module `Managers`, over the generic sort and filter of
  module `Queries`):
  - instructions are listed by ascending `step`;
  - ingredients are listed by ascending `position`;
  - recipes are listed newest first;
  - `by_type` filters tags by type.
  Each listing is proved to be a sorted permutation, or an exact filter, of
  the stored rows.
- **Display strings** (module `Recipes`, plus `Engagement.CommentStr`):
  - the measurement abbreviation table;
  - the renderings of instructions, ingredients, tags and comments;
  - the default tag type.
- **Account creation** (module `Accounts`). This covers the required-field
  guards of `create_user`. It also covers the flag defaults and the strict
  `is not True` checks of `create_superuser`. `Accounts.UserManager` holds
  the saved users and keeps usernames and emails unique.
- **Upload paths** (module `UploadPaths`): the three picture path templates.

Module `Outcomes` holds `Option` and `Result`. Module `Text` holds decimal
rendering, ASCII lower-casing and a lemma for splitting strings at a
separator.

## Model

| member | source | states |
|---|---|---|
| Recipes.FMeasurement | backend/apps/recipes/models.py:121-137 | each of the twelve measurement codes maps to its label; any other string, the empty one included, comes back unchanged |
| Recipes.MeasurementLabelsDistinct | backend/apps/recipes/models.py:79-90 | the twelve labels are pairwise distinct, so the abbreviation is injective on the known codes |
| Recipes.MeasurementFallbackCollides | backend/apps/recipes/models.py:137 | the identity fallback makes a custom measurement `tsp` display like the code `TEASPOON` |
| Recipes.InstructionStr | backend/apps/recipes/models.py:56-57 | the rendering opens with `(` and ends with `) ` and the description |
| Recipes.InstructionStrInjective | backend/apps/recipes/models.py:56-57 | the rendering determines the step and the description |
| Recipes.IngredientStr | backend/apps/recipes/models.py:139-140 | the rendering has the length of quantity, abbreviation and name plus two spaces; it starts with the quantity and a space and ends with a space and the name |
| Recipes.IngredientStrKnownCode | backend/apps/recipes/models.py:139-140 | for a known code the rendering is quantity, space, label, space, name |
| Recipes.IngredientStrBlankMeasurement | backend/apps/recipes/models.py:96-97 | a blank measurement leaves two spaces between quantity and name |
| Recipes.TagTypeCodesDistinct | backend/apps/recipes/models.py:154-158 | the four tag type codes are distinct |
| Recipes.NewTag | backend/apps/recipes/models.py:187-193 | a tag created without a type has type `CUSTOM`; with a type it keeps it, and it always keeps its name |
| Recipes.TagStr | backend/apps/recipes/models.py:197-198 | the rendering has the name's length and no upper-case letter |
| Recipes.TagStrStable | backend/apps/recipes/models.py:197-198 | rendering a tag named by a rendering changes nothing |
| Recipes.TagStrIgnoresCase | backend/apps/recipes/models.py:197-198 | `Vegan` and `vEGAN` both render as `vegan` |
| Text.DecimalStringInjective | backend/apps/recipes/models.py:57 | distinct numbers render as distinct decimal strings |
| Text.IdStringInjective | backend/apps/uploads/models.py:22-23 | distinct ids, and the missing id `None`, render distinctly |
| Managers.RecipeListing | backend/apps/recipes/managers.py:14-16 | a permutation of the stored recipes in non-increasing `created_at` order |
| Managers.InstructionListing | backend/apps/recipes/managers.py:21-23 | a permutation of the stored instructions in non-decreasing `step` order |
| Managers.IngredientListing | backend/apps/recipes/managers.py:28-30 | a permutation of the stored ingredients in non-decreasing `position` order |
| Managers.InstructionsOf | backend/apps/recipes/models.py:51-52 | a recipe's instructions: exactly the rows pointing at it, with their multiplicities, ordered by step |
| Managers.IngredientsOf | backend/apps/recipes/models.py:99-100 | a recipe's ingredients: exactly the rows pointing at it, ordered by position |
| Managers.RecipesOf | backend/apps/recipes/models.py:28-32 | a user's recipes: exactly the rows they authored, newest first |
| Managers.InstructionOrderUpToTies | backend/apps/recipes/managers.py:23 | every correct instruction listing has the same sequence of steps; only ties may be ordered differently |
| Managers.IngredientOrderUpToTies | backend/apps/recipes/managers.py:30 | the same for ingredients and positions |
| Managers.IngredientListingDistinctPositions | backend/apps/recipes/managers.py:28-30 | when positions are distinct the listing is the one sorted permutation |
| Managers.IngredientListingExample | backend/apps/recipes/managers.py:28-30 | ingredients stored at positions 2, 3, 5, 1, 4 are listed at 1, 2, 3, 4, 5 |
| Managers.ByType | backend/apps/recipes/managers.py:35-37 | exactly the tags whose type is the requested code, with their multiplicities |
| Managers.ByTypePartitions | backend/apps/recipes/managers.py:37 | when each tag carries one of the four codes, the four filters together return every tag exactly once |
| Managers.ByTypeMissesUnknownType | backend/apps/recipes/models.py:188-193 | a tag stored with a type outside the choices is returned by no filter |
| Engagement.CommentStr | backend/apps/engagement/models.py:56-57 | no rendering exactly when the author is null or gone; otherwise `User `, the username, ` says... ` and the text |
| Store.DeleteRecipeRemovesItsChildren | backend/apps/recipes/models.py:51-52 | deleting a recipe removes exactly its instructions and ingredients, leaves the remaining rows as they were, and removes no user, tag or other recipe |
| Store.DeleteRecipeRemovesEngagement | backend/apps/engagement/models.py:17-18 | deleting a recipe removes exactly its comments and recipe likes and every like on those comments; what remains is unchanged |
| Store.DeleteRecipeKeepsOtherCommentLikes | backend/apps/engagement/models.py:30-31 | a comment like survives a recipe deletion exactly when its comment sits on another recipe |
| Store.DeleteCommentRemovesItsLikes | backend/apps/engagement/models.py:30-31 | deleting a comment removes it and exactly its likes; recipes, recipe likes and users stay |
| Store.DeleteUserRemovesTheirRecipes | backend/apps/recipes/models.py:28-32 | deleting a user removes exactly the recipes they authored; other recipes are untouched |
| Store.DeleteUserKeepsTheirEngagement | backend/apps/engagement/models.py:19-24 | a comment or like by the deleted user on someone else's recipe survives, unchanged except for an author that is now null |
| Store.DeleteUserRemovesCommentsOnTheirRecipes | backend/apps/engagement/models.py:47-48 | comments by others on the deleted user's recipes disappear through the recipe cascade |
| Store.DeleteUserLeavesNoReference | backend/apps/engagement/models.py:49-54 | after a user is deleted no row refers to them |
| Store.OrphanedCommentHasNoRendering | backend/apps/engagement/models.py:56-57 | a surviving comment whose author was deleted has no string rendering |
| Store.DeletionsKeepIntegrity | backend/apps/engagement/models.py:47-54 | deleting a user, recipe, comment or tag keeps every foreign key pointing at a stored row, or null |
| Store.DeleteTagUnlinksRecipes | backend/apps/recipes/models.py:33 | deleting a tag removes its row and every recipe's link to it; the recipes stay with their other links and fields, and no other table changes |
| Store.AttachLikesEffect | backend/apps/engagement/tests.py:44 | attaching likes to a comment adds exactly the stored ones to its likes and takes them from any other comment |
| Store.AttachLikesIdempotent | backend/apps/engagement/tests.py:56-58 | attaching likes already on the comment changes nothing |
| Store.ContentStore.DeleteRecipe | backend/apps/recipes/models.py:51-52 | the store after the call is the recipe deletion of the store before it, and stays consistent |
| Store.ContentStore.DeleteComment | backend/apps/engagement/models.py:30-31 | the store after the call is the comment deletion of the store before it |
| Store.ContentStore.DeleteUser | backend/apps/engagement/models.py:19-24 | the store after the call is the user deletion of the store before it |
| Store.ContentStore.DeleteTag | backend/apps/recipes/models.py:33 | the store after the call is the tag deletion of the store before it, and stays consistent |
| Store.ContentStore.AddRecipe | backend/apps/recipes/models.py:28-32 | a recipe is stored under a fresh key, with no tags, exactly when its author is stored; otherwise nothing changes |
| Store.ContentStore.AddInstruction | backend/apps/recipes/models.py:51-52 | an instruction is stored under a fresh key exactly when its recipe exists; otherwise nothing changes |
| Store.ContentStore.AddIngredient | backend/apps/recipes/models.py:99-100 | an ingredient is stored under a fresh key exactly when its recipe exists; otherwise nothing changes |
| Store.ContentStore.AddTag | backend/apps/recipes/models.py:187-193 | a tag is stored under a fresh key, with the type `CUSTOM` when none is given |
| Store.ContentStore.LinkTag | backend/apps/recipes/models.py:33 | `recipe.tags.add` links the tag to the recipe exactly when both are stored, and changes nothing else |
| Store.ContentStore.AddRecipeLike | backend/apps/engagement/models.py:17-24 | a recipe like is stored under a fresh key exactly when its recipe exists and its author is null or stored; otherwise nothing changes |
| Store.ContentStore.AddUser | backend/apps/engagement/tests.py:33-37 | a fixture user row is stored under a fresh key and nothing else changes |
| Store.ContentStore.DeleteInstruction | backend/apps/recipes/models.py:41-54 | deleting an instruction removes that row only, keeps the store consistent and keeps the key counter |
| Store.ContentStore.DeleteIngredient | backend/apps/recipes/models.py:60-102 | deleting an ingredient removes that row only, keeps the store consistent and keeps the key counter |
| Store.ContentStore.DeleteRecipeLike | backend/apps/engagement/models.py:14-24 | deleting a recipe like removes that row only, keeps the store consistent and keeps the key counter |
| Store.ContentStore.DeleteCommentLike | backend/apps/engagement/models.py:27-37 | deleting a comment like removes that row only, keeps the store consistent and keeps the key counter |
| Store.ContentStore.LikeCount | backend/apps/engagement/tests.py:47 | `comment.likes.count()` is at most the number of stored comment likes, and zero exactly when no stored like points at the comment |
| Store.ContentStore.AddComment | backend/apps/engagement/models.py:47-54 | a comment is stored under a fresh key exactly when its recipe exists and its author is null or stored; otherwise nothing changes |
| Store.ContentStore.AddCommentLike | backend/apps/engagement/models.py:30-37 | a comment like is stored under a fresh key exactly when its comment exists and its author is null or stored |
| Store.ContentStore.AttachCommentLikes | backend/apps/engagement/tests.py:44 | `comment.likes.add` on a stored comment re-points the listed likes at it |
| Store.CommentLikeCounts | backend/apps/engagement/tests.py:40-58 | one like gives a count of 1, three distinct likers give 3, and adding the three again leaves 3 |
| Accounts.CreateUserResult | backend/apps/users/managers.py:19-27 | an empty username is refused first and an empty email next; otherwise a taken username or email is refused; a saved user has the given username, the normalised email and the hashed password; its flags are the ones passed, defaulting to active, not staff and not superuser |
| Accounts.CreateSuperuserResult | backend/apps/users/managers.py:37-45 | `is_staff` other than `True` is refused first, `is_superuser` other than `True` next; a created superuser is staff and superuser, and active unless told otherwise |
| Accounts.PlainUserDefaults | backend/apps/users/tests.py:14-18 | an ordinary user is active, not staff and not superuser |
| Accounts.UsernameCheckedFirst | backend/apps/users/tests.py:26-27 | with both fields empty the username error is raised, for both creation calls |
| Accounts.SuperuserDefaults | backend/apps/users/managers.py:37-39 | a superuser created without flags is active, staff and superuser |
| Accounts.SuperuserFlagsAreStrict | backend/apps/users/managers.py:41-44 | any explicit `is_staff` or `is_superuser` other than `True` itself is refused, whatever is already stored |
| Accounts.SuperuserDelegates | backend/apps/users/managers.py:45 | once the flags pass, creating a superuser is creating a user with the defaulted flags |
| Accounts.UserStr | backend/apps/users/models.py:32-33 | a user renders as their username; `UserStrIdentifies` shows that among saved users this names exactly one |
| Accounts.AppendKeepsUnique | backend/apps/users/models.py:19 | saving a user whose username and email are free keeps them unique among the saved users |
| Accounts.UserStrIdentifies | backend/apps/users/models.py:32-33 | among saved users, the rendering names exactly one user |
| Accounts.UserManager.CreateUser | backend/apps/users/managers.py:19-27 | the result is the `create_user` outcome; the user is saved once on success and nothing is saved otherwise |
| Accounts.UserManager.CreateSuperuser | backend/apps/users/managers.py:37-45 | the result is the `create_superuser` outcome; the same rule for what is saved |
| Accounts.CreateUserTest | backend/apps/users/tests.py:7-27 | on an empty user table the ordinary user keeps its username and email, is active, not staff and not superuser, and empty fields are refused with the username error |
| Accounts.CreateSuperuserTest | backend/apps/users/tests.py:29-45 | on an empty user table the superuser is created active, staff and superuser, and an explicit `is_superuser=False` is refused with the superuser error |
| UploadPaths.UserUploadPath | backend/apps/users/models.py:13-15 | the path starts with the location and `/`, continues with `user<`, and ends with the file name, with eight characters of template |
| UploadPaths.RecipePicturePath | backend/apps/uploads/models.py:20-23 | the path starts with the location and `/recipe-` and ends with the file name |
| UploadPaths.ProfilePicturePath | backend/apps/uploads/models.py:25-29 | the path starts with the location and `/user-` and ends with the file name |
| UploadPaths.UserPathDiffersFromProfilePath | backend/apps/uploads/models.py:29 | under one location the user-model template and the upload template never give the same path |
| UploadPaths.ProfilePathsShowUser | backend/apps/users/models.py:32-33 | both profile paths show the user's rendering right after `user<` or `user-` |
| UploadPaths.RecipePathInjective | backend/apps/uploads/models.py:23 | the recipe path determines the recipe id and the file name, because a rendered id has no `-` |
| UploadPaths.ProfilePathAmbiguous | backend/apps/uploads/models.py:29 | the profile path does not determine the user: `ann-lee` with `x.png` and `ann` with `lee-x.png` give one path |

- The managers call `order_by` on a single field, so the database chooses
  the order of rows with equal `step` or `position`. The listings promise
  sorted keys only; `InstructionOrderUpToTies` and `IngredientOrderUpToTies`
  show what every correct listing then shares.
- The like models declare no uniqueness constraint, so each like is its own
  row, even when the same user likes the same target twice.

## Left out

- Follow and block between users: the code has only the two many-to-many
  fields in a migration and no operation on them, so there is nothing to
  model.
- `Ingredient.f_quantity` looks float keys up in a table. Floating point is
  not modelled, so `IngredientStr` takes the formatted quantity as a string
  parameter.
- `Recipe.__str__` and the descriptive fields (description, preparation
  and cook time, notes, servings, bio, country code, pictures): they are
  stored values with no rule attached.
- Timestamps are set from the clock. `created_at` is a parameter of
  `AddRecipe`, and `last_updated` is not modelled.
- `TagStr`: lower-cases ASCII letters only, not the full Unicode case
  mapping of `str.lower`.
- `step` and `position` are positive-small-integer fields
  (`backend/apps/recipes/models.py:47`, `:92`), for which the framework
  declares a `>= 0` database check, so a negative value fails at insert;
  the model's `nat` matches that. Whether the `max_length` limits and the
  upper bound 32767 are enforced depends on the database backend, so the
  model does not enforce them.
- Tag choices: `tag_type` is a plain string, because choices are also
  checked only by form validation.
- Case-insensitive tag name uniqueness is only a convention in a comment
  and is not enforced.
- `normalize_email` and the hashing of `set_password` are framework code.
  They are function parameters of the account operations.
- Saving a user enforces a unique username and a unique email; this is
  modelled as the `Duplicate` error. Other database errors are not.
- Extra keyword fields other than the three flags are not modelled.
- `get_or_create` in the comment-like test is modelled as a plain create,
  because no like exists before it runs there. The test's
  `comment.likes.add(like_2, like_3)` is modelled as attaching each new like
  in turn, which gives the same state.
- `AttachLikes` silently skips ids that are not stored, while
  `comment.likes.add` raises `ValueError` for a like that was never saved.
- `Like` is a concrete model, so each recipe like and comment like also has
  a row in the `Like` table, both kinds share that table's key sequence, and
  deleting a like deletes its parent row too. The model folds the `Like`
  table into the two like maps, and the tag through-table of
  `Recipe.tags` into the recipe rows' tag sets.
- The users of `Store.ContentStore` and those of `Accounts.UserManager` are
  two separate stores. `ContentStore.AddUser` is a fixture that bypasses
  `create_user`'s rules, and the listings of module `Managers` take
  sequences of rows rather than reading the store's maps.
- CreateSuperuserTest: states that the superuser is active, where
  `backend/apps/users/tests.py:36` calls `assertEqual` with one argument,
  which as written raises `TypeError` before any comparison.
- Primary keys come from one shared counter rather than one sequence per
  table; the model only compares keys for equality.
- Rows of the follow and block relations that deleting a user would also
  remove are not part of this model.
- The HTTP views, serializers, admin, forms, settings, storage backends,
  migrations and frontend are not part of this model.
