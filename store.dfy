/** The content store: the users, recipes, tags, instructions, ingredients,
    comments and likes of the application, with the deletion rules their
    foreign keys declare in `backend/apps/recipes/models.py` and
    `backend/apps/engagement/models.py`. A CASCADE key deletes the rows that
    point at a deleted row; a SET_NULL key keeps them and clears the
    reference. The rules are first stated as functions on a snapshot `Db` of
    the store; the class `ContentStore` then performs them in place. */
module Store {
  import opened Outcomes
  import opened Recipes
  import opened Engagement

  /** A snapshot of the tables, keyed by primary key. A user row is
      represented by its username; the `Like` parent table is folded into
      the two like maps, and the tag links into `Recipe.tags`. */
  datatype Db = Db(
    users: map<UserId, string>,
    recipes: map<RecipeId, Recipe>,
    tags: map<TagId, Tag>,
    instructions: map<InstructionId, Instruction>,
    ingredients: map<IngredientId, Ingredient>,
    comments: map<CommentId, Comment>,
    recipeLikes: map<LikeId, RecipeLike>,
    commentLikes: map<LikeId, CommentLike>)

  const EmptyDb := Db(map[], map[], map[], map[], map[], map[], map[], map[])

  predicate AuthorIn(a: Option<UserId>, users: map<UserId, string>) {
    a.None? || a.value in users
  }

  /** Referential integrity: every foreign key names a stored row, or is null
      where the key is nullable. */
  ghost predicate Integrity(db: Db) {
    && (forall r :: r in db.recipes ==> db.recipes[r].author in db.users && db.recipes[r].tags <= db.tags.Keys)
    && (forall i :: i in db.instructions ==> db.instructions[i].recipe in db.recipes)
    && (forall i :: i in db.ingredients ==> db.ingredients[i].recipe in db.recipes)
    && (forall c :: c in db.comments ==>
          db.comments[c].recipe in db.recipes && AuthorIn(db.comments[c].author, db.users))
    && (forall l :: l in db.recipeLikes ==>
          db.recipeLikes[l].recipe in db.recipes && AuthorIn(db.recipeLikes[l].author, db.users))
    && (forall l :: l in db.commentLikes ==>
          db.commentLikes[l].comment in db.comments && AuthorIn(db.commentLikes[l].author, db.users))
  }

  /** Every primary key in use is below `n`, so `n` is free in every table. */
  ghost predicate KeysBelow(db: Db, n: nat) {
    && (forall k :: k in db.users ==> k < n)
    && (forall k :: k in db.recipes ==> k < n)
    && (forall k :: k in db.tags ==> k < n)
    && (forall k :: k in db.instructions ==> k < n)
    && (forall k :: k in db.ingredients ==> k < n)
    && (forall k :: k in db.comments ==> k < n)
    && (forall k :: k in db.recipeLikes ==> k < n)
    && (forall k :: k in db.commentLikes ==> k < n)
  }

  // ----- The deletion rules on a snapshot -----

  /** The comments on any of the recipes `rs`. */
  function CommentsOn(db: Db, rs: set<RecipeId>): set<CommentId> {
    set c | c in db.comments && db.comments[c].recipe in rs
  }

  /** The recipes whose author is `u`. */
  function RecipesBy(db: Db, u: UserId): set<RecipeId> {
    set r | r in db.recipes && db.recipes[r].author == u
  }

  /** The likes attached to comment `c`: `comment.likes`. */
  function LikesOn(db: Db, c: CommentId): set<LikeId> {
    set l | l in db.commentLikes && db.commentLikes[l].comment == c
  }

  /** The likes on a comment are some of the stored comment likes, and there
      are none exactly when no stored like points at the comment. */
  lemma LikesWithinTable(db: Db, c: CommentId)
    ensures LikesOn(db, c) <= db.commentLikes.Keys
    ensures |LikesOn(db, c)| <= |db.commentLikes|
    ensures |LikesOn(db, c)| == 0 <==> forall l :: l in db.commentLikes ==> db.commentLikes[l].comment != c
  {
    SubsetNoLarger(LikesOn(db, c), db.commentLikes.Keys);
    if LikesOn(db, c) != {} {
      var l :| l in LikesOn(db, c);
      assert db.commentLikes[l].comment == c;
    } else {
      forall l | l in db.commentLikes
        ensures db.commentLikes[l].comment != c
      {
        assert l !in LikesOn(db, c);
      }
    }
  }

  /** A subset has no more elements than its superset. */
  lemma {:induction false} SubsetNoLarger<T>(a: set<T>, b: set<T>)
    requires a <= b
    ensures |a| <= |b|
    decreases |a|
  {
    if a != {} {
      var x :| x in a;
      SubsetNoLarger(a - {x}, b - {x});
    }
  }

  /** Deleting the comments `cs`: their likes go with them (CASCADE). */
  function DropComments(db: Db, cs: set<CommentId>): Db {
    db.(comments := map c | c in db.comments && c !in cs :: db.comments[c],
        commentLikes := map l | l in db.commentLikes && db.commentLikes[l].comment !in cs :: db.commentLikes[l])
  }

  /** Deleting the recipes `rs`: their instructions, ingredients, recipe likes
      and comments go with them (CASCADE), and so do the comments' likes. The
      tags stay; only the recipes' links to them disappear. */
  function DropRecipes(db: Db, rs: set<RecipeId>): Db {
    var cut := db.(
      recipes := map r | r in db.recipes && r !in rs :: db.recipes[r],
      instructions := map i | i in db.instructions && db.instructions[i].recipe !in rs :: db.instructions[i],
      ingredients := map i | i in db.ingredients && db.ingredients[i].recipe !in rs :: db.ingredients[i],
      recipeLikes := map l | l in db.recipeLikes && db.recipeLikes[l].recipe !in rs :: db.recipeLikes[l]);
    DropComments(cut, CommentsOn(db, rs))
  }

  function RecipeDeletion(db: Db, r: RecipeId): Db {
    DropRecipes(db, {r})
  }

  function CommentDeletion(db: Db, c: CommentId): Db {
    DropComments(db, {c})
  }

  function ClearAuthor(a: Option<UserId>, u: UserId): Option<UserId> {
    if a == Some(u) then None else a
  }

  /** The SET_NULL half of deleting user `u`: the user row goes, and every
      author reference to `u` on a comment or like is cleared. */
  function ClearUser(db: Db, u: UserId): Db {
    db.(
      users := db.users - {u},
      comments := map c | c in db.comments ::
        db.comments[c].(author := ClearAuthor(db.comments[c].author, u)),
      recipeLikes := map l | l in db.recipeLikes ::
        db.recipeLikes[l].(author := ClearAuthor(db.recipeLikes[l].author, u)),
      commentLikes := map l | l in db.commentLikes ::
        db.commentLikes[l].(author := ClearAuthor(db.commentLikes[l].author, u)))
  }

  /** Deleting user `u`: the recipes they authored are deleted with all that
      hangs on them (CASCADE); on the comments and likes that remain, an
      author reference to `u` is cleared (SET_NULL). */
  function UserDeletion(db: Db, u: UserId): Db {
    ClearUser(DropRecipes(db, RecipesBy(db, u)), u)
  }

  /** Deleting tag `t`: its links to recipes disappear, the recipes stay. */
  function TagDeletion(db: Db, t: TagId): Db {
    db.(tags := db.tags - {t},
        recipes := map r | r in db.recipes :: db.recipes[r].(tags := db.recipes[r].tags - {t}))
  }

  /** `comment.likes.add(...)`: each of the stored likes `ls` is re-pointed at
      comment `c`; ids of likes that are not stored match no row. */
  function AttachLikes(db: Db, c: CommentId, ls: set<LikeId>): Db {
    db.(commentLikes := map l | l in db.commentLikes ::
          if l in ls then db.commentLikes[l].(comment := c) else db.commentLikes[l])
  }

  // ----- What the deletion rules do -----

  /** Deleting a recipe removes exactly its instructions and ingredients; the
      rows that remain are unchanged, and so are users, tags and the other
      recipes. */
  lemma DeleteRecipeRemovesItsChildren(db: Db, r: RecipeId)
    ensures var d := RecipeDeletion(db, r);
      && (forall i :: i in d.instructions <==> i in db.instructions && db.instructions[i].recipe != r)
      && (forall i :: i in d.instructions ==> d.instructions[i] == db.instructions[i])
      && (forall i :: i in d.ingredients <==> i in db.ingredients && db.ingredients[i].recipe != r)
      && (forall i :: i in d.ingredients ==> d.ingredients[i] == db.ingredients[i])
      && d.recipes == db.recipes - {r}
      && d.users == db.users && d.tags == db.tags
  {
  }

  /** Deleting a recipe removes every comment on it, every like on it and
      every like on those comments; all other comments and likes stay as
      they were. */
  lemma DeleteRecipeRemovesEngagement(db: Db, r: RecipeId)
    ensures var d := RecipeDeletion(db, r);
      && (forall c :: c in d.comments <==> c in db.comments && db.comments[c].recipe != r)
      && (forall c :: c in d.comments ==> d.comments[c] == db.comments[c])
      && (forall l :: l in d.recipeLikes <==> l in db.recipeLikes && db.recipeLikes[l].recipe != r)
      && (forall l :: l in d.recipeLikes ==> d.recipeLikes[l] == db.recipeLikes[l])
      && (forall l ::
            (l in db.commentLikes && db.commentLikes[l].comment in db.comments
             && db.comments[db.commentLikes[l].comment].recipe == r) ==> l !in d.commentLikes)
      && (forall l :: l in d.commentLikes ==> d.commentLikes[l] == db.commentLikes[l])
  {
  }

  /** On a store with integrity, a comment like survives a recipe deletion
      exactly when its comment does. */
  lemma DeleteRecipeKeepsOtherCommentLikes(db: Db, r: RecipeId)
    requires Integrity(db)
    ensures var d := RecipeDeletion(db, r);
      forall l :: l in d.commentLikes <==>
        l in db.commentLikes && db.comments[db.commentLikes[l].comment].recipe != r
  {
  }

  /** Deleting a comment removes exactly the likes on it. */
  lemma DeleteCommentRemovesItsLikes(db: Db, c: CommentId)
    ensures var d := CommentDeletion(db, c);
      && d.comments == db.comments - {c}
      && (forall l :: l in d.commentLikes <==> l in db.commentLikes && l !in LikesOn(db, c))
      && (forall l :: l in d.commentLikes ==> d.commentLikes[l] == db.commentLikes[l])
      && d.recipes == db.recipes && d.recipeLikes == db.recipeLikes && d.users == db.users
  {
  }

  /** Deleting a user removes the recipes they authored and leaves every other
      user's recipes untouched. */
  lemma DeleteUserRemovesTheirRecipes(db: Db, u: UserId)
    ensures var d := UserDeletion(db, u);
      && (forall r :: r in d.recipes <==> r in db.recipes && db.recipes[r].author != u)
      && (forall r :: r in d.recipes ==> d.recipes[r] == db.recipes[r])
      && d.users == db.users - {u}
  {
  }

  /** A comment by the deleted user on someone else's recipe survives, with
      the same text and recipe and no author; so do their likes. */
  lemma DeleteUserKeepsTheirEngagement(db: Db, u: UserId)
    requires Integrity(db)
    ensures var d := UserDeletion(db, u);
      && (forall c :: c in db.comments && db.recipes[db.comments[c].recipe].author != u ==>
            c in d.comments && d.comments[c] == db.comments[c].(author := ClearAuthor(db.comments[c].author, u)))
      && (forall l :: l in db.recipeLikes && db.recipes[db.recipeLikes[l].recipe].author != u ==>
            l in d.recipeLikes && d.recipeLikes[l] == db.recipeLikes[l].(author := ClearAuthor(db.recipeLikes[l].author, u)))
      && (forall l ::
            (l in db.commentLikes && db.recipes[db.comments[db.commentLikes[l].comment].recipe].author != u) ==>
            l in d.commentLikes && d.commentLikes[l] == db.commentLikes[l].(author := ClearAuthor(db.commentLikes[l].author, u)))
  {
  }

  /** Deleting a user also deletes the comments other users wrote on that
      user's recipes, through the recipe cascade. */
  lemma DeleteUserRemovesCommentsOnTheirRecipes(db: Db, u: UserId, c: CommentId)
    requires c in db.comments && db.comments[c].recipe in db.recipes
    requires db.recipes[db.comments[c].recipe].author == u
    ensures c !in UserDeletion(db, u).comments
  {
  }

  /** After a user is deleted nothing refers to them any more. */
  lemma DeleteUserLeavesNoReference(db: Db, u: UserId)
    ensures var d := UserDeletion(db, u);
      && u !in d.users
      && (forall r :: r in d.recipes ==> d.recipes[r].author != u)
      && (forall c :: c in d.comments ==> d.comments[c].author != Some(u))
      && (forall l :: l in d.recipeLikes ==> d.recipeLikes[l].author != Some(u))
      && (forall l :: l in d.commentLikes ==> d.commentLikes[l].author != Some(u))
  {
  }

  /** Deleting a tag removes its row and every recipe's link to it; the
      recipes themselves stay, with their other links and fields, and no
      other table changes. */
  lemma DeleteTagUnlinksRecipes(db: Db, t: TagId)
    ensures var d := TagDeletion(db, t);
      && d.tags == db.tags - {t}
      && d.recipes.Keys == db.recipes.Keys
      && (forall r :: r in d.recipes ==> d.recipes[r] == db.recipes[r].(tags := db.recipes[r].tags - {t}))
      && (forall r :: r in d.recipes ==> t !in d.recipes[r].tags)
      && d.users == db.users && d.instructions == db.instructions && d.ingredients == db.ingredients
      && d.comments == db.comments && d.recipeLikes == db.recipeLikes && d.commentLikes == db.commentLikes
  {
  }

  /** A comment whose author was deleted has no rendering: `Comment.__str__`
      reads the username of an author that is now null. */
  lemma OrphanedCommentHasNoRendering(db: Db, u: UserId, c: CommentId)
    requires Integrity(db)
    requires c in db.comments && db.comments[c].author == Some(u)
    requires db.recipes[db.comments[c].recipe].author != u
    ensures var d := UserDeletion(db, u);
      c in d.comments && CommentStr(d.comments[c], d.users).None?
  {
    DeleteUserKeepsTheirEngagement(db, u);
  }

  lemma DropCommentsIntegrity(db: Db, cs: set<CommentId>)
    requires Integrity(db)
    ensures Integrity(DropComments(db, cs))
  {
  }

  lemma DropRecipesIntegrity(db: Db, rs: set<RecipeId>)
    requires Integrity(db)
    ensures Integrity(DropRecipes(db, rs))
  {
  }

  lemma ClearUserIntegrity(db: Db, u: UserId)
    requires Integrity(db)
    requires forall r :: r in db.recipes ==> db.recipes[r].author != u
    ensures Integrity(ClearUser(db, u))
  {
    var d := ClearUser(db, u);
    assert forall r :: r in d.recipes ==> d.recipes[r].author in d.users;
    forall c | c in d.comments
      ensures AuthorIn(d.comments[c].author, d.users)
    {
      ClearedAuthorIn(db.comments[c].author, u, db.users);
    }
    forall l | l in d.recipeLikes
      ensures AuthorIn(d.recipeLikes[l].author, d.users)
    {
      ClearedAuthorIn(db.recipeLikes[l].author, u, db.users);
    }
    forall l | l in d.commentLikes
      ensures AuthorIn(d.commentLikes[l].author, d.users)
    {
      ClearedAuthorIn(db.commentLikes[l].author, u, db.users);
    }
  }

  /** Clearing references to `u` keeps a valid author valid once `u` is gone. */
  lemma ClearedAuthorIn(a: Option<UserId>, u: UserId, users: map<UserId, string>)
    requires AuthorIn(a, users)
    ensures AuthorIn(ClearAuthor(a, u), users - {u})
  {
  }

  lemma UserDeletionIntegrity(db: Db, u: UserId)
    requires Integrity(db)
    ensures Integrity(UserDeletion(db, u))
  {
    var kept := DropRecipes(db, RecipesBy(db, u));
    DropRecipesIntegrity(db, RecipesBy(db, u));
    assert forall r :: r in kept.recipes ==> kept.recipes[r].author != u;
    ClearUserIntegrity(kept, u);
  }

  lemma TagDeletionIntegrity(db: Db, t: TagId)
    requires Integrity(db)
    ensures Integrity(TagDeletion(db, t))
  {
  }

  /** Every deletion rule keeps referential integrity. */
  lemma DeletionsKeepIntegrity(db: Db, u: UserId, r: RecipeId, c: CommentId, t: TagId)
    requires Integrity(db)
    ensures Integrity(UserDeletion(db, u))
    ensures Integrity(RecipeDeletion(db, r))
    ensures Integrity(CommentDeletion(db, c))
    ensures Integrity(TagDeletion(db, t))
  {
    UserDeletionIntegrity(db, u);
    DropRecipesIntegrity(db, {r});
    DropCommentsIntegrity(db, {c});
    TagDeletionIntegrity(db, t);
  }

  /** Every table of `d` holds only keys that `db` holds. */
  ghost predicate KeysWithin(d: Db, db: Db) {
    && d.users.Keys <= db.users.Keys && d.recipes.Keys <= db.recipes.Keys
    && d.tags.Keys <= db.tags.Keys && d.instructions.Keys <= db.instructions.Keys
    && d.ingredients.Keys <= db.ingredients.Keys && d.comments.Keys <= db.comments.Keys
    && d.recipeLikes.Keys <= db.recipeLikes.Keys && d.commentLikes.Keys <= db.commentLikes.Keys
  }

  lemma KeysWithinBelow(d: Db, db: Db, n: nat)
    requires KeysWithin(d, db) && KeysBelow(db, n)
    ensures KeysBelow(d, n)
  {
  }

  lemma DeletionsKeepKeys(db: Db, u: UserId, r: RecipeId, c: CommentId, t: TagId)
    ensures KeysWithin(UserDeletion(db, u), db)
    ensures KeysWithin(RecipeDeletion(db, r), db)
    ensures KeysWithin(CommentDeletion(db, c), db)
    ensures KeysWithin(TagDeletion(db, t), db)
  {
  }

  // ----- Insertions keep the store consistent -----

  /** Adding the rows `d` has beyond `db` under the fresh key `n`. */
  ghost predicate GrowsBy(db: Db, d: Db, n: nat) {
    && KeysBelow(db, n)
    && d.users.Keys <= db.users.Keys + {n} && d.recipes.Keys <= db.recipes.Keys + {n}
    && d.tags.Keys <= db.tags.Keys + {n} && d.instructions.Keys <= db.instructions.Keys + {n}
    && d.ingredients.Keys <= db.ingredients.Keys + {n} && d.comments.Keys <= db.comments.Keys + {n}
    && d.recipeLikes.Keys <= db.recipeLikes.Keys + {n} && d.commentLikes.Keys <= db.commentLikes.Keys + {n}
  }

  lemma GrowsByBelow(db: Db, d: Db, n: nat)
    requires GrowsBy(db, d, n)
    ensures KeysBelow(d, n + 1)
  {
    SetGrowsBelow(db.users.Keys, d.users.Keys, n);
    SetGrowsBelow(db.recipes.Keys, d.recipes.Keys, n);
    SetGrowsBelow(db.tags.Keys, d.tags.Keys, n);
    SetGrowsBelow(db.instructions.Keys, d.instructions.Keys, n);
    SetGrowsBelow(db.ingredients.Keys, d.ingredients.Keys, n);
    SetGrowsBelow(db.comments.Keys, d.comments.Keys, n);
    SetGrowsBelow(db.recipeLikes.Keys, d.recipeLikes.Keys, n);
    SetGrowsBelow(db.commentLikes.Keys, d.commentLikes.Keys, n);
  }

  lemma SetGrowsBelow(a: set<nat>, b: set<nat>, n: nat)
    requires forall k :: k in a ==> k < n
    requires b <= a + {n}
    ensures forall k :: k in b ==> k < n + 1
  {
  }

  lemma InsertUserIntegrity(db: Db, n: nat, name: string)
    requires Integrity(db)
    ensures Integrity(db.(users := db.users[n := name]))
  {
  }

  lemma InsertRecipeIntegrity(db: Db, n: nat, x: Recipe)
    requires Integrity(db) && x.author in db.users && x.tags <= db.tags.Keys
    ensures Integrity(db.(recipes := db.recipes[n := x]))
  {
  }

  lemma InsertTagIntegrity(db: Db, n: nat, x: Tag)
    requires Integrity(db)
    ensures Integrity(db.(tags := db.tags[n := x]))
  {
  }

  lemma InsertInstructionIntegrity(db: Db, n: nat, x: Instruction)
    requires Integrity(db) && x.recipe in db.recipes
    ensures Integrity(db.(instructions := db.instructions[n := x]))
  {
  }

  lemma InsertIngredientIntegrity(db: Db, n: nat, x: Ingredient)
    requires Integrity(db) && x.recipe in db.recipes
    ensures Integrity(db.(ingredients := db.ingredients[n := x]))
  {
  }

  lemma InsertCommentIntegrity(db: Db, n: nat, x: Comment)
    requires Integrity(db) && x.recipe in db.recipes && AuthorIn(x.author, db.users)
    ensures Integrity(db.(comments := db.comments[n := x]))
  {
  }

  lemma InsertRecipeLikeIntegrity(db: Db, n: nat, x: RecipeLike)
    requires Integrity(db) && x.recipe in db.recipes && AuthorIn(x.author, db.users)
    ensures Integrity(db.(recipeLikes := db.recipeLikes[n := x]))
  {
  }

  lemma InsertCommentLikeIntegrity(db: Db, n: nat, x: CommentLike)
    requires Integrity(db) && x.comment in db.comments && AuthorIn(x.author, db.users)
    ensures Integrity(db.(commentLikes := db.commentLikes[n := x]))
  {
  }

  lemma AttachLikesIntegrity(db: Db, c: CommentId, ls: set<LikeId>)
    requires Integrity(db) && c in db.comments
    ensures Integrity(AttachLikes(db, c, ls))
    ensures KeysWithin(AttachLikes(db, c, ls), db)
  {
  }

  /** Attaching likes to a comment adds exactly the stored ones among them to
      its likes; the likes of other comments lose only those. */
  lemma AttachLikesEffect(db: Db, c: CommentId, ls: set<LikeId>, other: CommentId)
    requires other != c
    ensures LikesOn(AttachLikes(db, c, ls), c) == LikesOn(db, c) + (ls * db.commentLikes.Keys)
    ensures LikesOn(AttachLikes(db, c, ls), other) == LikesOn(db, other) - ls
  {
  }

  /** Attaching likes that are already on the comment changes nothing. */
  lemma AttachLikesIdempotent(db: Db, c: CommentId, ls: set<LikeId>)
    requires ls <= LikesOn(db, c)
    ensures AttachLikes(db, c, ls) == db
  {
    var d := AttachLikes(db, c, ls);
    assert d.commentLikes == db.commentLikes;
  }

  // ----- The store, updated in place -----

  class ContentStore {
    var users: map<UserId, string>
    var recipes: map<RecipeId, Recipe>
    var tags: map<TagId, Tag>
    var instructions: map<InstructionId, Instruction>
    var ingredients: map<IngredientId, Ingredient>
    var comments: map<CommentId, Comment>
    var recipeLikes: map<LikeId, RecipeLike>
    var commentLikes: map<LikeId, CommentLike>
    /** The next primary key to hand out. */
    var nextId: nat

    function State(): Db
      reads this
    {
      Db(users, recipes, tags, instructions, ingredients, comments, recipeLikes, commentLikes)
    }

    ghost predicate Valid()
      reads this
    {
      Integrity(State()) && KeysBelow(State(), nextId)
    }

    constructor ()
      ensures Valid() && State() == EmptyDb
    {
      users, recipes, tags, instructions, ingredients := map[], map[], map[], map[], map[];
      comments, recipeLikes, commentLikes := map[], map[], map[];
      nextId := 0;
    }

    /** The number of likes on comment `c`: `comment.likes.count()`. */
    function LikeCount(c: CommentId): (n: nat)
      reads this
      ensures n <= |commentLikes|
      ensures n == 0 <==> forall l :: l in commentLikes ==> commentLikes[l].comment != c
    {
      LikesWithinTable(State(), c);
      |LikesOn(State(), c)|
    }

    method NewKey() returns (k: nat)
      modifies this`nextId
      ensures k == old(nextId) && nextId == k + 1
    {
      k := nextId;
      nextId := nextId + 1;
    }

    /** A user row for the fixtures of the engagement tests. It bypasses
        `create_user`: the account rules are those of `Accounts.UserManager`,
        which is a separate store. */
    method AddUser(username: string) returns (id: UserId)
      requires Valid()
      modifies this
      ensures Valid() && id !in old(users)
      ensures State() == old(State()).(users := old(users)[id := username])
    {
      InsertUserIntegrity(State(), nextId, username);
      ghost var before := State();
      id := NewKey();
      users := users[id := username];
      GrowsByBelow(before, State(), id);
    }

    /** Creating a recipe; a missing author violates the foreign key and
        nothing is stored. */
    method AddRecipe(author: UserId, name: string, createdAt: int) returns (id: Option<RecipeId>)
      requires Valid()
      modifies this
      ensures Valid()
      ensures id.Some? <==> author in old(users)
      ensures id.Some? ==> (id.value !in old(recipes)
        && State() == old(State()).(recipes := old(recipes)[id.value := Recipe(name, createdAt, author, {})]))
      ensures id.None? ==> State() == old(State())
    {
      if author !in users {
        return None;
      }
      var row := Recipe(name, createdAt, author, {});
      InsertRecipeIntegrity(State(), nextId, row);
      ghost var before := State();
      var k := NewKey();
      recipes := recipes[k := row];
      GrowsByBelow(before, State(), k);
      id := Some(k);
    }

    /** Creating a tag; without a type it is a custom tag. */
    method AddTag(name: string, tagType: Option<string>) returns (id: TagId)
      requires Valid()
      modifies this
      ensures Valid() && id !in old(tags)
      ensures State() == old(State()).(tags := old(tags)[id := NewTag(name, tagType)])
    {
      InsertTagIntegrity(State(), nextId, NewTag(name, tagType));
      ghost var before := State();
      id := NewKey();
      tags := tags[id := NewTag(name, tagType)];
      GrowsByBelow(before, State(), id);
    }

    /** `recipe.tags.add(tag)`: linking twice is linking once. */
    method LinkTag(r: RecipeId, t: TagId) returns (ok: bool)
      requires Valid()
      modifies this
      ensures Valid()
      ensures ok <==> r in old(recipes) && t in old(tags)
      ensures ok ==> State() == old(State()).(recipes := old(recipes)[r := old(recipes)[r].(tags := old(recipes)[r].tags + {t})])
      ensures !ok ==> State() == old(State())
    {
      ok := r in recipes && t in tags;
      if ok {
        var row := recipes[r].(tags := recipes[r].tags + {t});
        InsertRecipeIntegrity(State(), r, row);
        KeysWithinBelow(State().(recipes := recipes[r := row]), State(), nextId);
        recipes := recipes[r := row];
      }
    }

    method AddInstruction(recipe: RecipeId, step: nat, description: string) returns (id: Option<InstructionId>)
      requires Valid()
      modifies this
      ensures Valid()
      ensures id.Some? <==> recipe in old(recipes)
      ensures id.Some? ==> (id.value !in old(instructions)
        && State() == old(State()).(instructions := old(instructions)[id.value := Instruction(step, description, recipe)]))
      ensures id.None? ==> State() == old(State())
    {
      if recipe !in recipes {
        return None;
      }
      var row := Instruction(step, description, recipe);
      InsertInstructionIntegrity(State(), nextId, row);
      ghost var before := State();
      var k := NewKey();
      instructions := instructions[k := row];
      GrowsByBelow(before, State(), k);
      id := Some(k);
    }

    method AddIngredient(recipe: RecipeId, position: nat, name: string, measurement: string)
      returns (id: Option<IngredientId>)
      requires Valid()
      modifies this
      ensures Valid()
      ensures id.Some? <==> recipe in old(recipes)
      ensures id.Some? ==> (id.value !in old(ingredients)
        && State() == old(State()).(ingredients := old(ingredients)[id.value := Ingredient(position, name, measurement, recipe)]))
      ensures id.None? ==> State() == old(State())
    {
      if recipe !in recipes {
        return None;
      }
      var row := Ingredient(position, name, measurement, recipe);
      InsertIngredientIntegrity(State(), nextId, row);
      ghost var before := State();
      var k := NewKey();
      ingredients := ingredients[k := row];
      GrowsByBelow(before, State(), k);
      id := Some(k);
    }

    method AddComment(recipe: RecipeId, author: Option<UserId>, text: string) returns (id: Option<CommentId>)
      requires Valid()
      modifies this
      ensures Valid()
      ensures id.Some? <==> recipe in old(recipes) && AuthorIn(author, old(users))
      ensures id.Some? ==> (id.value !in old(comments)
        && State() == old(State()).(comments := old(comments)[id.value := Comment(text, recipe, author)]))
      ensures id.None? ==> State() == old(State())
    {
      if recipe !in recipes || !AuthorIn(author, users) {
        return None;
      }
      var row := Comment(text, recipe, author);
      InsertCommentIntegrity(State(), nextId, row);
      ghost var before := State();
      var k := NewKey();
      comments := comments[k := row];
      GrowsByBelow(before, State(), k);
      id := Some(k);
    }

    method AddRecipeLike(recipe: RecipeId, author: Option<UserId>) returns (id: Option<LikeId>)
      requires Valid()
      modifies this
      ensures Valid()
      ensures id.Some? <==> recipe in old(recipes) && AuthorIn(author, old(users))
      ensures id.Some? ==> (id.value !in old(recipeLikes)
        && State() == old(State()).(recipeLikes := old(recipeLikes)[id.value := RecipeLike(recipe, author)]))
      ensures id.None? ==> State() == old(State())
    {
      if recipe !in recipes || !AuthorIn(author, users) {
        return None;
      }
      var row := RecipeLike(recipe, author);
      InsertRecipeLikeIntegrity(State(), nextId, row);
      ghost var before := State();
      var k := NewKey();
      recipeLikes := recipeLikes[k := row];
      GrowsByBelow(before, State(), k);
      id := Some(k);
    }

    method AddCommentLike(comment: CommentId, author: Option<UserId>) returns (id: Option<LikeId>)
      requires Valid()
      modifies this
      ensures Valid()
      ensures id.Some? <==> comment in old(comments) && AuthorIn(author, old(users))
      ensures id.Some? ==> (id.value !in old(commentLikes)
        && State() == old(State()).(commentLikes := old(commentLikes)[id.value := CommentLike(comment, author)]))
      ensures id.None? ==> State() == old(State())
    {
      if comment !in comments || !AuthorIn(author, users) {
        return None;
      }
      var row := CommentLike(comment, author);
      InsertCommentLikeIntegrity(State(), nextId, row);
      ghost var before := State();
      var k := NewKey();
      commentLikes := commentLikes[k := row];
      GrowsByBelow(before, State(), k);
      id := Some(k);
    }

    /** `comment.likes.add(*ls)`; a comment that is not stored cannot take
        likes, and nothing changes. */
    method AttachCommentLikes(c: CommentId, ls: set<LikeId>) returns (ok: bool)
      requires Valid()
      modifies this
      ensures Valid()
      ensures ok <==> c in old(comments)
      ensures ok ==> State() == AttachLikes(old(State()), c, ls)
      ensures !ok ==> State() == old(State())
    {
      ok := c in comments;
      if ok {
        AttachLikesIntegrity(State(), c, ls);
        KeysWithinBelow(AttachLikes(State(), c, ls), State(), nextId);
        RepointLikeRows(c, ls);
      }
    }

    /** The stored likes among `ls` now point at comment `c`. */
    method RepointLikeRows(c: CommentId, ls: set<LikeId>)
      modifies this`commentLikes
      ensures State() == AttachLikes(old(State()), c, ls)
    {
      commentLikes := map l | l in commentLikes ::
        if l in ls then commentLikes[l].(comment := c) else commentLikes[l];
    }

    /** The comment rows `cs` and their likes are removed. */
    method DropCommentRows(cs: set<CommentId>)
      modifies this`comments, this`commentLikes
      ensures State() == DropComments(old(State()), cs)
    {
      comments := map c | c in comments && c !in cs :: comments[c];
      commentLikes := map l | l in commentLikes && commentLikes[l].comment !in cs :: commentLikes[l];
    }

    /** The recipe rows `rs` and everything that cascades from them are removed. */
    method DropRecipeRows(rs: set<RecipeId>)
      modifies this`recipes, this`instructions, this`ingredients, this`recipeLikes,
        this`comments, this`commentLikes
      ensures State() == DropRecipes(old(State()), rs)
    {
      var doomed := set c | c in comments && comments[c].recipe in rs;
      recipes := map r | r in recipes && r !in rs :: recipes[r];
      instructions := map i | i in instructions && instructions[i].recipe !in rs :: instructions[i];
      ingredients := map i | i in ingredients && ingredients[i].recipe !in rs :: ingredients[i];
      recipeLikes := map l | l in recipeLikes && recipeLikes[l].recipe !in rs :: recipeLikes[l];
      DropCommentRows(doomed);
    }

    method DeleteRecipe(r: RecipeId)
      requires Valid()
      modifies this
      ensures Valid()
      ensures State() == RecipeDeletion(old(State()), r)
      ensures nextId == old(nextId)
    {
      ghost var before := State();
      DropRecipesIntegrity(before, {r});
      DeletionsKeepKeys(before, 0, r, 0, 0);
      KeysWithinBelow(RecipeDeletion(before, r), before, nextId);
      DropRecipeRows({r});
      assert State() == RecipeDeletion(before, r);
    }

    method DeleteComment(c: CommentId)
      requires Valid()
      modifies this
      ensures Valid()
      ensures State() == CommentDeletion(old(State()), c)
      ensures nextId == old(nextId)
    {
      DropCommentsIntegrity(State(), {c});
      DeletionsKeepKeys(State(), 0, 0, c, 0);
      KeysWithinBelow(CommentDeletion(State(), c), State(), nextId);
      DropCommentRows({c});
    }

    method DeleteUser(u: UserId)
      requires Valid()
      modifies this
      ensures Valid()
      ensures State() == UserDeletion(old(State()), u)
      ensures nextId == old(nextId)
    {
      UserDeletionIntegrity(State(), u);
      DeletionsKeepKeys(State(), u, 0, 0, 0);
      KeysWithinBelow(UserDeletion(State(), u), State(), nextId);
      DropUserRows(u);
    }

    /** The rows user `u` authored go with everything that hangs on them,
        then the user row goes and references to it are cleared. */
    method DropUserRows(u: UserId)
      modifies this`users, this`recipes, this`instructions, this`ingredients,
        this`comments, this`recipeLikes, this`commentLikes
      ensures State() == UserDeletion(old(State()), u)
    {
      ghost var before := State();
      var authored := set r | r in recipes && recipes[r].author == u;
      assert authored == RecipesBy(before, u);
      DropRecipeRows(authored);
      ClearUserRows(u);
    }

    /** The user row `u` is removed and references to it are cleared. */
    method ClearUserRows(u: UserId)
      modifies this`users, this`comments, this`recipeLikes, this`commentLikes
      ensures State() == ClearUser(old(State()), u)
    {
      users := users - {u};
      comments := map c | c in comments :: comments[c].(author := ClearAuthor(comments[c].author, u));
      recipeLikes := map l | l in recipeLikes :: recipeLikes[l].(author := ClearAuthor(recipeLikes[l].author, u));
      commentLikes := map l | l in commentLikes :: commentLikes[l].(author := ClearAuthor(commentLikes[l].author, u));
    }

    method DeleteTag(t: TagId)
      requires Valid()
      modifies this
      ensures Valid()
      ensures State() == TagDeletion(old(State()), t)
      ensures nextId == old(nextId)
    {
      TagDeletionIntegrity(State(), t);
      DeletionsKeepKeys(State(), 0, 0, 0, t);
      KeysWithinBelow(TagDeletion(State(), t), State(), nextId);
      DropTagRows(t);
    }

    /** The tag row `t` is removed, and so are the recipes' links to it. */
    method DropTagRows(t: TagId)
      modifies this`tags, this`recipes
      ensures State() == TagDeletion(old(State()), t)
    {
      tags := tags - {t};
      recipes := map r | r in recipes :: recipes[r].(tags := recipes[r].tags - {t});
    }

    /** Instructions, ingredients and likes have no dependants: deleting one
        removes that row only. */
    method DeleteInstruction(i: InstructionId)
      requires Valid()
      modifies this
      ensures Valid()
      ensures State() == old(State()).(instructions := old(instructions) - {i})
      ensures nextId == old(nextId)
    {
      instructions := instructions - {i};
    }

    method DeleteIngredient(i: IngredientId)
      requires Valid()
      modifies this
      ensures Valid()
      ensures State() == old(State()).(ingredients := old(ingredients) - {i})
      ensures nextId == old(nextId)
    {
      ingredients := ingredients - {i};
    }

    method DeleteRecipeLike(l: LikeId)
      requires Valid()
      modifies this
      ensures Valid()
      ensures State() == old(State()).(recipeLikes := old(recipeLikes) - {l})
      ensures nextId == old(nextId)
    {
      recipeLikes := recipeLikes - {l};
    }

    method DeleteCommentLike(l: LikeId)
      requires Valid()
      modifies this
      ensures Valid()
      ensures State() == old(State()).(commentLikes := old(commentLikes) - {l})
      ensures nextId == old(nextId)
    {
      commentLikes := commentLikes - {l};
    }
  }

  /** A comment that is not stored yet has no likes. */
  lemma FreshCommentHasNoLikes(db: Db, c: CommentId)
    requires Integrity(db) && c !in db.comments
    ensures LikesOn(db, c) == {}
  {
  }

  /** Adding a like on `c` under a fresh key adds that key to its likes. */
  lemma AddedLikeIsCounted(db: Db, n: LikeId, x: CommentLike)
    requires n !in db.commentLikes
    ensures LikesOn(db.(commentLikes := db.commentLikes[n := x]), x.comment) == LikesOn(db, x.comment) + {n}
  {
  }

  /** The fixture of the comment-like test: a stored recipe with a fresh
      comment on it, and three users to like it. */
  method CommentFixture() returns (store: ContentStore, c: CommentId, liker1: UserId, liker2: UserId, liker3: UserId)
    ensures fresh(store) && store.Valid()
    ensures c in store.comments && LikesOn(store.State(), c) == {}
    ensures liker1 in store.users && liker2 in store.users && liker3 in store.users
  {
    store := new ContentStore();
    var author := store.AddUser("author");
    var recipe := store.AddRecipe(author, "Test recipe", 0);
    liker1 := store.AddUser("liker_1");
    liker2 := store.AddUser("liker_2");
    liker3 := store.AddUser("liker_3");
    var commenter := store.AddUser("commenter");
    FreshCommentHasNoLikes(store.State(), store.nextId);
    var comment := store.AddComment(recipe.value, Some(commenter), "Test comment test comment");
    c := comment.value;
  }

  /** Liking comment `c` through `get_or_create` and attaching the like:
      the like is created on the comment, and attaching it again is a no-op. */
  method LikeComment(store: ContentStore, c: CommentId, liker: UserId) returns (l: LikeId)
    requires store.Valid() && c in store.comments && liker in store.users
    modifies store
    ensures store.Valid() && store.users == old(store.users) && store.comments == old(store.comments)
    ensures LikesOn(store.State(), c) == LikesOn(old(store.State()), c) + {l}
    ensures store.LikeCount(c) == old(store.LikeCount(c)) + 1
  {
    ghost var s0 := store.State();
    var like := store.AddCommentLike(c, Some(liker));
    l := like.value;
    AddedLikeIsCounted(s0, l, CommentLike(c, Some(liker)));
    AttachLikesIdempotent(store.State(), c, {l});
    var ok := store.AttachCommentLikes(c, {l});
  }

  /** The first half of the comment-like test: one user likes the fresh
      comment and its count becomes one. */
  method FirstCommentLike() returns (store: ContentStore, c: CommentId, l1: LikeId, liker2: UserId, liker3: UserId, count: nat)
    ensures fresh(store) && store.Valid()
    ensures c in store.comments && LikesOn(store.State(), c) == {l1}
    ensures liker2 in store.users && liker3 in store.users
    ensures count == 1
  {
    var liker1;
    store, c, liker1, liker2, liker3 := CommentFixture();
    l1 := LikeComment(store, c, liker1);
    count := store.LikeCount(c);
  }

  /** The comment-like test: three users like a fresh comment; attaching the
      likes again leaves the count at three. */
  method CommentLikeCounts() returns (afterFirst: nat, afterThree: nat, afterReAdding: nat)
    ensures afterFirst == 1 && afterThree == 3 && afterReAdding == 3
  {
    var store, c, l1, liker2, liker3;
    store, c, l1, liker2, liker3, afterFirst := FirstCommentLike();
    var l2 := LikeComment(store, c, liker2);
    var l3 := LikeComment(store, c, liker3);
    afterThree := store.LikeCount(c);
    AttachLikesIdempotent(store.State(), c, {l1, l2, l3});
    var ok := store.AttachCommentLikes(c, {l1, l2, l3});
    afterReAdding := store.LikeCount(c);
  }
}
