/** The engagement rows of `backend/apps/engagement/models.py`: comments on
    recipes and likes on recipes and on comments. Every author reference is
    nullable: deleting the author keeps the row with no author. */
module Engagement {
  import opened Outcomes
  import opened Recipes

  type CommentId = nat
  type LikeId = nat

  datatype Comment = Comment(text: string, recipe: RecipeId, author: Option<UserId>)

  datatype RecipeLike = RecipeLike(recipe: RecipeId, author: Option<UserId>)

  datatype CommentLike = CommentLike(comment: CommentId, author: Option<UserId>)

  /** `Comment.__str__`, given the usernames of the stored users. Reading the
      username of a missing author raises, which is `None` here. */
  function CommentStr(c: Comment, usernames: map<UserId, string>): (r: Option<string>)
    ensures r.None? <==> c.author.None? || c.author.value !in usernames
    ensures r.Some? ==> |r.value| == |usernames[c.author.value]| + |c.text| + 14
    ensures r.Some? ==> r.value[..5] == "User " && r.value[|r.value| - |c.text|..] == c.text
    ensures r.Some? ==> var n := usernames[c.author.value];
                        r.value[5..5 + |n|] == n && r.value[5 + |n|..14 + |n|] == " says... "
  {
    match c.author
    case None => None
    case Some(u) =>
      if u in usernames then Some("User " + usernames[u] + " says... " + c.text) else None
  }
}
