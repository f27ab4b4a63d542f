/** Where uploaded pictures are stored: the `upload_to` path of the user
    model's profile picture, and the two builders of the picture-upload
    model. Each location setting is a parameter. */
module UploadPaths {
  import opened Outcomes
  import opened Text
  import opened Recipes
  import opened Accounts

  /** The user model's `upload_path`:
      location, then `/user<`, the username, `>-` and the file name. */
  function UserUploadPath(location: string, user: Account, filename: string): (p: string)
    ensures |p| == |location| + |user.username| + |filename| + 8
    ensures p[..|location| + 1] == location + "/"
    ensures p[|location| + 1..|location| + 6] == "user<"
    ensures p[|p| - |filename|..] == filename
  {
    location + "/user<" + user.username + ">-" + filename
  }

  /** `_upload_path_recipes`: location, then `/recipe-`, the recipe id as
      `str` shows it (`None` for a recipe not yet saved), `-` and the file
      name. */
  function RecipePicturePath(location: string, id: Option<RecipeId>, filename: string): (p: string)
    ensures |p| == |location| + |IdString(id)| + |filename| + 9
    ensures p[..|location| + 1] == location + "/"
    ensures p[|location| + 1..|location| + 8] == "recipe-"
    ensures p[|p| - |filename|..] == filename
  {
    location + "/recipe-" + IdString(id) + "-" + filename
  }

  /** `_upload_path_profiles`: location, then `/user-`, the username, `-`
      and the file name. */
  function ProfilePicturePath(location: string, user: Account, filename: string): (p: string)
    ensures |p| == |location| + |user.username| + |filename| + 7
    ensures p[..|location| + 1] == location + "/"
    ensures p[|location| + 1..|location| + 6] == "user-"
    ensures p[|p| - |filename|..] == filename
  {
    location + "/user-" + user.username + "-" + filename
  }

  // ----- Properties -----

  /** The two profile-picture templates never produce the same path under
      one location: they differ at the character after `user`. */
  lemma UserPathDiffersFromProfilePath(location: string, u1: Account, f1: string, u2: Account, f2: string)
    ensures UserUploadPath(location, u1, f1) != ProfilePicturePath(location, u2, f2)
  {
    var p, q := UserUploadPath(location, u1, f1), ProfilePicturePath(location, u2, f2);
    var k := |location| + 5;
    assert p[k] == p[|location| + 1..|location| + 6][4] == '<';
    assert q[k] == q[|location| + 1..|location| + 6][4] == '-';
  }

  /** Both profile paths show the user as `User.__str__` renders it, right
      after their `user<` or `user-`. */
  lemma ProfilePathsShowUser(location: string, user: Account, filename: string)
    ensures var k := |location| + 6;
            UserUploadPath(location, user, filename)[k..k + |UserStr(user)|] == UserStr(user)
            && ProfilePicturePath(location, user, filename)[k..k + |UserStr(user)|] == UserStr(user)
  {
    var k := |location| + 6;
    var p := UserUploadPath(location, user, filename);
    assert p == (location + "/user<") + user.username + (">-" + filename);
    var q := ProfilePicturePath(location, user, filename);
    assert q == (location + "/user-") + user.username + ("-" + filename);
  }

  /** A recipe picture path determines the recipe id and the file name,
      because a rendered id contains no `-`. */
  lemma RecipePathInjective(location: string, id1: Option<RecipeId>, f1: string, id2: Option<RecipeId>, f2: string)
    requires RecipePicturePath(location, id1, f1) == RecipePicturePath(location, id2, f2)
    ensures id1 == id2 && f1 == f2
  {
    var prefix := location + "/recipe-";
    var s1, s2 := IdString(id1) + ['-'] + f1, IdString(id2) + ['-'] + f2;
    RecipePathSplits(location, id1, f1);
    RecipePathSplits(location, id2, f2);
    CancelPrefix(prefix, s1, s2);
    SplitAtSeparator(IdString(id1), f1, IdString(id2), f2, '-');
    IdStringInjective(id1, id2);
  }

  lemma RecipePathSplits(location: string, id: Option<RecipeId>, filename: string)
    ensures RecipePicturePath(location, id, filename)
            == (location + "/recipe-") + (IdString(id) + ['-'] + filename)
  {
  }

  /** The profile templates do not determine the user: a `-` in a username
      (which the username rules allow) can move into the file name. */
  lemma ProfilePathAmbiguous(location: string, u1: Account, u2: Account)
    requires u1.username == "ann-lee" && u2.username == "ann"
    ensures ProfilePicturePath(location, u1, "x.png") == ProfilePicturePath(location, u2, "lee-x.png")
  {
    assert ProfilePicturePath(location, u1, "x.png") == location + "/user-ann-lee-x.png";
    assert ProfilePicturePath(location, u2, "lee-x.png") == location + "/user-ann-lee-x.png";
  }
}
