/** What the dashboard (src/pages/dashboard/DashboardPage.tsx) derives from
    the logged-in user: the greeting name, the recent badges and the points. */
module Dashboard {
  import opened Wrappers
  import opened Types
  import Strings

  const Fallback := "Usuário"

  /** `getFirstName`: the first space-separated word of the trimmed name;
      failing a name, the part of the e-mail before the first '@'; failing
      both, "Usuário". */
  function FirstName(user: Option<User>): (r: string)
    ensures r != []
  {
    if user.None? then Fallback
    else
      var name := Strings.Trim(user.value.name);
      if name != [] then
        var first := Strings.BeforeFirst(name, ' ');
        if first != [] then first else Fallback
      else if '@' in user.value.email then
        var local := Strings.BeforeFirst(user.value.email, '@');
        if local != [] then local else Fallback
      else Fallback
  }

  /** A name that is not blank always yields its first word: the trimmed name
      starts with a non-space, so the fallback is never taken. */
  lemma FirstNameFromName(u: User)
    requires Strings.Trim(u.name) != []
    ensures var r := FirstName(Some(u)); var t := Strings.Trim(u.name);
      && r != [] && r == t[..|r|] && ' ' !in r
      && (|r| == |t| || t[|r|] == ' ')
  {
    var t := Strings.Trim(u.name);
    assert !Strings.IsWhitespace(t[0]);
    assert Strings.BeforeFirst(t, ' ') != [];
  }

  /** With a blank name the e-mail decides: its part before the first '@',
      unless that part is empty or there is no '@'. */
  lemma FirstNameFromEmail(u: User)
    requires Strings.Trim(u.name) == []
    ensures '@' in u.email && u.email[0] != '@' ==>
      var r := FirstName(Some(u));
      && r == u.email[..|r|] && '@' !in r && u.email[|r|] == '@'
    ensures '@' !in u.email || u.email[0] == '@' ==> FirstName(Some(u)) == Fallback
  {
    if '@' in u.email {
      var local := Strings.BeforeFirst(u.email, '@');
      assert |local| < |u.email|;
    }
  }

  /** `getRecentBadges`: at most the first three badges of the user. */
  function RecentBadges(user: Option<User>): (r: seq<Badge>)
    ensures user.None? ==> r == []
    ensures user.Some? ==>
      && |r| == (if |user.value.badges| < 3 then |user.value.badges| else 3)
      && r == user.value.badges[..|r|]
  {
    if user.Some? && |user.value.badges| > 0 then
      var bs := user.value.badges;
      if |bs| < 3 then bs else bs[..3]
    else []
  }

  /** The points card: `user?.points || user?.total_points || 0`. The user
      type has no `total_points`, so it is a parameter (None for every user
      the stores create); a zero in either place falls through. */
  function DisplayedPoints(user: Option<User>, totalPoints: Option<int>): (r: int)
    ensures user.Some? && user.value.points != 0 ==> r == user.value.points
    ensures user.Some? && user.value.points == 0 && totalPoints.Some? && totalPoints.value != 0 ==>
      r == totalPoints.value
    ensures r == 0 <==>
      (user.None? || user.value.points == 0) && (user.None? || totalPoints.None? || totalPoints.value == 0)
  {
    if user.Some? && user.value.points != 0 then user.value.points
    else if user.Some? && totalPoints.Some? && totalPoints.value != 0 then totalPoints.value
    else 0
  }
}
