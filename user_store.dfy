/** The user store (src/store/userStore.ts): profile updates, points,
    badges drawn from the badge catalog, and the points leaderboard. */
module Users {
  import opened Wrappers
  import opened Types
  import Seqs
  import MockData

  /** A `Partial<User>`: each present field replaces the user's own. */
  datatype UserPatch = UserPatch(
    id: Option<Id>, name: Option<string>, email: Option<string>,
    phone: Option<Option<string>>, photoUrl: Option<Option<string>>,
    points: Option<int>, badges: Option<seq<Badge>>, createdAt: Option<Time>)

  const NoChanges := UserPatch(None, None, None, None, None, None, None, None)

  /** `{ ...user, ...data }`. */
  function Merge(u: User, p: UserPatch): User {
    User(p.id.GetOr(u.id), p.name.GetOr(u.name), p.email.GetOr(u.email),
         p.phone.GetOr(u.phone), p.photoUrl.GetOr(u.photoUrl), p.points.GetOr(u.points),
         p.badges.GetOr(u.badges), p.createdAt.GetOr(u.createdAt))
  }

  /** Merging leaves absent fields alone, takes present ones, and merging
      the same patch twice changes nothing more. */
  lemma MergeLaws(u: User, p: UserPatch)
    ensures Merge(u, NoChanges) == u
    ensures Merge(Merge(u, p), p) == Merge(u, p)
    ensures p.id.Some? ==> Merge(u, p).id == p.id.value
    ensures p.id.None? ==> Merge(u, p).id == u.id
    ensures p.name.Some? ==> Merge(u, p).name == p.name.value
    ensures p.name.None? ==> Merge(u, p).name == u.name
    ensures p.email.Some? ==> Merge(u, p).email == p.email.value
    ensures p.email.None? ==> Merge(u, p).email == u.email
    ensures p.phone.Some? ==> Merge(u, p).phone == p.phone.value
    ensures p.phone.None? ==> Merge(u, p).phone == u.phone
    ensures p.photoUrl.Some? ==> Merge(u, p).photoUrl == p.photoUrl.value
    ensures p.photoUrl.None? ==> Merge(u, p).photoUrl == u.photoUrl
    ensures p.points.Some? ==> Merge(u, p).points == p.points.value
    ensures p.points.None? ==> Merge(u, p).points == u.points
    ensures p.badges.Some? ==> Merge(u, p).badges == p.badges.value
    ensures p.badges.None? ==> Merge(u, p).badges == u.badges
    ensures p.createdAt.Some? ==> Merge(u, p).createdAt == p.createdAt.value
    ensures p.createdAt.None? ==> Merge(u, p).createdAt == u.createdAt
  {
  }

  /** The selection `u => u.id === id`. */
  function IdIs(id: Id): User -> bool {
    (u: User) => u.id == id
  }

  /** `users.find(u => u.id === id)`. */
  function FindUser(us: seq<User>, id: Id): Option<User> {
    Seqs.Find(us, IdIs(id))
  }

  /** `users.map(u => u.id === id ? f(u) : u)`. */
  function ApplyTo(us: seq<User>, id: Id, f: User -> User): seq<User> {
    Seqs.MapIf(us, IdIs(id), f)
  }

  /** After an update that keeps the id, looking the id up finds the update
      of the user it found before; a user it did not find stays missing. */
  lemma FindAfterApply(us: seq<User>, id: Id, f: User -> User)
    requires forall u :: f(u).id == u.id
    ensures FindUser(ApplyTo(us, id, f), id) == match FindUser(us, id) { case None => None case Some(u) => Some(f(u)) }
  {
    Seqs.FindAfterMapIf(us, IdIs(id), f);
  }

  /** A patch that gives every matching user another id leaves nobody with
      the old one, so `updateUser` then returns `undefined`. */
  lemma RenameLosesUser(us: seq<User>, id: Id, p: UserPatch)
    requires p.id.Some? && p.id.value != id
    ensures FindUser(ApplyTo(us, id, u => Merge(u, p)), id) == None
  {
    var r := ApplyTo(us, id, u => Merge(u, p));
    forall i | 0 <= i < |r|
      ensures r[i].id != id
    {
    }
  }

  function AddPointsTo(points: int): User -> User {
    (u: User) => u.(points := u.points + points)
  }

  /** The badge as the user earns it: the catalog badge, stamped now. */
  function GrantBadge(b: Badge, now: Time): User -> User {
    (u: User) => u.(badges := u.badges + [b.(earnedAt := now)])
  }

  /** `user.badges.some(b => b.id === badgeId)`. */
  predicate HasBadge(u: User, badgeId: Id) {
    exists i | 0 <= i < |u.badges| :: u.badges[i].id == badgeId
  }

  /** `mockBadges.find(b => b.id === badgeId)`. */
  function CatalogBadge(badgeId: Id): Option<Badge> {
    Seqs.Find(MockData.Badges, (b: Badge) => b.id == badgeId)
  }

  /** The sum of all users' points. */
  function TotalPoints(us: seq<User>): int {
    if us == [] then 0 else us[0].points + TotalPoints(us[1..])
  }

  /** How many users carry the id. */
  function CountId(us: seq<User>, id: Id): nat {
    if us == [] then 0 else (if us[0].id == id then 1 else 0) + CountId(us[1..], id)
  }

  /** Adding points changes the total by the points times the number of
      users with that id, and nothing else. */
  lemma {:induction false} AddPointsTotal(us: seq<User>, id: Id, points: int)
    ensures TotalPoints(ApplyTo(us, id, AddPointsTo(points))) == TotalPoints(us) + points * CountId(us, id)
  {
    if us != [] {
      AddPointsTotal(us[1..], id, points);
      assert ApplyTo(us, id, AddPointsTo(points))[1..] == ApplyTo(us[1..], id, AddPointsTo(points));
    }
  }

  /** No two users share an id. */
  ghost predicate UniqueIds(us: seq<User>) {
    forall i, j :: 0 <= i < j < |us| ==> us[i].id != us[j].id
  }

  /** No user holds two badges with the same id. */
  ghost predicate DistinctBadges(us: seq<User>) {
    forall k :: 0 <= k < |us| ==>
      forall i, j :: 0 <= i < j < |us[k].badges| ==> us[k].badges[i].id != us[k].badges[j].id
  }

  /** The check before awarding a badge keeps every user's badges distinct,
      as long as ids are unique, so that the user checked is the only one
      that receives it. */
  lemma GrantKeepsDistinct(us: seq<User>, userId: Id, b: Badge, now: Time)
    requires UniqueIds(us) && DistinctBadges(us)
    requires FindUser(us, userId).Some? ==> !HasBadge(FindUser(us, userId).value, b.id)
    ensures UniqueIds(ApplyTo(us, userId, GrantBadge(b, now)))
    ensures DistinctBadges(ApplyTo(us, userId, GrantBadge(b, now)))
  {
    var r := ApplyTo(us, userId, GrantBadge(b, now));
    forall k | 0 <= k < |r| && us[k].id == userId
      ensures forall i, j :: 0 <= i < j < |r[k].badges| ==> r[k].badges[i].id != r[k].badges[j].id
    {
      var found := FindUser(us, userId);
      assert found.Some?;
      assert found.value == us[k];
    }
  }

  /** The leaderboard order: by points, highest first, ties kept in store order. */
  function PointsOf(u: User): int {
    u.points
  }

  function Ranking(us: seq<User>): seq<User> {
    Seqs.SortDesc(us, PointsOf)
  }

  /** The leaderboard holds exactly the users, ordered by points, with
      users of equal points in their original order. */
  lemma RankingCorrect(us: seq<User>, k: int)
    ensures Seqs.SortedDesc(Ranking(us), PointsOf)
    ensures multiset(Ranking(us)) == multiset(us)
    ensures Seqs.WithKey(Ranking(us), PointsOf, k) == Seqs.WithKey(us, PointsOf, k)
  {
    Seqs.SortStable(us, PointsOf, k);
  }

  /** The ranking of three users whose points are in the order second <
      first < third. */
  lemma RankingOfThree(first: User, second: User, third: User)
    requires second.points < first.points < third.points
    ensures Ranking([first, second, third]) == [third, first, second]
  {
    Seqs.SortThree(first, second, third, PointsOf);
  }

  /** On the seed users the ranking is Carla (1540), Juliana (1250), Rafael (980). */
  lemma SeedRanking()
    ensures Ranking(MockData.Users) == [MockData.Carla, MockData.Juliana, MockData.Rafael]
  {
    RankingOfThree(MockData.Juliana, MockData.Rafael, MockData.Carla);
  }

  /** The badge catalog's ids are all different, so `find` by id is unambiguous. */
  lemma CatalogIdsDistinct()
    ensures forall i, j :: 0 <= i < j < |MockData.Badges| ==> MockData.Badges[i].id != MockData.Badges[j].id
  {
  }

  class UserStore {
    var users: seq<User>
    var leaderboard: seq<User>
    var isLoading: bool
    var error: Option<string>

    constructor ()
      ensures users == MockData.Users && leaderboard == []
      ensures !isLoading && error == None
    {
      users := MockData.Users;
      leaderboard := [];
      isLoading := false;
      error := None;
    }

    /** `getUser`: the first user with that id. */
    function GetUser(id: Id): (r: Option<User>)
      reads this
      ensures r.Some? <==> exists i :: 0 <= i < |users| && users[i].id == id
      ensures r.Some? ==> exists i :: 0 <= i < |users| && users[i] == r.value && r.value.id == id
                                      && forall j :: 0 <= j < i ==> users[j].id != id
    {
      FindUser(users, id)
    }

    /** `updateUser`: merge the patch into every user with the id, then
        look the id up again (which finds nobody when the patch changed it). */
    method UpdateUser(id: Id, data: UserPatch, delay: Delay) returns (r: Result<Option<User>>)
      modifies this`users, this`isLoading, this`error
      ensures delay.Resolves? ==>
        && users == ApplyTo(old(users), id, u => Merge(u, data))
        && r == Success(FindUser(users, id)) && error == None
      ensures !delay.Resolves? ==>
        && users == old(users)
        && r == Failure(RejectionMessage(delay, "Erro ao atualizar usuário")) && error == Some(r.error)
      ensures !isLoading
    {
      isLoading, error := true, None;
      if delay.Resolves? {
        users := ApplyTo(users, id, u => Merge(u, data));
        isLoading := false;
        r := Success(FindUser(users, id));
      } else {
        var message := RejectionMessage(delay, "Erro ao atualizar usuário");
        error, isLoading := Some(message), false;
        r := Failure(message);
      }
    }

    /** `addPoints`: add to the points of every user with the id. */
    method AddPoints(userId: Id, points: int, delay: Delay) returns (r: Result<Option<User>>)
      modifies this`users, this`isLoading, this`error
      ensures delay.Resolves? ==>
        && users == ApplyTo(old(users), userId, AddPointsTo(points))
        && r == Success(match FindUser(old(users), userId) {
                          case None => None
                          case Some(u) => Some(u.(points := u.points + points)) })
        && error == None
      ensures !delay.Resolves? ==>
        && users == old(users)
        && r == Failure(RejectionMessage(delay, "Erro ao adicionar pontos")) && error == Some(r.error)
      ensures !isLoading
    {
      isLoading, error := true, None;
      if delay.Resolves? {
        FindAfterApply(users, userId, AddPointsTo(points));
        users := ApplyTo(users, userId, AddPointsTo(points));
        isLoading := false;
        r := Success(FindUser(users, userId));
      } else {
        var message := RejectionMessage(delay, "Erro ao adicionar pontos");
        error, isLoading := Some(message), false;
        r := Failure(message);
      }
    }

    /** `addBadge`: refuse an unknown user, an unknown badge and a badge the
        user already holds, in that order; otherwise append the badge,
        stamped with the current time. */
    method AddBadge(userId: Id, badgeId: Id, now: Time, delay: Delay) returns (r: Result<Option<User>>)
      modifies this`users, this`isLoading, this`error
      ensures FindUser(old(users), userId).None? ==>
        r == Failure("Usuário não encontrado") && users == old(users)
      ensures FindUser(old(users), userId).Some? && CatalogBadge(badgeId).None? ==>
        r == Failure("Medalha não encontrada") && users == old(users)
      ensures FindUser(old(users), userId).Some? && CatalogBadge(badgeId).Some?
              && HasBadge(FindUser(old(users), userId).value, badgeId) ==>
        r == Failure("Usuário já possui esta medalha") && users == old(users)
      ensures FindUser(old(users), userId).Some? && CatalogBadge(badgeId).Some?
              && !HasBadge(FindUser(old(users), userId).value, badgeId) ==>
        var b := CatalogBadge(badgeId).value;
        if delay.Resolves? then
          && users == ApplyTo(old(users), userId, GrantBadge(b, now))
          && r == Success(Some(GrantBadge(b, now)(FindUser(old(users), userId).value)))
        else
          users == old(users) && r == Failure(RejectionMessage(delay, "Erro ao adicionar medalha"))
      ensures r.Success? <==> error == None
      ensures r.Failure? ==> error == Some(r.error)
      ensures !isLoading
    {
      isLoading, error := true, None;
      var user := FindUser(users, userId);
      if user.None? {
        error, isLoading := Some("Usuário não encontrado"), false;
        return Failure("Usuário não encontrado");
      }
      var badge := CatalogBadge(badgeId);
      if badge.None? {
        error, isLoading := Some("Medalha não encontrada"), false;
        return Failure("Medalha não encontrada");
      }
      if HasBadge(user.value, badgeId) {
        error, isLoading := Some("Usuário já possui esta medalha"), false;
        return Failure("Usuário já possui esta medalha");
      }
      if delay.Resolves? {
        FindAfterApply(users, userId, GrantBadge(badge.value, now));
        users := ApplyTo(users, userId, GrantBadge(badge.value, now));
        isLoading := false;
        r := Success(FindUser(users, userId));
      } else {
        var message := RejectionMessage(delay, "Erro ao adicionar medalha");
        error, isLoading := Some(message), false;
        r := Failure(message);
      }
    }

    /** `getLeaderboard`: store and return the users ranked by points. */
    method GetLeaderboard(delay: Delay) returns (r: Result<seq<User>>)
      modifies this`leaderboard, this`isLoading, this`error
      ensures delay.Resolves? ==>
        && r == Success(Ranking(users)) && leaderboard == r.value && error == None
      ensures !delay.Resolves? ==>
        && leaderboard == old(leaderboard)
        && r == Failure(RejectionMessage(delay, "Erro ao obter ranking")) && error == Some(r.error)
      ensures !isLoading
    {
      isLoading, error := true, None;
      var ranked := Ranking(users);
      if delay.Resolves? {
        leaderboard, isLoading := ranked, false;
        r := Success(ranked);
      } else {
        var message := RejectionMessage(delay, "Erro ao obter ranking");
        error, isLoading := Some(message), false;
        r := Failure(message);
      }
    }

    /** `getBadges`: the badge catalog. */
    function GetBadges(): (r: seq<Badge>)
      ensures r == MockData.Badges && |r| == 5
      ensures forall i, j :: 0 <= i < j < |r| ==> r[i].id != r[j].id
    {
      MockData.Badges
    }
  }
}
