/** The club page: the member list (the current user, when opted in, ahead
    of four fixed members), the forum posts, relative dates and level
    colours. */
module ClubPatripoly {
  import opened Wrappers
  import opened Seqs
  import opened StoredJson
  import Lib = WealthLevelsLib
  import WealthPage
  import Patrimonio
  import Profile
  import Text

  datatype Member = Member(id: string, name: string, avatar: string, level: string,
                           joinedDate: string, isOnline: bool)

  datatype Post = Post(id: string, author: string, avatar: string, content: string,
                       timestamp: string, likes: int, comments: int, level: string)

  const StaticMembers: seq<Member> := [
    Member("static-1", "Ana Martínez", "", "Inversionista", "2024-01-15", true),
    Member("static-2", "Carlos Ruiz", "", "Emprendedor", "2024-02-03", false),
    Member("static-3", "María González", "", "Millonario", "2024-01-28", true),
    Member("static-4", "David López", "", "Constructor", "2024-02-10", true)
  ]

  /** Whether the current user is listed: a stored user and stored settings
      both exist and the settings have `participateInClub` set. */
  predicate Participates(user: Option<Object>, settings: Option<Object>)
  {
    user.Some? && settings.Some? && Truthy(Field(settings.value, "participateInClub"))
  }

  /** `loadMembers()`: the user's entry, when listed, comes first; its level
      is the wealth level of the net worth read as on the wealth-levels
      page. */
  function LoadMembers(user: Option<Object>, settings: Option<Object>,
                       savedAssets: Option<seq<Patrimonio.Asset>>, now: string): (r: seq<Member>)
    ensures |r| == (if Participates(user, settings) then 5 else 4)
    ensures r[|r| - 4..] == StaticMembers
    ensures Participates(user, settings) ==>
              r[0].id == "current-user" && r[0].isOnline && r[0].joinedDate == now
              && r[0].name == StringOr(Field(user.value, "name"), "Usuario")
              && r[0].avatar == StringOr(Field(settings.value, "profilePicture"), "")
              && r[0].level == Lib.GetCurrentWealthLevel(WealthPage.PatrimonioTotal(savedAssets)).name
  {
    var realMembers :=
      if Participates(user, settings) then
        [Member("current-user",
                StringOr(Field(user.value, "name"), "Usuario"),
                StringOr(Field(settings.value, "profilePicture"), ""),
                Lib.GetCurrentWealthLevel(WealthPage.PatrimonioTotal(savedAssets)).name,
                now,
                true)]
      else [];
    realMembers + StaticMembers
  }

  /** The fixed members, behind a member with the user's id, have distinct
      ids. */
  lemma IdsDistinctBehind(m: Member)
    requires m.id == "current-user"
    ensures forall i, j :: 0 <= i < j < |[m] + StaticMembers| ==>
              ([m] + StaticMembers)[i].id != ([m] + StaticMembers)[j].id
  {
    var r := [m] + StaticMembers;
    var ids := ["current-user", "static-1", "static-2", "static-3", "static-4"];
    assert forall k :: 0 <= k < 5 ==> r[k].id == ids[k];
  }

  /** Member ids never repeat: the user's id is none of the fixed ones. */
  lemma MemberIdsDistinct(user: Option<Object>, settings: Option<Object>,
                          savedAssets: Option<seq<Patrimonio.Asset>>, now: string)
    ensures var r := LoadMembers(user, settings, savedAssets, now);
            forall i, j :: 0 <= i < j < |r| ==> r[i].id != r[j].id
  {
    var r := LoadMembers(user, settings, savedAssets, now);
    if |r| == 5 {
      assert r == [r[0]] + r[1..];
      IdsDistinctBehind(r[0]);
    } else {
      IdsDistinctBehind(Member("current-user", "", "", "", "", true));
      assert r == ([Member("current-user", "", "", "", "", true)] + StaticMembers)[1..];
    }
  }

  /** Saving the profile page rewrites the settings without
      `participateInClub`, so afterwards the user is no longer listed. */
  lemma SavedProfileLeavesClub(user: Option<Object>, p: Profile.ProfileData,
                               savedAssets: Option<seq<Patrimonio.Asset>>, now: string)
    ensures LoadMembers(user, Some(Profile.SavedSettings(p)), savedAssets, now) == StaticMembers
  {
    var r := LoadMembers(user, Some(Profile.SavedSettings(p)), savedAssets, now);
    assert r == r[|r| - 4..];
  }

  /** With no saved assets the user is listed at the level of 25 000,
      "Estratega". */
  lemma DefaultWealthLevel(user: Option<Object>, settings: Option<Object>, now: string)
    requires Participates(user, settings)
    ensures LoadMembers(user, settings, None, now)[0].level == "Estratega"
  {
    var t := Lib.WealthLevels;
    Lib.CurrentLevelUnique(25000);
    assert t[4] in t && Lib.Contains(t[4], 25000.0);
  }

  predicate IsOnline(m: Member)
  {
    m.isOnline
  }

  /** The "en línea" badge: three of the fixed members are online, and the
      listed user always is. */
  lemma OnlineCount(user: Option<Object>, settings: Option<Object>,
                    savedAssets: Option<seq<Patrimonio.Asset>>, now: string)
    ensures Count(LoadMembers(user, settings, savedAssets, now), IsOnline)
         == if Participates(user, settings) then 4 else 3
  {
    var r := LoadMembers(user, settings, savedAssets, now);
    assert Count(StaticMembers, IsOnline) == 3 by {
      var s := StaticMembers;
      assert s[1..][1..][1..][1..] == [];
    }
    if Participates(user, settings) {
      assert r[1..] == StaticMembers;
    } else {
      assert r == StaticMembers;
    }
  }

  /** `getLevelColor(level)`: five known names, "bg-muted" for any other. */
  function LevelColor(level: string): (c: string)
    ensures level !in {"Nuevo Inversor", "Constructor", "Emprendedor", "Inversionista", "Millonario"} ==>
              c == "bg-muted"
  {
    match level
    case "Nuevo Inversor" => "bg-muted"
    case "Constructor" => "bg-muted"
    case "Emprendedor" => "bg-primary"
    case "Inversionista" => "bg-accent"
    case "Millonario" => "bg-gradient-wealth"
    case _ => "bg-muted"
  }

  /** Of the wealth-level names the listed user can carry, only "Millonario"
      has a colour of its own; every other one falls back to "bg-muted". */
  lemma WealthLevelColors(w: real)
    ensures var l := Lib.GetCurrentWealthLevel(w);
            LevelColor(l.name) == (if l.level == 8 then "bg-gradient-wealth" else "bg-muted")
  {
    TableColors();
  }

  /** The colour of every row of the level table. */
  lemma TableColors()
    ensures forall l :: l in Lib.WealthLevels ==>
              LevelColor(l.name) == (if l.level == 8 then "bg-gradient-wealth" else "bg-muted")
  {
    var t := Lib.WealthLevels;
    forall i | 0 <= i < |t|
      ensures LevelColor(t[i].name) == (if t[i].level == 8 then "bg-gradient-wealth" else "bg-muted")
    {
      assert i == 0 || i == 1 || i == 2 || i == 3 || i == 4 || i == 5 || i == 6 || i == 7 || i == 8 || i == 9;
    }
  }

  /** The bucket of `formatDate`. */
  datatype RelativeDate = FewMinutesAgo | HoursAgo(hours: int) | Yesterday | OnDate

  const HourMs: int := 3600000

  /** `formatDate(dateString)`: the whole hours elapsed, rounded down, pick
      the bucket. `elapsedMs` is `now - date` in milliseconds, `None` when the
      date does not parse (the hours are then NaN and every test fails). */
  function FormatDate(elapsedMs: Option<int>): (d: RelativeDate)
    ensures elapsedMs.None? ==> d == OnDate
    ensures elapsedMs.Some? ==>
              (d == FewMinutesAgo <==> elapsedMs.value < HourMs)
              && (d.HoursAgo? <==> HourMs <= elapsedMs.value < 24 * HourMs)
              && (d == Yesterday <==> 24 * HourMs <= elapsedMs.value < 48 * HourMs)
              && (d == OnDate <==> elapsedMs.value >= 48 * HourMs)
    ensures d.HoursAgo? ==>
              1 <= d.hours < 24 && d.hours * HourMs <= elapsedMs.value < (d.hours + 1) * HourMs
  {
    match elapsedMs
    case None => OnDate
    case Some(ms) =>
      // Math.floor of a quotient by a positive divisor: Dafny's `/` on int
      // rounds down in that case too.
      var hours := ms / HourMs;
      if hours < 1 then FewMinutesAgo
      else if hours < 24 then HoursAgo(hours)
      else if hours < 48 then Yesterday
      else OnDate
  }

  /** A date in the future counts as a few minutes ago. */
  lemma FutureIsRecent(elapsedMs: int)
    requires elapsedMs < 0
    ensures FormatDate(Some(elapsedMs)) == FewMinutesAgo
  {
  }

  /** The sample posts the forum starts with. */
  const SamplePosts: seq<Post> := [
    Post("1", "Ana Martínez", "", "¡Acabo de completar mi primera inversión en REITs! Gracias por todos los consejos del Centro de Estudios. 💪",
         "2024-03-15T14:30:00Z", 12, 5, "Inversionista"),
    Post("2", "Carlos Ruiz", "", "¿Alguien más está participando en el reto del Duplicador? Llevo 3 semanas y ya he duplicado mi inversión inicial. 🚀",
         "2024-03-15T12:15:00Z", 8, 3, "Emprendedor"),
    Post("3", "María González", "", "Compartiendo mi estrategia de cashflow pasivo que me está dando €2,500 mensuales. ¡AMA en los comentarios!",
         "2024-03-15T09:45:00Z", 25, 12, "Millonario")
  ]

  /** The forum state. */
  class Forum {
    var posts: seq<Post>
    var newPost: string

    constructor()
      ensures posts == SamplePosts && newPost == ""
    {
      posts, newPost := SamplePosts, "";
    }

    /** The post text area. */
    method SetNewPost(text: string)
      modifies this
      ensures newPost == text && posts == old(posts)
    {
      newPost := text;
    }

    /** `handlePublishPost`: a blank post changes nothing; otherwise a post by
        "Tú" with the untrimmed text, no likes and no comments goes on top,
        the earlier posts follow in their order, and the input is cleared. */
    method PublishPost(id: string, timestamp: string) returns (published: bool)
      modifies this
      ensures published <==> !Text.IsBlank(old(newPost))
      ensures !published ==> posts == old(posts) && newPost == old(newPost)
      ensures published ==>
                posts == [Post(id, "Tú", "", old(newPost), timestamp, 0, 0, "Constructor")] + old(posts)
                && newPost == ""
      ensures published ==> |posts| == |old(posts)| + 1 && posts[1..] == old(posts)
    {
      if Text.IsBlank(newPost) {
        return false;
      }
      var post := Post(id, "Tú", "", newPost, timestamp, 0, 0, "Constructor");
      posts := [post] + posts;
      newPost := "";
      published := true;
    }
  }
}
