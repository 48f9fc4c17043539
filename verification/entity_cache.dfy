/**
 * The memoising user look-up of the exporter: the three dictionaries of
 * the shared cache (`authors`, `members`, `reaction_users`), one step of
 * `_get_author` and of `_get_reaction_user` as a function of the cache
 * state, and the projection of a platform user or member onto the export
 * records. The imperative versions of the two look-ups are methods of
 * `Transformer.Exporter`; they are proved equal to the steps here.
 */
module EntityCache {
  import opened Wrappers
  import opened Numerals
  import opened Discord
  import Formats
  import Models

  // ----- _safe_fetch_member -----

  /** The member the guild returns for `id`, or `None` when it answers NotFound. */
  function SafeFetch(dir: Directory, id: nat): (r: Option<Person>)
    ensures r.None? <==> id !in dir || dir[id].None?
    ensures r.Some? ==> id in dir && dir[id] == r
    ensures DirectoryOk(dir) && r.Some? ==> r.value.id == id && r.value.kind.GuildMember?
  {
    if id in dir then dir[id] else None
  }

  // ----- roles -----

  /** Positions never increase along `rs`. */
  predicate Descending(rs: seq<DiscordRole>) {
    forall i, j :: 0 <= i < j < |rs| ==> rs[i].position >= rs[j].position
  }

  /** Places `x`, which comes after every role of `rs` in the input, behind every role not below it. */
  function InsertByPosition(rs: seq<DiscordRole>, x: DiscordRole): (r: seq<DiscordRole>)
    ensures |r| == |rs| + 1
    ensures multiset(r) == multiset(rs) + multiset{x}
    ensures r[|r| - 1] == x || (rs != [] && r[|r| - 1] == rs[|rs| - 1])
    ensures Descending(rs) ==> Descending(r)
  {
    if rs == [] || rs[|rs| - 1].position >= x.position then
      DescendingSnoc(rs, x);
      rs + [x]
    else
      var init, last := rs[..|rs| - 1], rs[|rs| - 1];
      assert rs == init + [last];
      var r0 := InsertByPosition(init, x);
      DescendingInit(rs);
      DescendingSnoc(r0, last);
      r0 + [last]
  }

  /** A role no higher than the last one keeps the order. */
  lemma DescendingSnoc(rs: seq<DiscordRole>, y: DiscordRole)
    ensures Descending(rs) && (rs == [] || rs[|rs| - 1].position >= y.position) ==> Descending(rs + [y])
  {
    if Descending(rs) && (rs == [] || rs[|rs| - 1].position >= y.position) {
      forall i, j | 0 <= i < j < |rs| + 1 ensures (rs + [y])[i].position >= (rs + [y])[j].position {
        if j == |rs| {
          assert rs[i].position >= rs[|rs| - 1].position;
        }
      }
    }
  }

  lemma DescendingInit(rs: seq<DiscordRole>)
    requires rs != []
    ensures Descending(rs) ==> Descending(rs[..|rs| - 1])
  {
  }

  /**
   * `sorted(rs, key=position, reverse=True)`: an insertion sort that keeps
   * roles of equal position in their input order, as Python's sort does.
   */
  function SortByPosition(rs: seq<DiscordRole>): seq<DiscordRole> {
    if rs == [] then [] else InsertByPosition(SortByPosition(rs[..|rs| - 1]), rs[|rs| - 1])
  }

  /** `rs[1:]`, which is empty for an empty list. */
  function DropFirst<T>(rs: seq<T>): seq<T> {
    if rs == [] then [] else rs[1..]
  }

  function ProjectRole(r: DiscordRole): (role: Models.Role)
    ensures ValueOf(role.id, Dec) == r.id && role.position == r.position
  {
    Models.Role(Numeral(r.id, Dec), r.name, Formats.ColorValue(r.color), r.position)
  }

  function ProjectRoles(rs: seq<DiscordRole>): (roles: seq<Models.Role>)
    ensures |roles| == |rs|
    ensures forall i :: 0 <= i < |rs| ==> roles[i] == ProjectRole(rs[i])
  {
    seq(|rs|, i requires 0 <= i < |rs| => ProjectRole(rs[i]))
  }

  /** The roles a user record lists: none for a bare user, the member's roles but the first, highest first. */
  function RolesOf(p: Person): seq<Models.Role> {
    match p.kind
    case BareUser => []
    case GuildMember(rs) => ProjectRoles(SortByPosition(DropFirst(rs)))
  }

  // ----- the records -----

  function ProjectUser(q: Person, alwaysUseUsername: bool): Models.User {
    Models.User(
      Numeral(q.id, Dec),
      q.name,
      Formats.Discriminator(q.discriminator),
      if alwaysUseUsername then q.name else q.displayName,
      Formats.ColorValue(q.color),
      q.bot,
      Models.Present(RolesOf(q)),
      q.avatarUrl)
  }

  function ProjectReactionUser(q: Person, alwaysUseUsername: bool): Models.ReactionUser {
    Models.ReactionUser(
      Numeral(q.id, Dec),
      q.name,
      Formats.Discriminator(q.discriminator),
      if alwaysUseUsername then q.name else q.displayName,
      q.bot,
      q.avatarUrl)
  }

  // ----- the cache -----

  datatype CacheState = CacheState(
    authors: map<nat, Models.User>,
    members: map<nat, Person>,
    reactionUsers: map<nat, Models.ReactionUser>)

  /** Every entry is filed under the id of the user it describes. */
  predicate CacheValid(c: CacheState) {
    && (forall k :: k in c.members ==> c.members[k].id == k)
    && (forall k :: k in c.authors ==> ValueOf(c.authors[k].id, Dec) == k)
    && (forall k :: k in c.reactionUsers ==> ValueOf(c.reactionUsers[k].id, Dec) == k)
  }

  /**
   * The `members` dictionary after the look-up: a bare user not seen before
   * is filed as the member the guild returns, or as itself when there is none.
   */
  function RecordMember(members: map<nat, Person>, dir: Directory, p: Person): map<nat, Person> {
    if p.kind.BareUser? && p.id !in members then members[p.id := SafeFetch(dir, p.id).GetOr(p)] else members
  }

  /** `members.get(p.id, p)`: the user the record is then built from. */
  function Subject(members: map<nat, Person>, p: Person): Person {
    if p.id in members then members[p.id] else p
  }

  /** One call of `_get_author`: the new cache and the user record returned. */
  function AuthorStep(c: CacheState, dir: Directory, p: Person, alwaysUseUsername: bool): (CacheState, Models.User) {
    if p.id in c.authors then (c, c.authors[p.id])
    else
      var members := RecordMember(c.members, dir, p);
      var q := Subject(members, p);
      var u := ProjectUser(q, alwaysUseUsername);
      (c.(authors := c.authors[q.id := u], members := members), u)
  }

  /** One call of `_get_reaction_user`. */
  function ReactionUserStep(c: CacheState, dir: Directory, p: Person, alwaysUseUsername: bool): (CacheState, Models.ReactionUser) {
    if p.id in c.reactionUsers then (c, c.reactionUsers[p.id])
    else
      var members := RecordMember(c.members, dir, p);
      var q := Subject(members, p);
      var u := ProjectReactionUser(q, alwaysUseUsername);
      (c.(reactionUsers := c.reactionUsers[q.id := u], members := members), u)
  }

  /** The shared cache object: three dictionaries keyed by user id. */
  class Cache {
    var authors: map<nat, Models.User>
    var members: map<nat, Person>
    var reactionUsers: map<nat, Models.ReactionUser>

    constructor ()
      ensures authors == map[] && members == map[] && reactionUsers == map[]
    {
      authors, members, reactionUsers := map[], map[], map[];
    }

    function State(): CacheState
      reads this
    {
      CacheState(authors, members, reactionUsers)
    }
  }

  // ----- lemmas -----

  /** The sorted roles are highest first and are the same roles. */
  lemma {:induction false} SortByPositionSorts(rs: seq<DiscordRole>)
    ensures Descending(SortByPosition(rs))
    ensures multiset(SortByPosition(rs)) == multiset(rs)
  {
    if rs != [] {
      SortByPositionSorts(rs[..|rs| - 1]);
      assert rs == rs[..|rs| - 1] + [rs[|rs| - 1]];
    }
  }

  /** A record always carries a role list; a member's lists every role but the first, highest first. */
  lemma UserRoles(q: Person, alwaysUseUsername: bool)
    ensures ProjectUser(q, alwaysUseUsername).roles.Present?
    ensures var roles := ProjectUser(q, alwaysUseUsername).roles.value;
      && (q.kind.BareUser? ==> roles == [])
      && (q.kind.GuildMember? ==> |roles| == |DropFirst(q.kind.roles)|)
      && (forall i, j :: 0 <= i < j < |roles| ==> roles[i].position >= roles[j].position)
      && (q.kind.GuildMember? ==>
            exists p :: multiset(p) == multiset(DropFirst(q.kind.roles)) && Descending(p) && roles == ProjectRoles(p))
  {
    if q.kind.GuildMember? {
      var sorted := SortByPosition(DropFirst(q.kind.roles));
      SortByPositionSorts(DropFirst(q.kind.roles));
      assert |sorted| == |DropFirst(q.kind.roles)| by {
        assert |multiset(sorted)| == |multiset(DropFirst(q.kind.roles))|;
      }
      assert ProjectUser(q, alwaysUseUsername).roles.value == ProjectRoles(sorted);
    }
  }

  /** The member entry is written only for an unseen bare user, and then never as "no member". */
  lemma RecordMemberFrame(members: map<nat, Person>, dir: Directory, p: Person)
    ensures var m := RecordMember(members, dir, p);
      && m.Keys == (if p.kind.BareUser? then members.Keys + {p.id} else members.Keys)
      && (forall k :: k in members ==> m[k] == members[k])
      && (p.kind.BareUser? && p.id !in members ==>
            m[p.id] == (if SafeFetch(dir, p.id).Some? then SafeFetch(dir, p.id).value else p))
  {
  }

  /** A look-up of an id already in `authors` hands back the stored record and changes nothing. */
  lemma AuthorHit(c: CacheState, dir: Directory, p: Person, alwaysUseUsername: bool)
    requires p.id in c.authors
    ensures AuthorStep(c, dir, p, alwaysUseUsername) == (c, c.authors[p.id])
  {
  }

  /**
   * A look-up of an unseen id files exactly that id in `authors`, leaves
   * every other entry and `reaction_users` alone, and keeps the cache valid.
   */
  lemma AuthorMiss(c: CacheState, dir: Directory, p: Person, alwaysUseUsername: bool)
    requires CacheValid(c) && DirectoryOk(dir)
    requires p.id !in c.authors
    ensures var (c', u) := AuthorStep(c, dir, p, alwaysUseUsername);
      && c'.authors == c.authors[p.id := u]
      && c'.reactionUsers == c.reactionUsers
      && c'.members == RecordMember(c.members, dir, p)
      && u == ProjectUser(Subject(c'.members, p), alwaysUseUsername)
      && Subject(c'.members, p).id == p.id
      && CacheValid(c')
  {
  }

  /** Asking twice for the same author gives the same record, and the second call changes nothing. */
  lemma AuthorIdempotent(c: CacheState, dir: Directory, p: Person, alwaysUseUsername: bool)
    requires CacheValid(c) && DirectoryOk(dir)
    ensures var (c', u) := AuthorStep(c, dir, p, alwaysUseUsername);
      AuthorStep(c', dir, p, alwaysUseUsername) == (c', u)
  {
    if p.id !in c.authors {
      AuthorMiss(c, dir, p, alwaysUseUsername);
    }
  }

  /** The same for `_get_reaction_user` and `reaction_users`. */
  lemma ReactionUserHit(c: CacheState, dir: Directory, p: Person, alwaysUseUsername: bool)
    requires p.id in c.reactionUsers
    ensures ReactionUserStep(c, dir, p, alwaysUseUsername) == (c, c.reactionUsers[p.id])
  {
  }

  lemma ReactionUserMiss(c: CacheState, dir: Directory, p: Person, alwaysUseUsername: bool)
    requires CacheValid(c) && DirectoryOk(dir)
    requires p.id !in c.reactionUsers
    ensures var (c', u) := ReactionUserStep(c, dir, p, alwaysUseUsername);
      && c'.reactionUsers == c.reactionUsers[p.id := u]
      && c'.authors == c.authors
      && c'.members == RecordMember(c.members, dir, p)
      && u == ProjectReactionUser(Subject(c'.members, p), alwaysUseUsername)
      && CacheValid(c')
  {
  }

  lemma ReactionUserIdempotent(c: CacheState, dir: Directory, p: Person, alwaysUseUsername: bool)
    requires CacheValid(c) && DirectoryOk(dir)
    ensures var (c', u) := ReactionUserStep(c, dir, p, alwaysUseUsername);
      ReactionUserStep(c', dir, p, alwaysUseUsername) == (c', u)
  {
    if p.id !in c.reactionUsers {
      ReactionUserMiss(c, dir, p, alwaysUseUsername);
    }
  }

  /** A bare user the guild knows is described by its member record, roles included. */
  lemma FetchedMemberDescribed(c: CacheState, dir: Directory, p: Person, m: Person, alwaysUseUsername: bool)
    requires p.kind.BareUser? && p.id !in c.authors && p.id !in c.members
    requires SafeFetch(dir, p.id) == Some(m)
    ensures AuthorStep(c, dir, p, alwaysUseUsername).1 == ProjectUser(m, alwaysUseUsername)
  {
  }
}
