/** The Story record of the story app: its moderation states, the submitter check made
    on save, the moderation transitions and the edit policy. Persistence is a table of
    story values held newest first. */
module Stories {
  import opened Wrappers

  /** The moderation states. The source keeps them as rows looked up by slug; here they
      are a closed enumeration and the slug is a label of each. */
  datatype ModerateState = Pending | Published | Rejected {
    /** The slug under which the state's row is stored. */
    function Slug(): string
    {
      match this
      case Pending => "pending"
      case Published => "published"
      case Rejected => "rejected"
    }
  }

  /** `ModerateState.objects.get(slug=...)`; None stands for `DoesNotExist`. */
  function FromSlug(slug: string): (r: Option<ModerateState>)
    ensures r.Some? <==> slug in {"pending", "published", "rejected"}
    ensures r.Some? ==> r.value.Slug() == slug
  {
    if slug == "pending" then Some(Pending)
    else if slug == "published" then Some(Published)
    else if slug == "rejected" then Some(Rejected)
    else None
  }

  /** Every state is found again under its own slug. */
  lemma SlugRoundTrip(s: ModerateState)
    ensures FromSlug(s.Slug()) == Some(s)
  {
  }

  /** `_default_moderate_state`: the state a new story starts in, fetched by its slug. */
  function DefaultModerateState(): (s: ModerateState)
    ensures s.Slug() == "pending"
  {
    FromSlug("pending").value
  }

  /** A point in time, as the moderation methods receive it from the caller's clock. */
  type DateTime = int

  /** A user as the identity provider supplies it. */
  datatype User = User(pk: nat, username: string, isStaff: bool, isActive: bool)

  /** Django compares model instances by primary key; a missing user equals no user. */
  predicate IsUser(who: Option<User>, u: User)
  {
    who.Some? && who.value.pk == u.pk
  }

  /** Python truthiness of a nullable text field: present and not empty. */
  predicate Filled(s: Option<string>)
  {
    s.Some? && s.value != ""
  }

  /** The fields of one story. `pk` is None until the story is first saved; `area` is the
      primary key of its Area; `picture` is the stored file name, empty when blank. */
  datatype StoryRecord = StoryRecord(
    pk: Option<nat>,
    user: Option<User>,
    email: Option<string>,
    name: string,
    area: nat,
    title: string,
    description: string,
    picture: string,
    moderateState: ModerateState,
    dateModerated: Option<DateTime>,
    userModerated: Option<User>)
  {
    /** The check `Story.save` makes before writing: a user, or both an email and a name. */
    predicate HasSubmitter()
    {
      user.Some? || (Filled(email) && name != "")
    }

    /** `user_can_edit`: staff edit anything; an active user edits their own story while
        it has not been moderated. */
    function UserCanEdit(u: User): (r: bool)
      ensures u.isStaff ==> r
      ensures !u.isStaff ==> (r <==> u.isActive && dateModerated.None? && IsUser(user, u))
    {
      var result :=
        if u.isStaff then true
        else if u.isActive && dateModerated.None? then IsUser(user, u)
        else false;
      result
    }

    /** `author`: the name when there is one, else the user's username. None stands for
        the AttributeError raised when there is neither. */
    function Author(): (r: Option<string>)
      ensures HasSubmitter() ==> r.Some?
      ensures r.None? <==> name == "" && user.None?
      ensures name != "" ==> r == Some(name)
      ensures r.Some? && name == "" ==> user.Some? && r.value == user.value.username
    {
      if name != "" then Some(name)
      else if user.Some? then Some(user.value.username)
      else None
    }

    /** `published`: the state is the one stored under the slug "published". */
    function IsPublished(): (r: bool)
      ensures r <==> moderateState.Slug() == "published"
    {
      moderateState == FromSlug("published").value
    }

    /** `rejected`: the state is the one stored under the slug "rejected". */
    function IsRejected(): (r: bool)
      ensures r <==> moderateState.Slug() == "rejected"
      ensures r ==> !IsPublished()
    {
      moderateState == FromSlug("rejected").value
    }
  }

  /** A story is never both published and rejected, and a pending story is neither. */
  lemma StatesExclusive(s: StoryRecord)
    ensures !(s.IsPublished() && s.IsRejected())
    ensures s.moderateState == Pending ==> !s.IsPublished() && !s.IsRejected()
  {
  }

  /** A story exactly as it is after `_set_moderated` has stamped it and the state has been
      set: the three moderation fields change and every other field is kept. */
  function Moderated(s: StoryRecord, state: ModerateState, moderator: User, now: DateTime): (r: StoryRecord)
    ensures r.moderateState == state && r.dateModerated == Some(now) && r.userModerated == Some(moderator)
    ensures r.(moderateState := s.moderateState, dateModerated := s.dateModerated,
               userModerated := s.userModerated) == s
    ensures r.HasSubmitter() == s.HasSubmitter() && r.Author() == s.Author()
    ensures forall u: User :: !u.isStaff ==> !r.UserCanEdit(u)
  {
    s.(moderateState := state, dateModerated := Some(now), userModerated := Some(moderator))
  }

  /** The transitions do not look at the state they start from: the last one wins. */
  lemma LastModerationWins(s: StoryRecord, first: ModerateState, mod1: User, t1: DateTime,
                           second: ModerateState, mod2: User, t2: DateTime)
    ensures Moderated(Moderated(s, first, mod1, t1), second, mod2, t2) == Moderated(s, second, mod2, t2)
  {
  }

  /** Staff keep their edit rights whatever the state; once any moderation has happened the
      owner has lost theirs; a story without a user is editable by staff only. */
  lemma EditPolicy(s: StoryRecord, u: User)
    ensures u.isStaff ==> s.UserCanEdit(u)
    ensures s.dateModerated.Some? && s.UserCanEdit(u) ==> u.isStaff
    ensures s.user.None? && s.UserCanEdit(u) ==> u.isStaff
    ensures !u.isActive && s.UserCanEdit(u) ==> u.isStaff
  {
  }

  /** The position of the story with primary key `pk` in `rows`, as the ORM's `get(pk=...)`
      finds it. */
  function Find(rows: seq<StoryRecord>, pk: nat): (r: Option<nat>)
    ensures r.Some? ==> r.value < |rows| && rows[r.value].pk == Some(pk)
    ensures r.Some? ==> forall i :: 0 <= i < r.value ==> rows[i].pk != Some(pk)
    ensures r.None? <==> forall i :: 0 <= i < |rows| ==> rows[i].pk != Some(pk)
  {
    if rows == [] then None
    else if rows[0].pk == Some(pk) then Some(0)
    else match Find(rows[1..], pk)
      case None => None
      case Some(i) => Some(i + 1)
  }

  /** No two stored stories share a primary key. */
  predicate DistinctPks(rows: seq<StoryRecord>)
  {
    forall i, j :: 0 <= i < j < |rows| ==> rows[i].pk != rows[j].pk
  }

  /** What the table holds: saved stories, each with a primary key below the next one to be
      handed out, distinct keys, and every story one that passed the save check. */
  predicate RowsValid(rows: seq<StoryRecord>, nextPk: nat)
  {
    && (forall i :: 0 <= i < |rows| ==> rows[i].pk.Some? && rows[i].pk.value < nextPk)
    && (forall i :: 0 <= i < |rows| ==> rows[i].HasSubmitter())
    && DistinctPks(rows)
  }

  /** The table after `rec` has been written: the row with the same primary key is replaced
      where it stands, and a story with a new key becomes the newest row, at the front. */
  function Stored(rows: seq<StoryRecord>, rec: StoryRecord): (r: seq<StoryRecord>)
    requires rec.pk.Some? && DistinctPks(rows)
    ensures Find(rows, rec.pk.value).Some? ==>
      |r| == |rows| && forall i :: 0 <= i < |rows| ==> r[i] == (if rows[i].pk == rec.pk then rec else rows[i])
    ensures Find(rows, rec.pk.value).None? ==> r == [rec] + rows
  {
    match Find(rows, rec.pk.value)
    case Some(i) => rows[i := rec]
    case None => [rec] + rows
  }

  /** Writing a story that passed the save check keeps the table valid, once the next key is
      moved past the story's own. */
  lemma StoredValid(rows: seq<StoryRecord>, nextPk: nat, rec: StoryRecord)
    requires RowsValid(rows, nextPk) && rec.pk.Some? && rec.HasSubmitter()
    ensures RowsValid(Stored(rows, rec), if rec.pk.value < nextPk then nextPk else rec.pk.value + 1)
  {
  }

  /** The stories as stored, newest first (`Story.Meta.ordering` is by descending creation
      time), with the next primary key to hand out. */
  class StoryTable {
    var rows: seq<StoryRecord>
    var nextPk: nat

    ghost predicate Valid()
      reads this
    {
      RowsValid(rows, nextPk)
    }

    constructor ()
      ensures Valid() && rows == []
    {
      rows := [];
      nextPk := 0;
    }
  }

  /** A Story model instance: the fields the moderation methods and `save` update in place. */
  class Story {
    var pk: Option<nat>
    var user: Option<User>
    var email: Option<string>
    var name: string
    var area: nat
    var title: string
    var description: string
    var picture: string
    var moderateState: ModerateState
    var dateModerated: Option<DateTime>
    var userModerated: Option<User>

    /** The instance's fields as one value. */
    function Record(): StoryRecord
      reads this
    {
      StoryRecord(pk, user, email, name, area, title, description, picture,
                  moderateState, dateModerated, userModerated)
    }

    /** A new, unsaved story: pending, not moderated, with the submitted fields. */
    constructor (user: Option<User>, email: Option<string>, name: string, area: nat,
                 title: string, description: string, picture: string)
      ensures Record() == StoryRecord(None, user, email, name, area, title, description, picture,
                                      Pending, None, None)
      ensures moderateState == DefaultModerateState()
    {
      this.pk := None;
      this.user := user;
      this.email := email;
      this.name := name;
      this.area := area;
      this.title := title;
      this.description := description;
      this.picture := picture;
      this.moderateState := DefaultModerateState();
      this.dateModerated := None;
      this.userModerated := None;
    }

    /** An instance loaded from a stored row. */
    constructor Load(rec: StoryRecord)
      ensures Record() == rec
    {
      pk := rec.pk;
      user := rec.user;
      email := rec.email;
      name := rec.name;
      area := rec.area;
      title := rec.title;
      description := rec.description;
      picture := rec.picture;
      moderateState := rec.moderateState;
      dateModerated := rec.dateModerated;
      userModerated := rec.userModerated;
    }

    /** `_set_moderated`: stamp the time and the moderator. */
    method SetModerated(moderator: User, now: DateTime)
      modifies this`dateModerated, this`userModerated
      ensures Record() == old(Record()).(dateModerated := Some(now), userModerated := Some(moderator))
    {
      dateModerated := Some(now);
      userModerated := Some(moderator);
    }

    /** `set_published`: publish and stamp, whatever the state was before. */
    method SetPublished(moderator: User, now: DateTime)
      modifies this`moderateState, this`dateModerated, this`userModerated
      ensures Record() == Moderated(old(Record()), Published, moderator, now)
      ensures Record().IsPublished() && !Record().IsRejected()
    {
      moderateState := FromSlug("published").value;
      SetModerated(moderator, now);
    }

    /** `set_rejected`: reject and stamp, whatever the state was before. */
    method SetRejected(moderator: User, now: DateTime)
      modifies this`moderateState, this`dateModerated, this`userModerated
      ensures Record() == Moderated(old(Record()), Rejected, moderator, now)
      ensures Record().IsRejected() && !Record().IsPublished()
    {
      moderateState := FromSlug("rejected").value;
      SetModerated(moderator, now);
    }

    /** `save`: refuse a story with neither a user nor a name and an email (ValueError,
        nothing written); otherwise write it, handing out a new primary key to a new story.
        The result is the story's primary key. */
    method Save(table: StoryTable) returns (r: Result<nat>)
      requires table.Valid()
      modifies this`pk, table
      ensures table.Valid()
      ensures r.Ok? <==> old(Record()).HasSubmitter()
      ensures r.Err? ==> r.error == ValueError && pk == old(pk)
                         && table.rows == old(table.rows) && table.nextPk == old(table.nextPk)
      ensures r.Ok? ==> Record() == old(Record()).(pk := Some(r.value))
      ensures r.Ok? && old(pk).Some? ==> r.value == old(pk).value
      ensures r.Ok? && old(pk).None? ==> r.value == old(table.nextPk)
                                         && table.rows == [Record()] + old(table.rows)
      ensures r.Ok? ==> table.rows == Stored(old(table.rows), Record())
      ensures r.Ok? ==> table.nextPk == (if r.value < old(table.nextPk) then old(table.nextPk) else r.value + 1)
    {
      if user.Some? {
      } else if Filled(email) && name != "" {
      } else {
        return Err(ValueError);
      }
      if pk.None? {
        pk := Some(table.nextPk);
      }
      var rec := Record();
      StoredValid(table.rows, table.nextPk, rec);
      table.rows := Stored(table.rows, rec);
      table.nextPk := if pk.value < table.nextPk then table.nextPk else pk.value + 1;
      r := Ok(pk.value);
    }
  }
}
