/** The access rules of the story views: who may see a story, which stories the list shows,
    how a trusted create attaches its user and how a staff member moderates. Every view
    sits behind a login, so the requesting user is always an authenticated `User`. */
module Views {
  import opened Wrappers
  import opened Stories

  /** `check_perm`: the exception raised, None when the user may go on. A user passes when
      they are staff or created the story. */
  function CheckPerm(u: User, s: StoryRecord): (r: Option<Error>)
    ensures u.isStaff ==> r.None?
    ensures !u.isStaff ==> (r.None? <==> IsUser(s.user, u))
    ensures r.Some? ==> r.value == PermissionDenied
  {
    if u.isStaff then None
    else if !IsUser(s.user, u) then Some(PermissionDenied)
    else None
  }

  /** A story sent in anonymously, with a name and an email but no user, is shown to staff
      only. */
  lemma AnonymousStoryStaffOnly(u: User, s: StoryRecord)
    requires s.user.None?
    ensures CheckPerm(u, s).None? <==> u.isStaff
  {
  }

  /** Whoever may edit a story under `user_can_edit` also passes `check_perm`. */
  lemma EditImpliesCheckPerm(u: User, s: StoryRecord)
    requires s.UserCanEdit(u)
    ensures CheckPerm(u, s).None?
  {
  }

  /** `get_object` of the detail view and of the update view: fetch the story by primary key
      (NotFound when there is none), then apply `check_perm`. */
  function GetObject(rows: seq<StoryRecord>, pk: nat, u: User): (r: Result<StoryRecord>)
    requires DistinctPks(rows)
    ensures r.Ok? ==> r.value in rows && r.value.pk == Some(pk)
    ensures r.Ok? <==> exists i :: 0 <= i < |rows| && rows[i].pk == Some(pk) && CheckPerm(u, rows[i]).None?
    ensures r == Err(NotFound) <==> forall i :: 0 <= i < |rows| ==> rows[i].pk != Some(pk)
    ensures r.Err? && r.error != NotFound ==> r.error == PermissionDenied
    ensures u.isStaff ==> r.Err? ==> r.error == NotFound
  {
    match Find(rows, pk)
    case None => Err(NotFound)
    case Some(i) =>
      var obj := rows[i];
      match CheckPerm(u, obj)
      case Some(e) => Err(e)
      case None => Ok(obj)
  }

  /** `xs` is `ys` with some elements left out and the rest in their order. */
  predicate IsSubsequence<T(==)>(xs: seq<T>, ys: seq<T>)
    decreases |ys|
  {
    if xs == [] then true
    else if ys == [] then false
    else if xs[0] == ys[0] then IsSubsequence(xs[1..], ys[1..])
    else IsSubsequence(xs, ys[1..])
  }

  lemma {:induction false} SubsequenceReflexive<T>(xs: seq<T>)
    ensures IsSubsequence(xs, xs)
  {
    if xs != [] {
      SubsequenceReflexive(xs[1..]);
    }
  }

  /** `Story.objects.filter(user=u)`: the stories `u` submitted, in stored order, each as
      often as it is stored. */
  function OwnStories(rows: seq<StoryRecord>, u: User): (r: seq<StoryRecord>)
    ensures IsSubsequence(r, rows)
    ensures forall i :: 0 <= i < |r| ==> IsUser(r[i].user, u)
    ensures forall s: StoryRecord :: IsUser(s.user, u) ==> multiset(r)[s] == multiset(rows)[s]
    ensures forall s :: s in rows && IsUser(s.user, u) ==> s in r
  {
    if rows == [] then []
    else
      var rest := OwnStories(rows[1..], u);
      assert rows == [rows[0]] + rows[1..];
      if IsUser(rows[0].user, u) then
        var r := [rows[0]] + rest;
        assert r[1..] == rest;
        r
      else
        rest
  }

  /** `StoryListView.get_queryset`: every story for staff, otherwise the user's own. */
  function ListFor(rows: seq<StoryRecord>, u: User): (r: seq<StoryRecord>)
    ensures u.isStaff ==> r == rows
    ensures IsSubsequence(r, rows)
    ensures !u.isStaff ==> forall i :: 0 <= i < |r| ==> IsUser(r[i].user, u)
    ensures !u.isStaff ==> forall s :: s in rows && IsUser(s.user, u) ==> s in r
    ensures !u.isStaff ==> forall s: StoryRecord :: IsUser(s.user, u) ==> multiset(r)[s] == multiset(rows)[s]
  {
    if u.isStaff then
      SubsequenceReflexive(rows);
      rows
    else
      OwnStories(rows, u)
  }

  /** The list shows exactly the stored stories that `check_perm` lets the user see. */
  lemma ListMatchesCheckPerm(rows: seq<StoryRecord>, u: User, s: StoryRecord)
    requires s in rows
    ensures s in ListFor(rows, u) <==> CheckPerm(u, s).None?
  {
  }

  /** `StoryTrustCreateView.form_valid`: attach the requesting user to the story the form
      built, then save it. The save check always passes on this path. */
  method TrustCreate(story: Story, requester: User, table: StoryTable) returns (r: Result<nat>)
    requires table.Valid()
    modifies story`user, story`pk, table
    ensures table.Valid()
    ensures r.Ok?
    ensures story.Record() == old(story.Record()).(user := Some(requester), pk := Some(r.value))
    ensures table.rows == Stored(old(table.rows), story.Record())
    ensures old(story.pk).None? ==> r.value == old(table.nextPk) && table.rows == [story.Record()] + old(table.rows)
    ensures table.nextPk == (if r.value < old(table.nextPk) then old(table.nextPk) else r.value + 1)
  {
    story.user := Some(requester);
    r := story.Save(table);
  }

  /** `StoryModerateView.delete`, open to staff only: fetch the story, publish it in the
      requesting user's name at time `now`, and save it. */
  method Moderate(table: StoryTable, pk: nat, requester: User, now: DateTime) returns (r: Result<nat>)
    requires table.Valid()
    modifies table
    ensures table.Valid()
    ensures !requester.isStaff ==> r == Err(PermissionDenied)
    ensures requester.isStaff ==> (r.Ok? <==> Find(old(table.rows), pk).Some?)
    ensures requester.isStaff && r.Err? ==> r.error == NotFound
    ensures r.Err? ==> table.rows == old(table.rows) && table.nextPk == old(table.nextPk)
    ensures r.Ok? ==> r.value == pk && |table.rows| == |old(table.rows)|
    ensures r.Ok? ==> table.nextPk == old(table.nextPk)
    ensures r.Ok? ==> forall i :: 0 <= i < |table.rows| ==>
      table.rows[i] == if old(table.rows)[i].pk == Some(pk)
                       then Moderated(old(table.rows)[i], Published, requester, now)
                       else old(table.rows)[i]
  {
    if !requester.isStaff {
      return Err(PermissionDenied);
    }
    var found := Find(table.rows, pk);
    if found.None? {
      return Err(NotFound);
    }
    var row := table.rows[found.value];
    var story := new Story.Load(row);
    story.SetPublished(requester, now);
    r := story.Save(table);
  }

  /** The update view as it should gate: fetch the story by primary key, then apply
      `user_can_edit` instead of `check_perm`. */
  function GetObjectForUpdate(rows: seq<StoryRecord>, pk: nat, u: User): (r: Result<StoryRecord>)
    requires DistinctPks(rows)
    ensures r.Ok? ==> r.value in rows && r.value.pk == Some(pk) && r.value.UserCanEdit(u)
    ensures r.Ok? <==> exists i :: 0 <= i < |rows| && rows[i].pk == Some(pk) && rows[i].UserCanEdit(u)
    ensures r == Err(NotFound) <==> forall i :: 0 <= i < |rows| ==> rows[i].pk != Some(pk)
    ensures r.Err? && r.error != NotFound ==> r.error == PermissionDenied
  {
    match Find(rows, pk)
    case None => Err(NotFound)
    case Some(i) =>
      var obj := rows[i];
      if obj.UserCanEdit(u) then Ok(obj) else Err(PermissionDenied)
  }

  /** Once a story is moderated, the corrected update gate turns its non-staff owner away. */
  lemma ModeratedStoryClosedForUpdate(rows: seq<StoryRecord>, pk: nat, u: User)
    requires DistinctPks(rows) && !u.isStaff
    requires forall i :: 0 <= i < |rows| && rows[i].pk == Some(pk) ==> rows[i].dateModerated.Some?
    ensures GetObjectForUpdate(rows, pk, u).Err?
  {
  }

  /** The update view as written lets the owner of a published story open it for editing,
      which `user_can_edit` forbids. */
  lemma OwnerOpensPublishedStoryForUpdate()
    ensures
      var owner := User(1, "web", false, true);
      var staff := User(2, "staff", true, true);
      var story := StoryRecord(Some(7), Some(owner), None, "", 1, "Market fire", "Smoke", "",
                               Pending, None, None);
      var published := Moderated(story, Published, staff, 100);
      && GetObject([published], 7, owner) == Ok(published)
      && !published.UserCanEdit(owner)
      && GetObjectForUpdate([published], 7, owner) == Err(PermissionDenied)
  {
  }
}
