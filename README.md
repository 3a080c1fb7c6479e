# Story moderation and permissions

A model of the moderation and permission core of a small Django site for local news
stories. Visitors send a story in anonymously with a name and an email, or logged-in
users send one as trusted users. Staff then publish or reject it. The model covers:

- `Stories` (`stories.dfy`, after `story/models.py`):
  - the three moderation states as a closed enumeration, with their slugs;
  - the Story record, as a value (`StoryRecord`) and as a model instance whose fields are
    updated in place (`Story`);
  - the check `save` makes before writing: a user, or both a name and an email;
  - the `set_published` and `set_rejected` transitions, which stamp a moderator and a time;
  - the `user_can_edit` policy and the derived `author`, `published` and `rejected`;
  - the stored stories, as a table (`StoryTable`) kept newest first.
- `Views` (`views.dfy`, after `ilivehere/views.py`):
  - `check_perm`;
  - the object lookup of the detail and update views;
  - the list filter;
  - the trusted create that attaches the requesting user;
  - the staff-only moderate action.
- `Wrappers` (`wrappers.dfy`): `Option`, and the `Result` of an operation that may raise
  `ValueError`, `PermissionDenied` or a not-found error.

Users are compared by primary key, as Django compares model instances. The nullable fields
follow Python truthiness:
- `user` and `user_moderated` are `Option<User>`;
- `email` is an `Option<string>`, which counts as given only when present and non-empty;
- `name` is a string, which counts as given when non-empty;
- `date_moderated` is an `Option<DateTime>`.

The clock is a parameter: the moderation methods take the time `now` from their caller.

Three behaviours of the code are worth stating outright:
- `Story.save` accepts a story that has both a user and a name and an email. It refuses
  only a story that has neither (story/models.py:107-115).
- The update view is gated by `check_perm`, not by `user_can_edit`
  (ilivehere/views.py:111-114). So the owner of a published story can still open it for
  update. See Findings.
- Moderation is not terminal. `set_published` and `set_rejected` never look at the
  current state, so a second call overwrites the first (`LastModerationWins`).

`ilivehere/views.py:89` calls `set_moderated`. The `Story` of `story/models.py` has no
such method: it has `_set_moderated`, `set_published` and `set_rejected`. The view imports
`Story` from `ilivehere/models.py`, which is not part of this model. The view's message
says "Published story", so the moderate action is modelled as `set_published`.

## Model

| member | source | states |
|---|---|---|
| Stories.FromSlug | story/models.py:40-50 | the slug lookup finds a state exactly for "pending", "published" and "rejected", and the state found carries that slug |
| Stories.SlugRoundTrip | story/models.py:27-50 | every state is found again under its own slug |
| Stories.DefaultModerateState | story/models.py:80-81 | a new story's default state is the one stored under the slug "pending" |
| Stories.StoryRecord.UserCanEdit | story/models.py:133-143 | staff may always edit; a non-staff user may edit iff they are active, the story is unmoderated and they are its user |
| Stories.EditPolicy | story/models.py:133-143 | for a non-staff user, edit rights vanish once the story is moderated, when the story has no user, and when the user is inactive |
| Stories.StoryRecord.Author | story/models.py:145-147 | the author is the name when one is given, else the user's username; it is defined for every story that passes the save check and undefined only when there is neither a name nor a user |
| Stories.StoryRecord.IsPublished | story/models.py:149-151 | published iff the state is the one stored under "published" |
| Stories.StoryRecord.IsRejected | story/models.py:153-155 | rejected iff the state is the one stored under "rejected"; a rejected story is never published |
| Stories.StatesExclusive | story/models.py:149-155 | published and rejected never both hold, and a pending story is neither |
| Stories.Moderated | story/models.py:121-131 | moderation sets the state, the time and the moderator and keeps every other field; it keeps the save check and the author, and leaves no non-staff user able to edit |
| Stories.LastModerationWins | story/models.py:125-131 | moderating twice is the same as moderating once with the second state, moderator and time |
| Stories.Find | ilivehere/views.py:66 | the lookup by primary key returns the first position holding that key, and finds nothing iff no row has it |
| Stories.Stored | story/models.py:116 | writing a story replaces the row with its key where it stands; a story with a new key goes in front, as the newest |
| Stories.StoredValid | story/models.py:107-116 | writing a story that passed the save check keeps the table valid: distinct keys, every key below the next one, every row with a submitter |
| Stories.StoryTable.constructor | story/models.py:99-100 | an empty table is valid |
| Stories.Story.constructor | story/models.py:84-97 | a new story is unsaved and pending, with no moderation time and no moderator, and holds the submitted fields |
| Stories.Story.Load | ilivehere/views.py:88 | an instance loaded from a row holds exactly that row's fields |
| Stories.Story.SetModerated | story/models.py:121-123 | stamps the time and the moderator; nothing else changes |
| Stories.Story.SetPublished | story/models.py:125-127 | the new state is the old one moderated to published by the given user at the given time; the story is then published and not rejected |
| Stories.Story.SetRejected | story/models.py:129-131 | the new state is the old one moderated to rejected by the given user at the given time; the story is then rejected and not published |
| Stories.Story.Save | story/models.py:107-116 | succeeds iff the story has a user, or a non-empty name and email; on failure it raises ValueError and nothing is written; on success a new story gets the next key and becomes the newest row, a stored one is replaced in place, and the next key moves past the key written; the table stays valid |
| Views.CheckPerm | ilivehere/views.py:25-31 | never raises for staff; for a non-staff user raises PermissionDenied iff the user did not create the story |
| Views.AnonymousStoryStaffOnly | ilivehere/views.py:25-31 | a story without a user passes the check for staff only |
| Views.EditImpliesCheckPerm | ilivehere/views.py:25-31 | whoever may edit a story under `user_can_edit` also passes `check_perm` |
| Views.GetObject | ilivehere/views.py:65-68 | the detail view, and the update view at lines 111-114, return a stored story with the key iff it exists and passes `check_perm`; they raise not-found iff no story has the key, and PermissionDenied otherwise |
| Views.SubsequenceReflexive | ilivehere/views.py:76 | the whole list is a sub-sequence of itself in stored order |
| Views.OwnStories | ilivehere/views.py:78 | the filter keeps stored order, holds only the user's stories, and holds each of them as often as it is stored |
| Views.ListFor | ilivehere/views.py:74-79 | staff see every story; others see exactly their own, each as often as it is stored; either way the list is a sub-sequence of the stored, newest-first order |
| Views.ListMatchesCheckPerm | ilivehere/views.py:74-79 | a stored story is listed for a user iff `check_perm` lets that user see it |
| Views.TrustCreate | ilivehere/views.py:54-57 | the requesting user becomes the story's user, so the save never fails; a new story becomes the newest row, the next key moves past the key written, and the table stays valid |
| Views.Moderate | ilivehere/views.py:82-90 | non-staff get PermissionDenied and nothing changes; for staff a missing key gives not-found, otherwise exactly the row with that key becomes published by the requester at `now`, in place, and the next key is unchanged |
| Views.GetObjectForUpdate | ilivehere/views.py:111-114 | corrected update gate: returns the story iff it exists and the user may edit it under `user_can_edit` |
| Views.ModeratedStoryClosedForUpdate | ilivehere/views.py:111-114 | under the corrected gate, a non-staff user cannot open a moderated story for update |
| Views.OwnerOpensPublishedStoryForUpdate | ilivehere/views.py:104-114 | under the gate as written, a non-staff owner opens their published story for update, though `user_can_edit` refuses them |

## Left out

- The Django ORM is abstracted away: `objects.get`, `filter`, `super().save` and foreign-key integrity become operations on a sequence of story values.
- A save with an explicit key that no row has inserts the story as the newest row; database key sequences are modelled only as a next key moved past every key written.
- Two rows with one key (`MultipleObjectsReturned`) cannot occur: the table's invariant keeps keys distinct.
- `ModerateState` rows are a closed enumeration, so the `DoesNotExist` failure of the slug lookups cannot occur.
- `Area` is only its primary key. `Event` (story/models.py:55-77) has fields and no behaviour, so it is not modelled.
- `reversion.register`, the `TimeStampedModel` timestamps, the `Meta` names, `__unicode__`, `get_absolute_url` and URL building are not modelled. Creation order is kept as the position in the table, newest first.
- `datetime.now()` is not modelled; the moderation methods take the time as a parameter.
- Picture upload, the form classes, templates, `messages.info` and the redirect are not modelled. The story a form builds is given to the view as a `Story` instance.
- `StoryAnonCreateView` adds nothing of its own; its create is `Story.Save` on a story with no user.
- `LoginRequiredMixin` means the requester is an authenticated `User`, so Django's anonymous user is not modelled. `StaffuserRequiredMixin` means `is_staff`; a refusal is modelled as PermissionDenied, not as a redirect to the login page.
- Concurrent requests are not modelled: each operation runs alone, and two moderations of one story leave the last one in place.

## Findings

| source | as written | input that shows it | evidently intended | confidence | as-written member | corrected member |
|---|---|---|---|---|---|---|
| ilivehere/views.py:111-114 | the update view gates with `check_perm`, which any owner passes, whether or not the story was moderated | a non-staff, active owner asks to update their story 7 after staff published it: `GetObject` returns the story | gate updates with `user_can_edit` (story/models.py:133-143), whose docstring says a standard user may edit their own stories only while unmoderated | medium, not executed | Views.OwnerOpensPublishedStoryForUpdate | Views.GetObjectForUpdate |
