/** Runs of the store from the outside: concrete sequences of commits and dispatches with
    the state they end in, and round trips of one action followed by its inverse. */
module StoreScenarios {
  import opened Values
  import opened LinkList
  import opened VuexStore

  /** Archiving the only link of a fresh store: the flag is set, an info banner is shown and
      the progress ends at 100. */
  method ArchiveOnlyLink() returns (links: seq<Link>, note: Notification, progress: int)
    ensures links == [Link(1, "", "a", true)]
    ensures note.message == Some("Archived Link") && note.level == Some("info") && note.show
    ensures progress == 100
  {
    var s := new Store(map[]);
    s.UpdateLinks([Link(1, "", "a", false)]);
    s.DispatchArchiveLink(1, Success(()));
    assert IsFirst([Link(1, "", "a", false)], 1, 0);
    links, note, progress := s.links, s.notification, s.loadingProgress;
  }

  /** A rejected `addLink` request: the list is untouched, the server's answer lands in the
      `addLink` slot, the banner warns and the progress ends at 0. */
  method AddLinkRejected(existing: seq<Link>, body: string)
    returns (links: seq<Link>, slot: ErrorEntry, note: Notification, progress: int)
    ensures links == existing && slot == ResponseData(body)
    ensures note.level == Some("warning") && note.show && progress == 0
  {
    var s := new Store(map[]);
    s.UpdateLinks(existing);
    s.DispatchAddLink(Failure(HttpError("Bad Request", Some(body))));
    links, slot, note, progress := s.links, s.errors[Bucket.AddLink], s.notification, s.loadingProgress;
  }

  /** An `addLink` request that got no answer at all: the failure handler stops after the
      warning, so the slot keeps its initial `{}` and the progress stays at 30. */
  method AddLinkUnanswered() returns (slot: ErrorEntry, note: Notification, progress: int)
    ensures slot == EmptyObject && note.level == Some("warning") && progress == 30
  {
    var s := new Store(map[]);
    s.DispatchAddLink(Failure(HttpError("Network Error", None)));
    slot, note, progress := s.errors[Bucket.AddLink], s.notification, s.loadingProgress;
  }

  /** Two `enableKeybinds` and one `disableKeybinds` on a fresh store: enabling decrements,
      and nothing stops the counter below zero. */
  method CounterGoesNegative() returns (counter: int)
    ensures counter == -1
  {
    var s := new Store(map[]);
    s.EnableKeybinds();
    s.EnableKeybinds();
    s.DisableKeybinds();
    counter := s.keybindsDisabled;
  }

  /** Entering edit mode and then re-enabling keybinds: the two concerns share the counter,
      so the second undoes the first. */
  method EditingThenEnableKeybinds(s: Store)
    modifies s`keybindsDisabled
    ensures s.keybindsDisabled == old(s.keybindsDisabled)
  {
    s.EnableEditing();
    s.EnableKeybinds();
  }

  /** A banner from an action carries no display settings: the defaults of the initial state
      are overwritten with undefined, not re-applied. */
  method ActionBannerHasNoDefaults() returns (before: Config, after: Config)
    ensures before.duration == Some(4000) && before.position == Some("bottom")
    ensures after.duration == None && after.position == None && after.theme == None
  {
    var s := new Store(map[]);
    before := s.notification.config;
    s.DispatchRemoveLink(7, Success(()));
    after := s.notification.config;
  }

  /** Logging in and out with a persisted background: logout keeps the in-memory token and
      background but empties the persistent store, preference included. */
  method LogoutClearsPreferences(token: string, color: string)
    returns (user: User, background: string, storage: map<string, string>)
    ensures !user.authenticated && user.email == "" && user.token == Some(token)
    ensures background == color && storage == map[]
  {
    var s := new Store(map["backgroundColor" := color]);
    s.LoginSuccessful(Some(token));
    s.Logout();
    user, background, storage := s.user, s.background, s.storage;
  }

  /** A successful authentication check with no persisted token: the session holds `null` and
      the string "null" is persisted as the token. */
  method AuthenticatedWithoutToken(email: string) returns (user: User, storage: map<string, string>)
    ensures user == User(true, email, None)
    ensures storage == map["token" := "null"]
  {
    var s := new Store(map[]);
    s.DispatchIsAuthenticated(Success(email));
    user, storage := s.user, s.storage;
  }

  /** A successful url change keeps the old url locally. */
  method ChangeUrlKeepsOldUrl(newUrl: string) returns (links: seq<Link>)
    ensures links == [Link(3, "t", "old", false)]
  {
    var s := new Store(map[]);
    s.UpdateLinks([Link(3, "t", "old", false)]);
    s.DispatchChangeLinkUrl(3, newUrl, Success(()));
    links := s.links;
  }

  /** Archiving and then unarchiving the same id, both answered successfully, gives back the
      list exactly when its first record with that id was not archived. */
  method ArchiveThenUnarchiveRoundTrip(s: Store, id: LinkId)
    modifies s`links, s`notification, s`errors, s`loadingProgress, s`progressTrail
    ensures s.links == old(s.links) <==> forall k :: IsFirst(old(s.links), id, k) ==> !old(s.links)[k].archived
    ensures s.loadingProgress == 100 && s.notification == Banner("Unarchived Link", "info")
  {
    s.DispatchArchiveLink(id, Success(()));
    s.DispatchUnarchiveLink(id, Success(()));
    ArchiveThenUnarchive(old(s.links), id);
  }

  /** Adding a link with a new id and then deleting it, both answered successfully, gives
      back the list as it was. */
  method AddThenRemoveRoundTrip(s: Store, link: Link)
    requires Absent(s.links, link.id)
    modifies s`links, s`notification, s`errors, s`loadingProgress, s`progressTrail
    ensures s.links == old(s.links)
    ensures s.errors == old(s.errors) && s.loadingProgress == 100
  {
    s.DispatchAddLink(Success(link));
    s.DispatchRemoveLink(link.id, Success(()));
    RemoveAppended(old(s.links), link);
  }
}
