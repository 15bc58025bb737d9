/** The client-side state store of the bookmarking front end: one object whose fields are
    changed only by named, synchronous mutations, and actions that commit a fixed sequence of
    those mutations around one HTTP request. The request itself is abstracted to its settled
    `Outcome`, and each action runs from start to completion without interleaving. */
module VuexStore {
  import opened Values
  import opened LinkList

  /** The signed-in session. `token` is `None` when it was set from a missing persisted entry
      (`localStorage.getItem` answers `null`). */
  datatype User = User(authenticated: bool, email: string, token: Option<string>)

  /** Display settings of the notification banner; `None` is an `undefined` field. */
  datatype Config = Config(button: Option<bool>, duration: Option<int>, position: Option<string>,
                           sticky: Option<bool>, theme: Option<string>, html: Option<bool>)

  datatype Notification = Notification(message: Option<string>, level: Option<string>, show: bool,
                                       config: Config)

  /** The object handed to the `notify` mutation; every field may be omitted. */
  datatype NotifyPayload = NotifyPayload(message: Option<string>, level: Option<string>,
                                         button: Option<bool>, duration: Option<int>,
                                         position: Option<string>, sticky: Option<bool>,
                                         theme: Option<string>, html: Option<bool>)

  /** The payload of `updateLinkUrl`: a `{id, url}` record, or a bare id, which has neither
      property. */
  datatype UrlPayload = UrlRecord(id: LinkId, url: string) | BareId(value: LinkId)

  /** The named slots of `state.errors`. */
  datatype Bucket = AddLink | RemoveLink | ArchiveLink | UnarchiveLink | Logout | UpdateLinks
                  | UpdateArchive | UpdateLinkUrl

  /** What an error slot holds: the initial `{}` or `[]`, a whole error object, or the body
      of the server's answer. */
  datatype ErrorEntry = EmptyObject | EmptyArray | ErrorObject(error: HttpError) | ResponseData(data: string)

  const DefaultConfig := Config(Some(false), Some(4000), Some("bottom"), Some(false), Some("pure"), Some(false))

  /** The banner settings after a `notify` whose payload has only a message and a level. */
  const UndefinedConfig := Config(None, None, None, None, None, None)

  const InitialErrors: map<Bucket, ErrorEntry> :=
    map[Bucket.AddLink := EmptyObject, Bucket.RemoveLink := EmptyArray, Bucket.ArchiveLink := EmptyArray,
        Bucket.UnarchiveLink := EmptyArray, Bucket.Logout := EmptyArray, Bucket.UpdateLinks := EmptyArray]

  /** The payload the actions commit to `notify`: a message and a level, nothing else. */
  function Message(text: string, level: string): NotifyPayload {
    NotifyPayload(Some(text), Some(level), None, None, None, None, None, None)
  }

  /** The banner an action leaves behind: shown, with the given text and level, and every
      display setting undefined. */
  function Banner(text: string, level: string): Notification {
    Notification(Some(text), Some(level), true, UndefinedConfig)
  }

  /** The string the browser's key/value store keeps for a token; `None` is the `null` that
      `localStorage.getItem` answers for a missing key, which is stored as "null". */
  function Stored(v: Option<string>): string {
    match v
    case Some(s) => s
    case None => "null"
  }

  class Store {
    var user: User
    var links: seq<Link>
    /** `state.archive`, which only `updateArchive` creates. */
    var archive: Option<seq<Link>>
    var errors: map<Bucket, ErrorEntry>
    /** Shared by keybind disabling and edit mode; never clamped. */
    var keybindsDisabled: int
    var loadingProgress: int
    var query: string
    var notification: Notification
    var background: string
    /** The browser's persistent key/value store, written through by the mutations. */
    var storage: map<string, string>
    /** Every value written to `loadingProgress`, oldest first: the sequence the progress
        bar is driven through. */
    ghost var progressTrail: seq<int>

    /** The store at page load; the background preference is read from the persisted
        entry `backgroundColor` when there is one. */
    constructor (persisted: map<string, string>)
      ensures user == User(false, "", Some(""))
      ensures links == [] && archive == None && errors == InitialErrors
      ensures keybindsDisabled == 0 && loadingProgress == 0 && query == ""
      ensures notification == Notification(Some(""), Some(""), false, DefaultConfig)
      ensures background == if "backgroundColor" in persisted then persisted["backgroundColor"] else "white"
      ensures storage == persisted && progressTrail == []
    {
      user := User(false, "", Some(""));
      links := [];
      archive := None;
      errors := InitialErrors;
      keybindsDisabled := 0;
      loadingProgress := 0;
      query := "";
      notification := Notification(Some(""), Some(""), false, DefaultConfig);
      background := if "backgroundColor" in persisted then persisted["backgroundColor"] else "white";
      storage := persisted;
      progressTrail := [];
    }

    // ----- Mutations -----

    /** Marks the first link with id `id` archived; no-op when there is none. */
    method ArchiveLink(id: LinkId)
      modifies this`links
      ensures links == PatchFirst(old(links), id, SetArchived(true))
    {
      var i := 0;
      while i < |links|
        invariant 0 <= i <= |links| && links == old(links)
        invariant forall j :: 0 <= j < i ==> links[j].id != id
      {
        if links[i].id == id {
          assert IsFirst(links, id, i);
          links := links[i := links[i].(archived := true)];
          return;
        }
        i := i + 1;
      }
    }

    /** Marks the first link with id `id` not archived; no-op when there is none. */
    method UnarchiveLink(id: LinkId)
      modifies this`links
      ensures links == PatchFirst(old(links), id, SetArchived(false))
    {
      var i := 0;
      while i < |links|
        invariant 0 <= i <= |links| && links == old(links)
        invariant forall j :: 0 <= j < i ==> links[j].id != id
      {
        if links[i].id == id {
          assert IsFirst(links, id, i);
          links := links[i := links[i].(archived := false)];
          return;
        }
        i := i + 1;
      }
    }

    /** Sets the url of the first link whose id is the payload's `id`. A bare id has no
        `id` property: the key is undefined, matches no link, and the list is unchanged. */
    method UpdateLinkUrl(data: UrlPayload)
      modifies this`links
      ensures data.UrlRecord? ==> links == PatchFirst(old(links), data.id, SetUrl(data.url))
      ensures data.BareId? ==> links == old(links)
    {
      var id: Option<LinkId> := if data.UrlRecord? then Some(data.id) else None;
      var url: Option<string> := if data.UrlRecord? then Some(data.url) else None;
      var i := 0;
      while i < |links|
        invariant 0 <= i <= |links| && links == old(links)
        invariant forall j :: 0 <= j < i ==> Some(links[j].id) != id
      {
        if Some(links[i].id) == id {
          assert IsFirst(links, data.id, i);
          links := links[i := links[i].(url := url.value)];
          return;
        }
        i := i + 1;
      }
    }

    /** Keeps exactly the links whose id differs from `id`. */
    method RemoveLink(id: LinkId)
      modifies this`links
      ensures links == Without(old(links), id)
    {
      links := Without(links, id);
    }

    /** Appends `link` at the end of the list. */
    method AddLink(link: Link)
      modifies this`links
      ensures links == old(links) + [link]
    {
      links := links + [link];
    }

    /** Replaces the whole list. */
    method UpdateLinks(data: seq<Link>)
      modifies this`links
      ensures links == data
    {
      links := data;
    }

    method UpdateArchive(data: seq<Link>)
      modifies this`archive
      ensures archive == Some(data)
    {
      archive := Some(data);
    }

    method UpdateEmail(email: string)
      modifies this`user
      ensures user == old(user).(email := email)
    {
      user := user.(email := email);
    }

    /** The `...Errors` mutations: each overwrites its own slot and no other. */
    method SetErrors(bucket: Bucket, entry: ErrorEntry)
      modifies this`errors
      ensures errors == old(errors)[bucket := entry]
    {
      errors := errors[bucket := entry];
    }

    method AddLinkErrorsClear()
      modifies this`errors
      ensures errors == old(errors)[Bucket.AddLink := EmptyObject]
    {
      errors := errors[Bucket.AddLink := EmptyObject];
    }

    /** Marks the session authenticated with `token` and persists the token. `None` is a
        `null` token, as read from a missing persisted entry. */
    method LoginSuccessful(token: Option<string>)
      modifies this`user, this`storage
      ensures user == old(user).(authenticated := true, token := token)
      ensures storage == old(storage)["token" := Stored(token)]
    {
      user := user.(authenticated := true, token := token);
      storage := storage["token" := Stored(token)];
    }

    /** Resets email, authentication and links, and empties the whole persistent store; the
        in-memory token is left as it was. */
    method Logout()
      modifies this`user, this`links, this`storage
      ensures user == old(user).(email := "", authenticated := false)
      ensures links == [] && storage == map[]
    {
      user := user.(email := "", authenticated := false);
      links := [];
      storage := map[];
    }

    method DisableKeybinds()
      modifies this`keybindsDisabled
      ensures keybindsDisabled == old(keybindsDisabled) + 1
    {
      keybindsDisabled := keybindsDisabled + 1;
    }

    method EnableKeybinds()
      modifies this`keybindsDisabled
      ensures keybindsDisabled == old(keybindsDisabled) - 1
    {
      keybindsDisabled := keybindsDisabled - 1;
    }

    method EnableEditing()
      modifies this`keybindsDisabled
      ensures keybindsDisabled == old(keybindsDisabled) + 1
    {
      keybindsDisabled := keybindsDisabled + 1;
    }

    method DisableEditing()
      modifies this`keybindsDisabled
      ensures keybindsDisabled == old(keybindsDisabled) - 1
    {
      keybindsDisabled := keybindsDisabled - 1;
    }

    /** Copies every field of the payload as given, omitted ones included, and shows the
        banner. */
    method Notify(c: NotifyPayload)
      modifies this`notification
      ensures notification.message == c.message && notification.level == c.level && notification.show
      ensures notification.config == Config(c.button, c.duration, c.position, c.sticky, c.theme, c.html)
    {
      notification := notification.(message := c.message, level := c.level);
      notification := notification.(config := notification.config.(button := c.button));
      notification := notification.(config := notification.config.(duration := c.duration));
      notification := notification.(config := notification.config.(position := c.position));
      notification := notification.(config := notification.config.(sticky := c.sticky));
      notification := notification.(config := notification.config.(theme := c.theme));
      notification := notification.(config := notification.config.(html := c.html));
      notification := notification.(show := true);
    }

    method NotificationClosed()
      modifies this`notification
      ensures notification == old(notification).(show := false)
    {
      notification := notification.(show := false);
    }

    /** Sets the background and persists it as `backgroundColor`. */
    method SetBackground(color: string)
      modifies this`background, this`storage
      ensures background == color && storage == old(storage)["backgroundColor" := color]
    {
      background := color;
      storage := storage["backgroundColor" := color];
    }

    method SetLoadingProgress(percentage: int)
      modifies this`loadingProgress, this`progressTrail
      ensures loadingProgress == percentage && progressTrail == old(progressTrail) + [percentage]
    {
      loadingProgress := percentage;
      progressTrail := progressTrail + [percentage];
    }

    method SetQuery(q: string)
      modifies this`query
      ensures query == q
    {
      query := q;
    }

    // ----- Actions -----

    /** Checks the persisted token with the server. On success the email is recorded and
        the session re-marked authenticated with the persisted token (absent: `null`); on
        failure the session is logged out. Progress and banner are not touched. */
    method DispatchIsAuthenticated(response: Outcome<string>)
      modifies this`user, this`links, this`storage
      ensures response.Success? ==>
        var token := if "token" in old(storage) then Some(old(storage)["token"]) else None;
        && user == old(user).(email := response.data, authenticated := true, token := token)
        && links == old(links)
        && storage == old(storage)["token" := Stored(token)]
      ensures response.Failure? ==>
        && user == old(user).(email := "", authenticated := false)
        && links == [] && storage == map[]
    {
      match response
      case Success(email) =>
        UpdateEmail(email);
        LoginSuccessful(if "token" in storage then Some(storage["token"]) else None);
      case Failure(_) =>
        Logout();
    }

    /** Posts a new link (its url already normalised by the caller). On success the
        server's record is appended. On failure the server's answer goes to the `addLink`
        slot; when the error carries no answer, reading it throws inside the failure
        handler, so the slot and the progress are left as they were after the warning. */
    method DispatchAddLink(response: Outcome<Link>)
      modifies this`links, this`notification, this`errors, this`loadingProgress, this`progressTrail
      ensures response.Success? ==>
        && links == old(links) + [response.data]
        && notification == Banner("Added New Link", "info")
        && errors == old(errors)
        && loadingProgress == 100 && progressTrail == old(progressTrail) + [30, 100]
      ensures response.Failure? ==>
        && links == old(links)
        && notification == Banner("Problem Adding New Link", "warning")
        && (response.error.response.Some? ==>
              && errors == old(errors)[Bucket.AddLink := ResponseData(response.error.response.value)]
              && loadingProgress == 0 && progressTrail == old(progressTrail) + [30, 0])
        && (response.error.response.None? ==>
              && errors == old(errors)
              && loadingProgress == 30 && progressTrail == old(progressTrail) + [30])
    {
      SetLoadingProgress(30);
      match response
      case Success(record) =>
        Notify(Message("Added New Link", "info"));
        AddLink(record);
        SetLoadingProgress(100);
      case Failure(error) =>
        Notify(Message("Problem Adding New Link", "warning"));
        if error.response.Some? {
          SetErrors(Bucket.AddLink, ResponseData(error.response.value));
          SetLoadingProgress(0);
        }
    }

    /** Reloads the whole list; a failure is recorded in the `updateLinks` slot. Progress
        and banner are not touched. */
    method DispatchRefreshLinks(response: Outcome<seq<Link>>)
      modifies this`links, this`errors
      ensures response.Success? ==> links == response.data && errors == old(errors)
      ensures response.Failure? ==>
        links == old(links) && errors == old(errors)[Bucket.UpdateLinks := ErrorObject(response.error)]
    {
      match response
      case Success(data) =>
        UpdateLinks(data);
      case Failure(error) =>
        SetErrors(Bucket.UpdateLinks, ErrorObject(error));
    }

    method DispatchArchiveLink(id: LinkId, response: Outcome<()>)
      modifies this`links, this`notification, this`errors, this`loadingProgress, this`progressTrail
      ensures response.Success? ==>
        && links == PatchFirst(old(links), id, SetArchived(true))
        && notification == Banner("Archived Link", "info")
        && errors == old(errors)
        && loadingProgress == 100 && progressTrail == old(progressTrail) + [30, 100]
      ensures response.Failure? ==>
        && links == old(links)
        && notification == Banner("Problem archiving link", "warning")
        && errors == old(errors)[Bucket.ArchiveLink := ErrorObject(response.error)]
        && loadingProgress == 0 && progressTrail == old(progressTrail) + [30, 0]
    {
      SetLoadingProgress(30);
      match response
      case Success(_) =>
        Notify(Message("Archived Link", "info"));
        ArchiveLink(id);
        SetLoadingProgress(100);
      case Failure(error) =>
        Notify(Message("Problem archiving link", "warning"));
        SetErrors(Bucket.ArchiveLink, ErrorObject(error));
        SetLoadingProgress(0);
    }

    method DispatchUnarchiveLink(id: LinkId, response: Outcome<()>)
      modifies this`links, this`notification, this`errors, this`loadingProgress, this`progressTrail
      ensures response.Success? ==>
        && links == PatchFirst(old(links), id, SetArchived(false))
        && notification == Banner("Unarchived Link", "info")
        && errors == old(errors)
        && loadingProgress == 100 && progressTrail == old(progressTrail) + [30, 100]
      ensures response.Failure? ==>
        && links == old(links)
        && notification == Banner("Problem Unarchiving Link", "warning")
        && errors == old(errors)[Bucket.UnarchiveLink := ErrorObject(response.error)]
        && loadingProgress == 0 && progressTrail == old(progressTrail) + [30, 0]
    {
      SetLoadingProgress(30);
      match response
      case Success(_) =>
        Notify(Message("Unarchived Link", "info"));
        UnarchiveLink(id);
        SetLoadingProgress(100);
      case Failure(error) =>
        Notify(Message("Problem Unarchiving Link", "warning"));
        SetErrors(Bucket.UnarchiveLink, ErrorObject(error));
        SetLoadingProgress(0);
    }

    method DispatchRemoveLink(id: LinkId, response: Outcome<()>)
      modifies this`links, this`notification, this`errors, this`loadingProgress, this`progressTrail
      ensures response.Success? ==>
        && links == Without(old(links), id)
        && notification == Banner("Deleted Link", "info")
        && errors == old(errors)
        && loadingProgress == 100 && progressTrail == old(progressTrail) + [30, 100]
      ensures response.Failure? ==>
        && links == old(links)
        && notification == Banner("Problem Deleting Link", "warning")
        && errors == old(errors)[Bucket.RemoveLink := ErrorObject(response.error)]
        && loadingProgress == 0 && progressTrail == old(progressTrail) + [30, 0]
    {
      SetLoadingProgress(30);
      match response
      case Success(_) =>
        Notify(Message("Deleted Link", "info"));
        RemoveLink(id);
        SetLoadingProgress(100);
      case Failure(error) =>
        Notify(Message("Problem Deleting Link", "warning"));
        SetErrors(Bucket.RemoveLink, ErrorObject(error));
        SetLoadingProgress(0);
    }

    /** Sends the new url of link `id` to the server. On success the mutation is committed
        with the bare id, so the local list keeps the old url. */
    method DispatchChangeLinkUrl(id: LinkId, url: string, response: Outcome<()>)
      modifies this`links, this`notification, this`errors, this`loadingProgress, this`progressTrail
      ensures links == old(links)
      ensures response.Success? ==>
        && notification == Banner("Updated Link", "info")
        && errors == old(errors)
        && loadingProgress == 100 && progressTrail == old(progressTrail) + [30, 100]
      ensures response.Failure? ==>
        && notification == Banner("Problem updating Link", "warning")
        && errors == old(errors)[Bucket.UpdateLinkUrl := ErrorObject(response.error)]
        && loadingProgress == 0 && progressTrail == old(progressTrail) + [30, 0]
    {
      SetLoadingProgress(30);
      match response
      case Success(_) =>
        Notify(Message("Updated Link", "info"));
        UpdateLinkUrl(BareId(id));
        SetLoadingProgress(100);
      case Failure(error) =>
        Notify(Message("Problem updating Link", "warning"));
        SetErrors(Bucket.UpdateLinkUrl, ErrorObject(error));
        SetLoadingProgress(0);
    }
  }
}
