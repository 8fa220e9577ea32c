/** The `Dashboard` component: the profile load guard and the secure-note
    composer (draft, created notes, share link). */
module Dashboard {
  import opened Wrappers
  import opened Js
  import opened Api
  import opened DeepLink
  import opened App

  /** The `newNote` draft. */
  datatype NoteDraft = NoteDraft(title: string, content: string, password: string)

  const EmptyDraft := NoteDraft("", "", "")
  const ProfileError := "Failed to load profile. Please login again."
  const CreateFailed := "Failed to create note"

  /** `JSON.stringify(newNote)`, as the value it encodes. */
  function DraftJson(d: NoteDraft): JsonValue {
    JObj(map["title" := JStr(d.title), "content" := JStr(d.content), "password" := JStr(d.password)])
  }

  /** The text a failed creation shows: the error's message, or a fixed text. */
  function AlertText(t: Thrown): (text: string)
    ensures t.Error? ==> text == t.message
    ensures t.NonError? ==> text == CreateFailed
  {
    match t
    case Error(m) => m
    case NonError => CreateFailed
  }

  /** What a settled creation request means to the composer. */
  datatype Creation = Created(data: JsonValue, id: string) | NoId | Failed(alert: string)

  /** Classifies a settled `/notes/create` request: a truthy `_id` (read as
      text) is a creation; a body without one is ignored; a rejection, or the
      TypeError of reading `_id` of `null`, is shown as an alert. */
  function Classify(result: Result<JsonValue, Thrown>): (c: Creation)
    ensures c.Created? ==>
      (result == Ok(c.data) && c.data.JObj? && "_id" in c.data.fields
       && Truthy(c.data.fields["_id"]) && c.id == ToJsString(c.data.fields["_id"]))
    ensures c.Created? ==> c.id != ""
    ensures (result.Ok? && result.value.JObj? && "_id" in result.value.fields
             && Truthy(result.value.fields["_id"])) ==> c.Created?
    ensures c.Failed? <==> result.Err? || result == Ok(JNull)
    ensures result.Err? ==> c == Failed(AlertText(result.error))
  {
    match result
    case Err(t) => Failed(AlertText(t))
    case Ok(data) =>
      match Get(data, "_id")
      case Err(t) => Failed(AlertText(t))
      case Ok(id) =>
        if id.Some? && Truthy(id.value) then Created(data, ToJsString(id.value)) else NoId
  }

  /** The notes list after a creation completes, as written: the list it
      extends is the one the click handler captured, not the current one. */
  function AppendAsWritten(notesAtClick: seq<JsonValue>, current: seq<JsonValue>, data: JsonValue): seq<JsonValue> {
    notesAtClick + [data]
  }

  /** The notes list after a creation completes, extending the current list. */
  function AppendCreated(current: seq<JsonValue>, data: JsonValue): (r: seq<JsonValue>)
    ensures |r| == |current| + 1 && r[..|current|] == current && r[|current|] == data
  {
    current + [data]
  }

  /** Two creations started before either completes: as written, the second
      completion drops the note the first one added. */
  lemma OverlappingCreatesLoseNote()
    ensures var d1, d2 := JObj(map["_id" := JStr("a1")]), JObj(map["_id" := JStr("b2")]);
      var afterFirst := AppendAsWritten([], [], d1);
      var afterSecond := AppendAsWritten([], afterFirst, d2);
      afterFirst == [d1] && afterSecond == [d2] && d1 !in afterSecond
  {
    var d1, d2 := JObj(map["_id" := JStr("a1")]), JObj(map["_id" := JStr("b2")]);
    assert d1.fields["_id"] != d2.fields["_id"];
  }

  /** Appending to the current list keeps every created note, in completion order. */
  lemma {:induction false} OverlappingCreatesKeepBoth(start: seq<JsonValue>, d1: JsonValue, d2: JsonValue)
    ensures AppendCreated(AppendCreated(start, d1), d2) == start + [d1, d2]
    ensures d1 in AppendCreated(AppendCreated(start, d1), d2)
  {
    var r := AppendCreated(AppendCreated(start, d1), d2);
    assert r[|start|] == d1;
  }

  class Dashboard {
    /** The `token` prop; it follows `App`'s token while the dashboard is shown. */
    var token: Option<string>
    var profile: Option<User>
    var loading: bool
    var error: string
    var notes: seq<JsonValue>
    var newNote: NoteDraft
    var shareLink: Option<string>

    /** Mounting the dashboard with the session's `user` and `token`. */
    constructor(user: Option<User>, token: Option<string>)
      ensures this.token == token && profile == user
      ensures !loading && error == "" && notes == [] && newNote == EmptyDraft && shareLink == None
    {
      this.token := token;
      profile := user;
      loading := false;
      error := "";
      notes := [];
      newNote := EmptyDraft;
      shareLink := None;
    }

    /** `App` re-renders the dashboard with a new `token` prop (a later sign-in
        timer firing while it is shown). Only the token changes: the profile
        state was seeded once from the `user` prop and ignores later props. */
    method TokenChanged(newToken: Option<string>)
      modifies this`token
      ensures token == newToken
    {
      token := newToken;
    }

    /** The profile effect fetches only with a (non-empty) token and no profile. */
    predicate ProfileFetchNeeded()
      reads this
    {
      TruthyText(token) && profile.None?
    }

    /** Starting the profile fetch: a GET of `/profile/me` with the token. */
    method BeginProfileLoad() returns (req: Request)
      requires ProfileFetchNeeded()
      modifies this`loading
      ensures loading
      ensures req == Send("/profile/me", "GET", map[Authorization := Bearer(token.value)], None)
      ensures req.headers[Authorization] == "Bearer " + token.value
      ensures req.headers[ContentType] == Json
    {
      loading := true;
      req := Send("/profile/me", "GET", map[Authorization := Bearer(token.value)], None);
    }

    /** The profile fetch settled: the profile is shown, or a fixed error is
        set and a logout is scheduled (`setTimeout(onLogout, 2000)`). */
    method ProfileSettled(result: Result<User, Thrown>) returns (scheduleLogout: bool)
      modifies this`profile, this`error, this`loading
      ensures !loading
      ensures scheduleLogout <==> result.Err?
      ensures result.Ok? ==> profile == Some(result.value) && error == ""
      ensures result.Err? ==> profile == old(profile) && error == ProfileError
    {
      if result.Ok? {
        profile := Some(result.value);
        error := "";
      } else {
        error := ProfileError;
      }
      scheduleLogout := result.Err?;
      loading := false;
    }

    method EditTitle(title: string)
      modifies this`newNote
      ensures newNote == old(newNote).(title := title)
    {
      newNote := newNote.(title := title);
    }

    method EditContent(content: string)
      modifies this`newNote
      ensures newNote == old(newNote).(content := content)
    {
      newNote := newNote.(content := content);
    }

    method EditPassword(password: string)
      modifies this`newNote
      ensures newNote == old(newNote).(password := password)
    {
      newNote := newNote.(password := password);
    }

    /** The request `createNote` sends: the draft, with `Bearer ${token}` (which
        reads `Bearer null` without a token) over the JSON content type. */
    function CreateRequest(): (req: Request)
      reads this
      ensures req.endpoint == "/notes/create" && req.verb == "POST"
      ensures req.headers.Keys == {ContentType, Authorization}
      ensures req.headers[Authorization] == Bearer(TokenText(token))
      ensures req.headers[ContentType] == Json
      ensures req.body == Some(DraftJson(newNote))
    {
      Send("/notes/create", "POST", map[Authorization := Bearer(TokenText(token))], Some(DraftJson(newNote)))
    }

    /** `createNote` once its request has settled with `result`; `origin` is
        `window.location.origin`. A creation with an id sets the share link,
        appends the response and empties the draft; anything else changes none
        of the three, and a rejection is returned as the alert text. */
    method CreateNote(origin: string, result: Result<JsonValue, Thrown>) returns (alert: Option<string>)
      modifies this`notes, this`newNote, this`shareLink
      ensures Classify(result).Created? ==>
        shareLink == Some(ShareLink(origin, Classify(result).id))
        && notes == old(notes) + [result.value]
        && newNote == EmptyDraft
      ensures !Classify(result).Created? ==>
        notes == old(notes) && newNote == old(newNote) && shareLink == old(shareLink)
      ensures alert.Some? <==> Classify(result).Failed?
      ensures alert.Some? ==> alert.value == Classify(result).alert
    {
      var c := Classify(result);
      match c
      case Created(data, id) =>
        shareLink := Some(ShareLink(origin, id));
        notes := AppendCreated(notes, data);
        newNote := EmptyDraft;
        alert := None;
      case NoId =>
        alert := None;
      case Failed(text) =>
        alert := Some(text);
    }
  }

  /** A share link survives a later failed creation, and the link of a created
      note with an alphanumeric id resolves back to that id. */
  method LinkSurvivesFailure(origin: string, id: string, failure: Thrown)
    returns (link: Option<string>, resolved: Option<string>, count: nat)
    requires IsNoteId(id)
    ensures link == Some(ShareLink(origin, id))
    ensures resolved == Some(id)
    ensures count == 1
  {
    var d := new Dashboard(None, Some("t0k3n"));
    d.EditTitle("groceries");
    d.EditPassword("s3cret");
    var response := JObj(map["_id" := JStr(id), "title" := JStr("groceries")]);
    var alert := d.CreateNote(origin, Ok(response));
    alert := d.CreateNote(origin, Err(failure));
    link := d.shareLink;
    ShareLinkRoundTrip(origin, id);
    resolved := MatchNotePath(link.value[|origin|..]);
    count := |d.notes|;
  }

  /** A sign-in that completes again while the dashboard is shown hands it a
      new token: the next creation is authorized with that token, and the
      profile shown stays the one the dashboard was mounted with. */
  method CreateAfterTokenChange(user: User, first: string, second: string)
    returns (authorization: string, shownProfile: Option<User>)
    ensures authorization == Bearer(second)
    ensures shownProfile == Some(user)
  {
    var d := new Dashboard(Some(user), Some(first));
    d.TokenChanged(Some(second));
    authorization := d.CreateRequest().headers[Authorization];
    shownProfile := d.profile;
  }
}
