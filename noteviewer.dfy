/** The `NoteViewer` component: the password form that unlocks a shared note.
    `verifyNote` is split at its `await` into `Submit` and `Complete`. */
module NoteViewer {
  import opened Wrappers
  import opened Js
  import opened Api

  const VerificationFailed := "Verification failed"

  /** The request `verifyNote` sends: the password alone, to
      `/notes/<noteId>/verify`, with no Authorization header. */
  function VerifyRequest(noteId: string, password: string): (req: Request)
    ensures req.endpoint == "/notes/" + noteId + "/verify" && req.verb == "POST"
    ensures req.headers == map[ContentType := Json]
    ensures Authorization !in req.headers
    ensures req.body == Some(JObj(map["password" := JStr(password)]))
  {
    Send("/notes/" + noteId + "/verify", "POST", map[], Some(JObj(map["password" := JStr(password)])))
  }

  /** The message a failed verification shows. */
  function FailureText(t: Thrown): (text: string)
    ensures t.Error? ==> text == t.message
    ensures t.NonError? ==> text == VerificationFailed
  {
    match t
    case Error(m) => m
    case NonError => VerificationFailed
  }

  /** A verification that reaches the server and is refused shows exactly the
      server's `msg` when it gives one: the client adds no wording of its own,
      so what it shows depends on nothing but the response. */
  lemma RefusalShowsServerText(r: Response, msg: string)
    requires !r.ok && r.body.Parsed? && r.body.value.JObj? && "msg" in r.body.value.fields
    requires r.body.value.fields["msg"] == JStr(msg) && msg != ""
    ensures Settle(Received(r)).Err?
    ensures FailureText(Settle(Received(r)).error) == msg
  {
    FailureMessageCases(r);
  }

  /** Every refused verification shows a non-empty message. */
  lemma RefusalIsShown(r: Response)
    requires !r.ok
    ensures |FailureText(Settle(Received(r)).error)| > 0
  {
    FailureMessageNonEmpty(r);
  }

  class NoteViewer {
    /** The `noteId` prop. */
    const noteId: string
    var password: string
    var msg: string
    var loading: bool
    /** The note content, `null` (JNull) while locked. */
    var content: JsonValue

    /** No verification is in flight once the note is unlocked. */
    ghost predicate Valid()
      reads this
    {
      Unlocked() ==> !loading
    }

    /** `if (content)`: the unlocked view, which offers only `onBack`. */
    predicate Unlocked()
      reads this
    {
      Truthy(content)
    }

    /** The form is rendered, its submit button enabled and the required
        password field filled. */
    predicate CanSubmit()
      reads this
    {
      !Unlocked() && !loading && password != ""
    }

    constructor(noteId: string)
      ensures Valid() && this.noteId == noteId
      ensures password == "" && msg == "" && !loading && content == JNull
      ensures !Unlocked() && !CanSubmit()
    {
      this.noteId := noteId;
      password := "";
      msg := "";
      loading := false;
      content := JNull;
    }

    /** Typing in the password field, which exists only while locked. */
    method EditPassword(p: string)
      requires Valid() && !Unlocked()
      modifies this`password
      ensures Valid() && password == p
    {
      password := p;
    }

    /** The form's submit, up to the `await`: loading, message cleared, and the
        request sent. A second submit cannot follow until it completes. */
    method Submit() returns (req: Request)
      requires Valid() && CanSubmit()
      modifies this`loading, this`msg
      ensures Valid() && loading && msg == ""
      ensures req == VerifyRequest(noteId, password)
      ensures !CanSubmit() && !Unlocked()
    {
      loading := true;
      msg := "";
      req := VerifyRequest(noteId, password);
    }

    /** The rest of `verifyNote`, once the request settled with `result`. The
        content is replaced only while locked, and the password is kept. */
    method Complete(result: Result<JsonValue, Thrown>)
      requires Valid() && loading
      modifies this`msg, this`content, this`loading
      ensures Valid() && !loading
      ensures old(!Unlocked())
      ensures result.Ok? ==> content == result.value && msg == ""
      ensures result.Err? ==> content == JNull && msg == FailureText(result.error) && !Unlocked()
    {
      match result {
        case Ok(data) =>
          content := data;
          msg := "";
        case Err(t) =>
          msg := FailureText(t);
          content := JNull;
      }
      loading := false;
    }
  }

  /** A wrong password leaves the form up with the failure shown; a later
      attempt with the right password unlocks the note. */
  method RetryAfterFailure(noteId: string, wrong: string, right: string, refusal: Response, note: JsonValue)
    returns (firstMsg: string, formAfterFailure: bool, shown: JsonValue, keptPassword: string)
    requires wrong != "" && right != ""
    requires !refusal.ok
    requires Truthy(note)
    ensures |firstMsg| > 0 && firstMsg == FailureText(Settle(Received(refusal)).error)
    ensures formAfterFailure
    ensures shown == note && keptPassword == right
  {
    var v := new NoteViewer(noteId);
    v.EditPassword(wrong);
    var req := v.Submit();
    v.Complete(Settle(Received(refusal)));
    firstMsg := v.msg;
    RefusalIsShown(refusal);
    formAfterFailure := !v.Unlocked();
    v.EditPassword(right);
    req := v.Submit();
    v.Complete(Ok(note));
    shown := v.content;
    keptPassword := v.password;
  }
}
