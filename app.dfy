/** The top-level `App` component: which screen is active, the session
    (token and user), the deep-linked note id, and the browser path. */
module App {
  import opened Wrappers
  import opened DeepLink
  import Js

  datatype View = RegisterView | LoginView | DashboardView | NoteView

  datatype User = User(id: string, name: string, email: string)

  /** The child component `App` renders. */
  datatype Screen = RegisterScreen | LoginScreen | DashboardScreen | ViewerScreen(noteId: string) | Blank

  class App {
    var currentView: View
    var token: Option<string>
    var user: Option<User>
    var noteId: Option<string>
    /** `window.location.pathname` */
    var path: string

    /** The session is set and cleared as a whole; the dashboard needs one; a
        note id is held exactly while the note view is active, and that view
        was reached only without a (truthy) token. */
    ghost predicate Valid()
      reads this
    {
      (token.Some? <==> user.Some?)
      && (currentView == DashboardView ==> token.Some?)
      && (noteId.Some? <==> currentView == NoteView)
      && (noteId.Some? ==> IsNoteId(noteId.value))
      && (currentView == NoteView ==> !Js.TruthyText(token))
    }

    /** Mounting `App` at `location`: the initial state, then the deep-link effect. */
    constructor(location: string)
      ensures Valid()
      ensures token == None && user == None && path == location
      ensures MatchNotePath(location).Some? ==>
        currentView == NoteView && noteId == MatchNotePath(location)
      ensures MatchNotePath(location).None? ==> currentView == LoginView && noteId == None
    {
      currentView := LoginView;
      token := None;
      user := None;
      noteId := None;
      path := location;
      new;
      ResolveDeepLink();
    }

    /** The mount effect: a path `/note/<id>` opens the note view, unless a
        truthy token is already held (`!token` lets `null` and "" through). */
    method ResolveDeepLink()
      requires Valid() && currentView == LoginView
      modifies this`currentView, this`noteId
      ensures Valid()
      ensures !Js.TruthyText(token) && MatchNotePath(path).Some? ==>
        currentView == NoteView && noteId == MatchNotePath(path)
      ensures Js.TruthyText(token) || MatchNotePath(path).None? ==>
        currentView == old(currentView) && noteId == old(noteId)
    {
      var matched := MatchNotePath(path);
      if matched.Some? && !Js.TruthyText(token) {
        MatchNotePathIff(path, matched.value);
        noteId := matched;
        currentView := NoteView;
      }
    }

    /** `onSuccess` of Login or Register: the session is set and the dashboard
        shown. Its 500 ms timer can fire from the login, register or dashboard
        view, never from the note view. */
    method OnSuccess(newToken: string, newUser: User)
      requires Valid() && currentView != NoteView
      modifies this`token, this`user, this`currentView
      ensures Valid()
      ensures token == Some(newToken) && user == Some(newUser)
      ensures currentView == DashboardView
    {
      token := Some(newToken);
      user := Some(newUser);
      currentView := DashboardView;
    }

    /** `handleLogout`: the session is cleared and the login view shown. */
    method Logout()
      requires Valid() && currentView != NoteView
      modifies this`token, this`user, this`currentView
      ensures Valid()
      ensures token == None && user == None && currentView == LoginView
    {
      token := None;
      user := None;
      currentView := LoginView;
    }

    /** `onSwitchToLogin` from the register screen. */
    method SwitchToLogin()
      requires Valid() && currentView == RegisterView
      modifies this`currentView
      ensures Valid() && currentView == LoginView
    {
      currentView := LoginView;
    }

    /** `onSwitchToRegister` from the login screen. */
    method SwitchToRegister()
      requires Valid() && currentView == LoginView
      modifies this`currentView
      ensures Valid() && currentView == RegisterView
    {
      currentView := RegisterView;
    }

    /** `onBack` from the note viewer: login view, no note id, path `/`; the
        session is left as it was. */
    method Back()
      requires Valid() && ActiveScreen().ViewerScreen?
      modifies this`currentView, this`noteId, this`path
      ensures Valid()
      ensures currentView == LoginView && noteId == None && path == "/"
    {
      currentView := LoginView;
      noteId := None;
      path := "/";
    }

    /** The child rendered for the current state; the note viewer appears only
        in the note view with a (non-empty) note id. */
    function ActiveScreen(): (s: Screen)
      reads this
      ensures s.ViewerScreen? <==> currentView == NoteView && Js.TruthyText(noteId)
      ensures s.ViewerScreen? ==> noteId == Some(s.noteId)
      ensures Valid() ==> !s.Blank?
    {
      match currentView
      case RegisterView => RegisterScreen
      case LoginView => LoginScreen
      case DashboardView => DashboardScreen
      case NoteView => if Js.TruthyText(noteId) then ViewerScreen(noteId.value) else Blank
    }
  }

  /** Opening a share link's path without a session shows the viewer for that
      note; leaving it with `onBack` ends at the login screen with path `/`. */
  method VisitShareLink(id: string) returns (shown: Screen, after: Screen, finalPath: string)
    requires IsNoteId(id)
    ensures shown == ViewerScreen(id)
    ensures after == LoginScreen && finalPath == "/"
  {
    MatchNotePathIff(NotePath(id), id);
    var app := new App(NotePath(id));
    shown := app.ActiveScreen();
    app.Back();
    after := app.ActiveScreen();
    finalPath := app.path;
  }
}
