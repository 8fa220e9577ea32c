/** The share-link format and the matcher for `^\/note\/([a-zA-Z0-9]+)$` that
    resolves it back to a note identifier. */
module DeepLink {
  import opened Wrappers

  const NotePrefix := "/note/"

  /** A member of the character class `[a-zA-Z0-9]` (ASCII only). */
  predicate IsIdChar(c: char) {
    'a' <= c <= 'z' || 'A' <= c <= 'Z' || '0' <= c <= '9'
  }

  /** An identifier the deep-link pattern accepts: one or more of `[a-zA-Z0-9]`. */
  predicate IsNoteId(id: string) {
    |id| > 0 && forall i :: 0 <= i < |id| ==> IsIdChar(id[i])
  }

  /** The path part of a share link. */
  function NotePath(id: string): string {
    NotePrefix + id
  }

  /** `${origin}/note/${id}`: the link shown after a note is created. */
  function ShareLink(origin: string, id: string): (link: string)
    ensures |link| == |origin| + |NotePrefix| + |id|
    ensures link[..|origin|] == origin
    ensures link[|origin|..] == NotePath(id)
  {
    origin + NotePath(id)
  }

  /** Matches `prefix` literally at the start of `s` and gives what follows it. */
  function StripPrefix(prefix: string, s: string): Option<string>
    decreases prefix
  {
    if prefix == [] then Some(s)
    else if s != [] && s[0] == prefix[0] then StripPrefix(prefix[1..], s[1..])
    else None
  }

  /** `[a-zA-Z0-9]+$`: the rest of the input is one or more class characters. */
  predicate IdToEnd(s: string) {
    |s| > 0 && IsIdChar(s[0]) && (|s| == 1 || IdToEnd(s[1..]))
  }

  /** `path.match(/^\/note\/([a-zA-Z0-9]+)$/)`, giving the captured group. */
  function MatchNotePath(path: string): (r: Option<string>)
    ensures r.Some? ==> path == NotePath(r.value) && IsNoteId(r.value)
  {
    match StripPrefix(NotePrefix, path)
    case None => None
    case Some(rest) =>
      StripPrefixIff(NotePrefix, path, rest);
      IdToEndIff(rest);
      if IdToEnd(rest) then Some(rest) else None
  }

  lemma {:induction false} StripPrefixIff(prefix: string, s: string, rest: string)
    ensures StripPrefix(prefix, s) == Some(rest) <==> s == prefix + rest
    decreases prefix
  {
    if prefix == [] {
      assert prefix + rest == rest;
    } else {
      assert (prefix + rest)[0] == prefix[0];
      assert (prefix + rest)[1..] == prefix[1..] + rest;
      if s != [] && s[0] == prefix[0] {
        StripPrefixIff(prefix[1..], s[1..], rest);
        assert s == [s[0]] + s[1..];
      }
    }
  }

  lemma {:induction false} IdToEndIff(s: string)
    ensures IdToEnd(s) <==> IsNoteId(s)
    decreases |s|
  {
    if |s| > 1 {
      IdToEndIff(s[1..]);
      if IsNoteId(s) {
        assert forall i :: 0 <= i < |s| - 1 ==> s[1..][i] == s[i + 1];
      }
      if IdToEnd(s) {
        forall i | 0 <= i < |s| ensures IsIdChar(s[i]) {
          if i > 0 { assert s[i] == s[1..][i - 1]; }
        }
      }
    }
  }

  /** The matcher accepts exactly the paths `/note/` + id for an alphanumeric
      id, and then captures that id: nothing before `/note/`, nothing after the
      id, no empty id, no character outside `[a-zA-Z0-9]`. */
  lemma MatchNotePathIff(path: string, id: string)
    ensures MatchNotePath(path) == Some(id) <==> path == NotePath(id) && IsNoteId(id)
  {
    StripPrefixIff(NotePrefix, path, id);
    IdToEndIff(id);
  }

  /** A path that has no identifier of the deep-link form is not matched. */
  lemma MatchNotePathNone(path: string)
    requires forall id :: IsNoteId(id) ==> path != NotePath(id)
    ensures MatchNotePath(path) == None
  {
  }

  /** The path part of a share link for an alphanumeric id resolves back to
      that same id. */
  lemma ShareLinkRoundTrip(origin: string, id: string)
    requires IsNoteId(id)
    ensures MatchNotePath(ShareLink(origin, id)[|origin|..]) == Some(id)
  {
    MatchNotePathIff(NotePath(id), id);
  }

  /** What a matched path looks like, character by character. */
  lemma MatchedShape(path: string)
    ensures MatchNotePath(path).Some? ==>
      |path| > |NotePrefix| && path[..|NotePrefix|] == NotePrefix
      && forall i :: |NotePrefix| <= i < |path| ==> IsIdChar(path[i])
  {
    if MatchNotePath(path).Some? {
      var id := MatchNotePath(path).value;
      MatchNotePathIff(path, id);
      assert path[|NotePrefix|..] == id;
      forall i | |NotePrefix| <= i < |path| ensures IsIdChar(path[i]) {
        assert path[i] == id[i - |NotePrefix|];
      }
    }
  }

  /** Paths that look like share links but are not: no id, a space in the id,
      a trailing slash, a prefix before `/note/`. */
  lemma RejectedPaths()
    ensures MatchNotePath("/note/") == None
    ensures MatchNotePath("/note/abc 123") == None
    ensures MatchNotePath("/note/abc/") == None
    ensures MatchNotePath("/x/note/abc") == None
  {
    MatchedShape("/note/");
    MatchedShape("/note/abc 123");
    assert "/note/abc 123"[9] == ' ';
    MatchedShape("/note/abc/");
    assert "/note/abc/"[9] == '/';
    MatchedShape("/x/note/abc");
    assert "/x/note/abc"[1] == 'x';
  }

  /** The form a share link has is accepted, and its id is captured. */
  lemma AcceptedPath()
    ensures MatchNotePath("/note/abc123") == Some("abc123")
  {
    assert IsNoteId("abc123");
    MatchNotePathIff("/note/abc123", "abc123");
  }
}
