/** chatblade/session.py: listing, renaming and deleting named sessions. The cache
    directory is a map from file name to file contents; a session `n` is the file
    `n + ".yaml"` in it. */
module Session {
  import opened Wrappers
  import opened Strings

  type Directory = map<string, string>

  const Suffix := ".yaml"

  /** The file of session `name` (`get_session_path(name)`). */
  function SessionFile(name: string): (f: string)
    ensures |f| == |name| + |Suffix|
  {
    name + Suffix
  }

  /** Distinct sessions live in distinct files. */
  lemma SessionFileInjective(a: string, b: string)
    ensures SessionFile(a) == SessionFile(b) ==> a == b
  {
    if SessionFile(a) == SessionFile(b) {
      assert a == SessionFile(a)[..|a|];
      assert b == SessionFile(b)[..|b|];
    }
  }

  /** A file the glob `*.yaml` matches: it ends in `.yaml` and is not hidden. */
  predicate IsSessionFile(f: string)
    ensures IsSessionFile(f) ==> (
      && |f| >= |Suffix|
      && var name := f[..|f| - |Suffix|];
         SessionFile(name) == f && Listable(name))
  {
    |f| >= |Suffix| && f[|f| - |Suffix|..] == Suffix && f[0] != '.'
  }

  /** The file name with its trailing `.yaml` removed. */
  function SessionName(f: string): (n: string)
    requires IsSessionFile(f)
    ensures SessionFile(n) == f
  {
    f[..|f| - |Suffix|]
  }

  /** A session name whose file the glob can see. */
  predicate Listable(name: string) {
    name != "" && name[0] != '.'
  }

  lemma SessionFileMatches(name: string)
    ensures IsSessionFile(SessionFile(name)) <==> Listable(name)
    ensures IsSessionFile(SessionFile(name)) ==> SessionName(SessionFile(name)) == name
  {
    var f := SessionFile(name);
    assert f[|f| - |Suffix|..] == Suffix;
    if name != "" {
      assert f[0] == name[0];
    }
  }

  /** `list_sessions()`: the names of the visible `*.yaml` files, sorted. */
  ghost function ListSessions(dir: Directory): (r: seq<string>)
    ensures StrictlySorted(r)
    ensures forall n :: n in r <==> Listable(n) && SessionFile(n) in dir
  {
    var names := set f | f in dir && IsSessionFile(f) :: SessionName(f);
    forall n
      ensures n in names <==> Listable(n) && SessionFile(n) in dir
    {
      SessionFileMatches(n);
      if n in names {
        var f :| f in dir && IsSessionFile(f) && SessionName(f) == n;
      }
    }
    SortedSeq(names)
  }

  /** The answer of a session operation: the directory afterwards and the error string
      (None on success). */
  datatype Outcome = Outcome(dir: Directory, err: Option<string>)

  /** `rename_session`: refuse a missing source or an existing target, else move the file. */
  function Rename(dir: Directory, session: string, newname: string): (o: Outcome)
    ensures o.err == None <==> SessionFile(session) in dir && SessionFile(newname) !in dir
    ensures o.err != None ==> o.dir == dir
    ensures o.err == None ==>
      o.dir.Keys == dir.Keys - {SessionFile(session)} + {SessionFile(newname)}
      && o.dir[SessionFile(newname)] == dir[SessionFile(session)]
  {
    var src := SessionFile(session);
    var dst := SessionFile(newname);
    if src !in dir then Outcome(dir, Some("session " + session + " does not exist"))
    else if dst in dir then Outcome(dir, Some("session " + newname + " already exists"))
    else Outcome((dir - {src})[dst := dir[src]], None)
  }

  /** `delete_session`: refuse a missing session, else remove its file. */
  function Delete(dir: Directory, session: string): (o: Outcome)
    ensures o.err == None <==> SessionFile(session) in dir
    ensures o.dir == dir - {SessionFile(session)}
  {
    var f := SessionFile(session);
    if f !in dir then Outcome(dir, Some("session " + session + " does not exist"))
    else Outcome(dir - {f}, None)
  }

  /** A failed rename reports why and touches nothing; in particular an existing target
      is never overwritten. */
  lemma RenameFailure(dir: Directory, session: string, newname: string)
    ensures SessionFile(session) !in dir ==>
      Rename(dir, session, newname) == Outcome(dir, Some("session " + session + " does not exist"))
    ensures SessionFile(session) in dir && SessionFile(newname) in dir ==>
      Rename(dir, session, newname) == Outcome(dir, Some("session " + newname + " already exists"))
  {
  }

  /** A successful rename moves the old contents to the new file and changes nothing else. */
  lemma RenameSuccess(dir: Directory, session: string, newname: string)
    requires SessionFile(session) in dir && SessionFile(newname) !in dir
    ensures var o := Rename(dir, session, newname);
      && o.err == None
      && SessionFile(session) !in o.dir
      && SessionFile(newname) in o.dir && o.dir[SessionFile(newname)] == dir[SessionFile(session)]
      && |o.dir| == |dir|
      && forall f :: f != SessionFile(session) && f != SessionFile(newname) ==>
           (f in o.dir <==> f in dir) && (f in dir ==> o.dir[f] == dir[f])
  {
    var o := Rename(dir, session, newname);
    assert session != newname;
    assert |dir - {SessionFile(session)}| == |dir| - 1;
  }

  /** Renaming back undoes a successful rename. */
  lemma RenameRoundTrip(dir: Directory, session: string, newname: string)
    requires Rename(dir, session, newname).err == None
    ensures Rename(Rename(dir, session, newname).dir, newname, session) == Outcome(dir, None)
  {
    var src, dst := SessionFile(session), SessionFile(newname);
    var o := Rename(dir, session, newname);
    assert src != dst;
    var back := Rename(o.dir, newname, session);
    assert back.dir.Keys == dir.Keys;
  }

  /** After a successful rename a name's file exists iff it existed before under another
      name than the old one, or it is the new name. */
  lemma RenamedFile(dir: Directory, session: string, newname: string, n: string)
    requires Rename(dir, session, newname).err == None
    ensures SessionFile(n) in Rename(dir, session, newname).dir <==>
      (SessionFile(n) in dir && n != session) || n == newname
  {
    SessionFileInjective(n, session);
    SessionFileInjective(n, newname);
  }

  /** After a successful rename between visible names the listing has the new name in
      place of the old one. */
  lemma ListAfterRename(dir: Directory, session: string, newname: string)
    requires Listable(session) && Listable(newname)
    requires Rename(dir, session, newname).err == None
    ensures forall n :: n in ListSessions(Rename(dir, session, newname).dir) <==>
      (n in ListSessions(dir) && n != session) || n == newname
  {
    var before, after := ListSessions(dir), ListSessions(Rename(dir, session, newname).dir);
    forall n
      ensures n in after <==> (n in before && n != session) || n == newname
    {
      RenamedFile(dir, session, newname, n);
    }
  }

  /** Deleting an absent session reports it and changes nothing; otherwise exactly that
      file is removed. */
  lemma DeleteSpec(dir: Directory, session: string)
    ensures SessionFile(session) !in dir ==>
      Delete(dir, session) == Outcome(dir, Some("session " + session + " does not exist"))
    ensures SessionFile(session) in dir ==>
      var o := Delete(dir, session);
      o.err == None && o.dir.Keys == dir.Keys - {SessionFile(session)}
      && forall f :: f in o.dir ==> o.dir[f] == dir[f]
  {
  }

  /** After a successful delete the name is no longer listed, and nothing else changes. */
  lemma ListAfterDelete(dir: Directory, session: string)
    requires Delete(dir, session).err == None
    ensures forall n :: n in ListSessions(Delete(dir, session).dir) <==>
      n in ListSessions(dir) && n != session
  {
    forall n
      ensures SessionFile(n) in Delete(dir, session).dir <==> SessionFile(n) in dir && n != session
    {
      if n != session {
        SessionFileInjective(n, session);
      }
    }
  }

  /** The cache directory, which `rename_session` and `delete_session` change in place. */
  class SessionStore {
    var files: Directory

    constructor (files: Directory)
      ensures this.files == files
    {
      this.files := files;
    }

    /** `rename_session(session, newname)`: check-then-act, returning None on success or
      the error string. */
    method RenameSession(session: string, newname: string) returns (err: Option<string>)
      modifies this
      ensures Outcome(files, err) == Rename(old(files), session, newname)
    {
      var sessionPath := SessionFile(session);
      if sessionPath !in files {
        return Some("session " + session + " does not exist");
      }
      var newSessionPath := SessionFile(newname);
      if newSessionPath in files {
        return Some("session " + newname + " already exists");
      }
      var contents := files[sessionPath];
      files := (files - {sessionPath})[newSessionPath := contents];
      err := None;
    }

    /** `delete_session(session)`. */
    method DeleteSession(session: string) returns (err: Option<string>)
      modifies this
      ensures Outcome(files, err) == Delete(old(files), session)
    {
      var sessionPath := SessionFile(session);
      if sessionPath !in files {
        return Some("session " + session + " does not exist");
      }
      files := files - {sessionPath};
      err := None;
    }
  }
}
