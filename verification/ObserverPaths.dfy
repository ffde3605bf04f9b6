/** What the observer's string tests mean for paths read component by component, and what a grant means for the
    process that gets it. */
module ObserverPaths {
  import opened Observer

  // ---------------------------------------------------------------- components

  /** No slash in it. */
  predicate Free(s: string) {
    forall i :: 0 <= i < |s| ==> s[i] != '/'
  }

  /** How far a path runs before its first slash. */
  function Run(s: string): (i: nat)
    ensures i <= |s| && (forall k :: 0 <= k < i ==> s[k] != '/') && (i < |s| ==> s[i] == '/')
  {
    if s == "" || s[0] == '/' then 0
    else
      assert forall k :: 0 < k < |s| ==> s[k] == s[1..][k - 1];
      1 + Run(s[1..])
  }

  /** The components of a path: the stretches between its slashes, so an absolute path starts with an empty one. */
  function Parts(s: string): (parts: seq<string>)
    ensures parts != []
    decreases |s|
  {
    if Run(s) == |s| then [s] else [s[..Run(s)]] + Parts(s[Run(s) + 1..])
  }

  function Joined(parts: seq<string>): string
    requires parts != []
  {
    if |parts| == 1 then parts[0] else parts[0] + "/" + Joined(parts[1..])
  }

  lemma PartsOfOne(s: string)
    requires Free(s)
    ensures Parts(s) == [s]
  {
  }

  lemma PartsOfFront(front: string, rest: string)
    requires Free(front)
    ensures Parts(front + "/" + rest) == [front] + Parts(rest)
  {
    var s := front + "/" + rest;
    assert forall k :: 0 <= k < |front| ==> s[k] == front[k];
    assert s[|front|] == '/';
    assert Run(s) == |front|;
    assert s[..|front|] == front && s[|front| + 1..] == rest;
  }

  /** A path is one component, or a component, a slash and a shorter path. */
  lemma Split(s: string) returns (front: string, rest: string)
    ensures Free(front)
    ensures front == s || (|rest| < |s| && s == front + "/" + rest)
  {
    hide Parts;
    front := s[..Run(s)];
    rest := if Run(s) < |s| then s[Run(s) + 1..] else "";
  }

  /** Splitting loses nothing. */
  lemma {:induction false} JoinedParts(s: string)
    ensures Joined(Parts(s)) == s
    decreases |s|
  {
    hide Run, Parts;
    var front, rest := Split(s);
    if front == s {
      PartsOfOne(s);
    } else {
      PartsOfFront(front, rest);
      JoinedParts(rest);
      assert Parts(s)[1..] == Parts(rest);
    }
  }

  /** A slash between two paths puts the components of one after those of the other. */
  lemma {:induction false} PartsAcrossSlash(a: string, b: string)
    ensures Parts(a + "/" + b) == Parts(a) + Parts(b)
    decreases |a|
  {
    hide Run, Parts;
    var front, rest := Split(a);
    if front == a {
      PartsOfOne(a);
      PartsOfFront(a, b);
    } else {
      PartsOfFront(front, rest);
      PartsAcrossSlash(rest, b);
      PartsOfFront(front, rest + "/" + b);
      assert a + "/" + b == front + "/" + (rest + "/" + b);
    }
  }

  lemma {:induction false} JoinedAcross(a: seq<string>, b: seq<string>)
    requires a != [] && b != []
    ensures Joined(a + b) == Joined(a) + "/" + Joined(b)
  {
    assert (a + b)[1..] == a[1..] + b;
    if |a| > 1 { JoinedAcross(a[1..], b); }
  }

  /** A root covers exactly the paths whose components begin with its own: a sibling that merely shares a prefix of the
      text is outside. */
  lemma CoversIsComponentPrefix(root: string, path: string)
    requires ValidRoot(root)
    ensures Covers(root, path) <==> Parts(root) <= Parts(path)
  {
    hide ValidRoot, Parts, Joined, Run;
    if root + "/" <= path {
      var rest := path[|root| + 1..];
      assert path == root + "/" + rest;
      PartsAcrossSlash(root, rest);
    }
    if Parts(root) <= Parts(path) {
      var more := Parts(path)[|Parts(root)|..];
      assert Parts(path) == Parts(root) + more;
      JoinedParts(root);
      JoinedParts(path);
      if more == [] {
        assert Parts(path) == Parts(root);
      } else {
        JoinedAcross(Parts(root), more);
        assert root + "/" <= path;
      }
    }
  }

  // ---------------------------------------------------------------- forbidden components

  /** Some component of `rest` other than the last is `name`. */
  ghost predicate Inside(rest: string, name: string) {
    exists k :: 0 <= k < |Parts(rest)| - 1 && Parts(rest)[k] == name
  }

  function Last(s: string): string {
    Parts(s)[|Parts(s)| - 1]
  }

  /** A bracketed name that starts at the very beginning is the first component. */
  lemma OccurrenceFirst(front: string, rest: string, name: string)
    requires Free(front) && Free(name)
    ensures PartAt("/" + front + "/" + rest, "/" + name + "/", 0) <==> front == name
  {
    var path, part := "/" + front + "/" + rest, "/" + name + "/";
    assert forall j :: 0 <= j < |front| ==> path[j + 1] == front[j];
    assert forall j :: 0 <= j < |name| ==> part[j + 1] == name[j];
    assert path[|front| + 1] == '/' && part[|name| + 1] == '/';
    if PartAt(path, part, 0) {
      assert part == path[..|part|];
      assert |name| == |front|;
      assert front == path[1..|front| + 1] && name == part[1..|name| + 1];
    }
    if front == name { assert path[0..|part|] == part; }
  }

  /** Any other starts at or after the next slash. */
  lemma OccurrenceLater(front: string, rest: string, part: string, i: nat)
    requires Free(front) && part != "" && part[0] == '/'
    ensures 1 <= i <= |front| ==> !PartAt("/" + front + "/" + rest, part, i)
    ensures PartAt("/" + rest, part, i) <==> PartAt("/" + front + "/" + rest, part, i + |front| + 1)
  {
    var path, more, k := "/" + front + "/" + rest, "/" + rest, i + |front| + 1;
    assert more == path[|front| + 1..];
    if i + |part| <= |more| { assert path[k..k + |part|] == more[i..i + |part|]; }
    if 1 <= i <= |front| && i + |part| <= |path| { assert path[i..i + |part|][0] == front[i - 1]; }
  }

  lemma ContainsAcross(front: string, rest: string, name: string)
    requires Free(front) && Free(name)
    ensures Contains("/" + front + "/" + rest, "/" + name + "/") <==> front == name || Contains("/" + rest, "/" + name + "/")
  {
    var path, part := "/" + front + "/" + rest, "/" + name + "/";
    OccurrenceFirst(front, rest, name);
    forall i: nat
      ensures 1 <= i <= |front| ==> !PartAt(path, part, i)
      ensures PartAt("/" + rest, part, i) <==> PartAt(path, part, i + |front| + 1)
    {
      OccurrenceLater(front, rest, part, i);
    }
    PartsFit(path, part);
    PartsFit("/" + rest, part);
    hide PartAt;
    if i :| 0 <= i <= |path| && PartAt(path, part, i) && i > |front| { assert PartAt("/" + rest, part, i - |front| - 1); }
    if i :| 0 <= i <= |"/" + rest| && PartAt("/" + rest, part, i) { assert PartAt(path, part, i + |front| + 1); }
  }

  lemma PartsFit(s: string, part: string)
    ensures forall i: nat :: PartAt(s, part, i) ==> i <= |s|
  {
  }

  lemma NoBracketsInOne(rest: string, name: string)
    requires Free(rest)
    ensures !Contains("/" + rest, "/" + name + "/")
  {
    var path, part := "/" + rest, "/" + name + "/";
    assert part[|part| - 1] == '/';
    forall i: nat ensures !PartAt(path, part, i) {
      if i + |part| <= |path| { assert path[i..i + |part|][|part| - 1] == rest[i + |part| - 2]; }
    }
  }

  /** Looking for a name between two slashes is looking for a component that is not the last. */
  lemma {:induction false} ContainsIsInside(rest: string, name: string)
    requires Free(name)
    ensures Contains("/" + rest, "/" + name + "/") <==> Inside(rest, name)
    decreases |rest|
  {
    hide Contains, Parts, Run, Inside;
    var front, more := Split(rest);
    if front == rest {
      PartsOfOne(rest);
      NotInside(rest, name);
      NoBracketsInOne(rest, name);
    } else {
      assert "/" + rest == "/" + front + "/" + more;
      ContainsAcross(front, more, name);
      ContainsIsInside(more, name);
      InsideAcross(front, more, name);
    }
  }

  lemma NotInside(rest: string, name: string)
    requires |Parts(rest)| == 1
    ensures !Inside(rest, name)
  {
  }

  lemma InsideAcross(front: string, rest: string, name: string)
    requires Free(front)
    ensures Inside(front + "/" + rest, name) <==> front == name || Inside(rest, name)
  {
    hide Parts, Run;
    PartsOfFront(front, rest);
    var all, more := Parts(front + "/" + rest), Parts(rest);
    assert all[0] == front;
    assert forall k :: 0 <= k < |more| ==> all[k + 1] == more[k];
    assert forall k :: 1 <= k < |all| ==> all[k] == more[k - 1];
  }

  /** Looking for a name after a slash at the end is looking at the last component. */
  lemma {:induction false} EndsIsLast(rest: string, name: string)
    requires Free(name)
    ensures EndsWith("/" + rest, "/" + name) <==> Last(rest) == name
    decreases |rest|
  {
    hide EndsWith, Parts, Run;
    var front, more := Split(rest);
    if front == rest {
      PartsOfOne(rest);
      EndOfOne(rest, name);
    } else {
      assert "/" + rest == "/" + front + "/" + more;
      PartsOfFront(front, more);
      EndsAcross(front, more, name);
      EndsIsLast(more, name);
    }
  }

  lemma EndOfOne(rest: string, name: string)
    requires Free(rest) && Free(name)
    ensures EndsWith("/" + rest, "/" + name) <==> rest == name
  {
    var path, part := "/" + rest, "/" + name;
    if |name| < |rest| {
      assert path[|path| - |part|..][0] == rest[|rest| - |name| - 1];
    } else if |name| == |rest| {
      assert path[|path| - |part|..] == path;
      assert rest == path[1..] && name == part[1..];
    }
  }

  lemma EndsAcross(front: string, rest: string, name: string)
    requires Free(name)
    ensures EndsWith("/" + front + "/" + rest, "/" + name) <==> EndsWith("/" + rest, "/" + name)
  {
    var path, part := "/" + front + "/" + rest, "/" + name;
    assert "/" + rest == path[|front| + 1..];
    if |name| <= |rest| {
      assert path[|path| - |part|..] == ("/" + rest)[|rest| - |name|..];
    } else if |part| <= |path| {
      assert path[|path| - |part|..][|name| - |rest|] == path[|front| + 1] == '/';
      assert part[|name| - |rest|] == name[|name| - |rest| - 1];
    }
  }

  // ---------------------------------------------------------------- the path tests

  predicate Plain(part: string) {
    part != "" && part != "." && part != ".."
  }

  /** Below the root there is at least one component, and each is a proper name. */
  ghost predicate Named(path: string) {
    && |Parts(path)| >= 2 && Parts(path)[0] == ""
    && forall k :: 1 <= k < |Parts(path)| ==> Plain(Parts(path)[k])
  }

  lemma AbsoluteParts(path: string)
    ensures (path != "" && path[0] == '/') <==> (|Parts(path)| >= 2 && Parts(path)[0] == "")
    ensures path != "" && path[0] == '/' ==> Parts(path)[1..] == Parts(path[1..]) && path == "/" + path[1..]
  {
    if path != "" && path[0] == '/' {
      assert path == "" + "/" + path[1..];
      PartsOfFront("", path[1..]);
    }
  }

  lemma TrailingSlash(rest: string)
    ensures rest != "" && rest[|rest| - 1] != '/' <==> Last(rest) != ""
  {
    EndsIsLast(rest, "");
    assert ("/" + rest)[|"/" + rest| - 1..] == [("/" + rest)[|rest|]];
    assert rest != "" ==> ("/" + rest)[|rest|] == rest[|rest| - 1];
  }

  /** Path cleaning leaves an absolute path alone exactly when it is the root or each of its components is a proper
      name: not empty, not `.` and not `..`. */
  lemma CanonicalIsNamed(path: string)
    ensures Canonical(path) <==> path == "/" || Named(path)
  {
    hide Contains, EndsWith, Parts, Inside;
    AbsoluteParts(path);
    if path != "" && path[0] == '/' {
      var rest := path[1..];
      TestsApart(rest);
      if path == "/" {
        PartsOfOne("");
        NotInside("", "");
        NotInside("", ".");
        NotInside("", "..");
      } else {
        TrailingSlash(rest);
        assert path[|path| - 1] == rest[|rest| - 1];
        PlainThroughout(rest);
        assert forall k :: 0 <= k < |Parts(rest)| ==> Parts(path)[k + 1] == Parts(rest)[k];
        assert forall k :: 1 <= k < |Parts(path)| ==> Parts(path)[k] == Parts(rest)[k - 1];
      }
    }
  }

  lemma TestsApart(rest: string)
    ensures Contains("/" + rest, "//") <==> Inside(rest, "")
    ensures Contains("/" + rest, "/./") <==> Inside(rest, ".")
    ensures Contains("/" + rest, "/../") <==> Inside(rest, "..")
    ensures EndsWith("/" + rest, "/.") <==> Last(rest) == "."
    ensures EndsWith("/" + rest, "/..") <==> Last(rest) == ".."
  {
    hide Contains, EndsWith, Parts, Inside, Last;
    assert "/" + "" + "/" == "//" && "/" + "." + "/" == "/./" && "/" + ".." + "/" == "/../";
    assert "/" + "." == "/." && "/" + ".." == "/..";
    ContainsIsInside(rest, "");
    ContainsIsInside(rest, ".");
    ContainsIsInside(rest, "..");
    EndsIsLast(rest, ".");
    EndsIsLast(rest, "..");
  }

  lemma PlainThroughout(rest: string)
    ensures (forall k :: 0 <= k < |Parts(rest)| ==> Plain(Parts(rest)[k]))
       <==> Plain(Last(rest)) && !Inside(rest, "") && !Inside(rest, ".") && !Inside(rest, "..")
  {
    hide Parts;
    assert Parts(rest)[|Parts(rest)| - 1] == Last(rest);
    if Plain(Last(rest)) && !Inside(rest, "") && !Inside(rest, ".") && !Inside(rest, "..") {
      forall k | 0 <= k < |Parts(rest)| ensures Plain(Parts(rest)[k]) {
        assert k == |Parts(rest)| - 1 || k < |Parts(rest)| - 1;
      }
    }
  }

  /** A policy's executable path is absolute, has no parent component, and an empty component only at its end. */
  lemma ExecutableIsNamed(path: string)
    ensures ExecutablePath(path) <==>
      && '\\' !in path && '\0' !in path && |Parts(path)| >= 2 && Parts(path)[0] == ""
      && forall k :: 1 <= k < |Parts(path)| ==> Parts(path)[k] != ".." && (k < |Parts(path)| - 1 ==> Parts(path)[k] != "")
  {
    hide Contains, EndsWith, Parts;
    AbsoluteParts(path);
    if path != "" && path[0] == '/' {
      var rest := path[1..];
      TestsApart(rest);
      assert forall k :: 0 <= k < |Parts(rest)| ==> Parts(path)[k + 1] == Parts(rest)[k];
      assert forall k :: 1 <= k < |Parts(path)| ==> Parts(path)[k] == Parts(rest)[k - 1];
    }
  }

  /** The test for executable paths is meant for canonical ones but lets others through: those it accepts are canonical
      exactly when they have no `.` component and do not end in a slash. */
  lemma ExecutableCanonicalIff(path: string)
    requires ExecutablePath(path)
    ensures Canonical(path) <==> path == "/" || (Last(path) != "" && forall k :: 1 <= k < |Parts(path)| ==> Parts(path)[k] != ".")
  {
    hide ExecutablePath, Canonical, Parts;
    ExecutableIsNamed(path);
    CanonicalIsNamed(path);
  }

  lemma DotIsExecutable()
    ensures ExecutablePath("/.") && !Canonical("/.")
  {
    assert EndsWith("/.", "/.");
    forall i: nat ensures !PartAt("/.", "//", i) { if i + 2 <= 2 { assert "/."[i..i + 2][1] == '.'; } }
  }

  /** Two dots in a row. */
  predicate Doubled(s: string) {
    exists i :: 0 <= i < |s| - 1 && s[i] == '.' && s[i + 1] == '.'
  }

  /** A control-group root is an absolute path of proper names below the root, of bounded length, with no two dots in a
      row and no NUL anywhere. */
  lemma RootIsNamed(path: string)
    ensures ValidRoot(path) <==> Named(path) && |path| <= 4096 && !Doubled(path) && '\0' !in path
  {
    hide Canonical, Parts;
    CanonicalIsNamed(path);
    DotsTogether(path);
    PartsOfOne("");
    PartsOfFront("", "");
    assert "" + "/" + "" == "/";
    assert Parts("/")[1] == "";
  }

  lemma DotsTogether(s: string)
    ensures Contains(s, "..") <==> Doubled(s)
  {
    if Contains(s, "..") {
      var i :| 0 <= i <= |s| && PartAt(s, "..", i);
      assert s[i] == s[i..i + 2][0] == '.' && s[i + 1] == s[i..i + 2][1] == '.';
    }
    if i :| 0 <= i < |s| - 1 && s[i] == '.' && s[i + 1] == '.' {
      assert s[i..i + 2] == "..";
      assert PartAt(s, "..", i);
    }
  }

  // ---------------------------------------------------------------- grants

  /** The process runs at or below the root. */
  ghost predicate Runs(p: Peer, root: string) {
    Parts(root) <= Parts(p.cgroup)
  }

  /** The authority may act for the container: any container for the roles of the host, for the node agent one that
      names it. */
  predicate ActsFor(fold: char -> char, a: Authority, c: Container) {
    a.role == "node-agent" ==> c.uid == a.uid && c.exe == a.exe && SameFold(fold, c.sha, a.sha)
  }

  /** What authority `i` acting for container `k` demands of a process. */
  ghost predicate Entitled(fold: char -> char, p: Peer, uid: nat, c: Config, i: int, k: int) {
    && 0 <= i < |c.peers| && 0 <= k < |c.containers|
    && p.pid >= 2 && p.uid == uid == c.peers[i].uid && p.exe == c.peers[i].exe && SameFold(fold, p.sha, c.peers[i].sha)
    && (exists r :: 0 <= r < |c.peers[i].roots| && Runs(p, c.peers[i].roots[r]))
    && Runs(p, c.containers[k].root) && ActsFor(fold, c.peers[i], c.containers[k])
    && forall n :: 0 <= n < |c.containers| && n != k ==> !(Runs(p, c.containers[n].root) && ActsFor(fold, c.peers[i], c.containers[n]))
  }

  /** Under a valid policy a role admits a process exactly when the process is entitled to it. */
  lemma AdmissionMeans(fold: char -> char, p: Peer, uid: nat, c: Config, i: int, k: int)
    requires ValidConfig(fold, c)
    ensures Admits(fold, p, uid, c, i, k) <==> Entitled(fold, p, uid, c, i, k)
  {
    if 0 <= i < |c.peers| {
      assert AuthorityOk(c.peers[i]);
      MatchMeans(fold, p, uid, c.peers[i]);
      forall n | 0 <= n < |c.containers|
        ensures Eligible(fold, p, c.peers[i], c.containers[n]) <==> Runs(p, c.containers[n].root) && ActsFor(fold, c.peers[i], c.containers[n])
      {
        assert ContainerOk(c.containers[n]);
        EligibleMeans(fold, p, c.peers[i], c.containers[n]);
      }
      hide ValidConfig, AuthorityOk, ContainerOk, Eligible, Runs, ActsFor, PeerMatches, SameFold;
    }
  }

  lemma MatchMeans(fold: char -> char, p: Peer, uid: nat, a: Authority)
    requires AuthorityOk(a)
    ensures PeerMatches(fold, p, uid, a) <==>
      && p.pid >= 2 && uid == a.uid && p.exe == a.exe && SameFold(fold, p.sha, a.sha)
      && exists r :: 0 <= r < |a.roots| && Runs(p, a.roots[r])
  {
    hide ValidRoot, Covers, ExecutablePath, LowerHex, SameFold;
    forall r | 0 <= r < |a.roots| ensures Covers(a.roots[r], p.cgroup) <==> Runs(p, a.roots[r]) {
      CoversIsComponentPrefix(a.roots[r], p.cgroup);
    }
    hide Runs;
  }

  lemma EligibleMeans(fold: char -> char, p: Peer, a: Authority, c: Container)
    requires AuthorityOk(a) && ContainerOk(c)
    ensures Eligible(fold, p, a, c) <==> Runs(p, c.root) && ActsFor(fold, a, c)
  {
    hide ValidRoot, Covers, ExecutablePath, LowerHex, SameFold;
    RolesDiffer();
    CoversIsComponentPrefix(c.root, p.cgroup);
  }

  /** What a valid policy says: one node agent that is not root, one supervisor that is, at most one local observer that
      is and that shares no process with the supervisor, and 64-digit digests in lower case throughout. */
  lemma PolicyMeans(fold: char -> char, c: Config)
    requires ValidConfig(fold, c)
    ensures exists i :: 0 <= i < |c.peers| && c.peers[i].role == "node-agent"
    ensures exists i :: 0 <= i < |c.peers| && c.peers[i].role == "fixed-supervisor"
    ensures forall i :: 0 <= i < |c.peers| ==> PeerFacts(c.peers[i])
    ensures forall i, j :: 0 <= i < j < |c.peers| ==> c.peers[i].role != c.peers[j].role
    ensures forall k :: 0 <= k < |c.containers| ==> Named(c.containers[k].root) && c.containers[k].uid != 0 && Digest(c.containers[k].sha)
    ensures forall p: Peer, uid: nat, i, j :: 0 <= i < |c.peers| && 0 <= j < |c.peers| && PeerMatches(fold, p, uid, c.peers[i]) && PeerMatches(fold, p, uid, c.peers[j]) ==> i == j
    ensures 2 <= |c.peers| <= 3 && 1 <= |c.containers| <= 64
  {
    forall i | 0 <= i < |c.peers| ensures PeerFacts(c.peers[i]) {
      assert AuthorityOk(c.peers[i]);
      AuthorityMeans(c.peers[i]);
    }
    forall k | 0 <= k < |c.containers| ensures Named(c.containers[k].root) && c.containers[k].uid != 0 && Digest(c.containers[k].sha) {
      assert ContainerOk(c.containers[k]);
      DigestIsHex(c.containers[k].sha);
      RootIsNamed(c.containers[k].root);
    }
    forall p: Peer, uid: nat, i, j | 0 <= i < |c.peers| && 0 <= j < |c.peers| && PeerMatches(fold, p, uid, c.peers[i]) && PeerMatches(fold, p, uid, c.peers[j])
      ensures i == j
    {
      AtMostOneRole(fold, c, p, uid, i, j);
    }
    RolesFew(c.peers);
  }

  predicate Digest(s: string) {
    |s| == 64 && forall i :: 0 <= i < |s| ==> s[i] in "0123456789abcdef"
  }

  ghost predicate PeerFacts(a: Authority) {
    && a.role in {"node-agent", "fixed-supervisor", "local-observer"} && (a.role == "node-agent" <==> a.uid != 0)
    && Digest(a.sha) && 1 <= |a.roots| <= 16 && forall r :: 0 <= r < |a.roots| ==> Named(a.roots[r])
  }

  lemma HexDigit(c: char)
    ensures ('0' <= c <= '9' || 'a' <= c <= 'f') <==> c in "0123456789abcdef"
  {
    if '0' <= c <= '9' { assert c == "0123456789abcdef"[c as int - '0' as int]; }
    if 'a' <= c <= 'f' { assert c == "0123456789abcdef"[c as int - 'a' as int + 10]; }
  }

  lemma DigestIsHex(s: string)
    ensures LowerHex(s, 64) <==> Digest(s)
  {
    forall i | 0 <= i < |s| ensures ('0' <= s[i] <= '9' || 'a' <= s[i] <= 'f') <==> s[i] in "0123456789abcdef" { HexDigit(s[i]); }
  }

  lemma AuthorityMeans(a: Authority)
    requires AuthorityOk(a)
    ensures PeerFacts(a)
  {
    hide LowerHex, Digest, ExecutablePath, ValidRoot;
    DigestIsHex(a.sha);
    forall r | 0 <= r < |a.roots| ensures Named(a.roots[r]) { RootIsNamed(a.roots[r]); }
  }

  lemma RolesFew(peers: seq<Authority>)
    requires forall i :: 0 <= i < |peers| ==> AuthorityOk(peers[i])
    requires forall i, j :: 0 <= i < j < |peers| ==> peers[i].role != peers[j].role
    requires HasRole(peers, AGENT) && HasRole(peers, SUPERVISOR)
    ensures 2 <= |peers| <= 3
  {
    RolesDiffer();
    if |peers| > 3 { ThreeRoles(peers[0], peers[1], peers[2], peers[3]); }
  }

  lemma ThreeRoles(a: Authority, b: Authority, c: Authority, d: Authority)
    requires AuthorityOk(a) && AuthorityOk(b) && AuthorityOk(c) && AuthorityOk(d)
    ensures a.role == b.role || a.role == c.role || a.role == d.role || b.role == c.role || b.role == d.role || c.role == d.role
  {
    hide LowerHex, ExecutablePath, ValidRoot;
  }
}
