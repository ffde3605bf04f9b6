/** The GPU observer's policy: fixed caller roles bound to a user, an executable and control-group roots, and the
    proof that no process can pass for two of them. */
module Observer {

  datatype Option<+T> = None | Some(value: T)

  const PROTOCOL_VERSION := 1
  const MAX_CGROUP_BYTES := 4096
  const MAX_ROLES := 8
  const MAX_CONTAINERS := 64
  const MAX_ROOTS := 16

  const AGENT := "node-agent"
  const SUPERVISOR := "fixed-supervisor"
  const LOCAL := "local-observer"

  datatype Authority = Authority(role: string, uid: nat, exe: string, sha: string, roots: seq<string>)

  datatype Container = Container(root: string, uid: nat, exe: string, sha: string)

  datatype Config = Config(version: int, gid: nat, peers: seq<Authority>, containers: seq<Container>)

  /** A process held open by the observer. */
  datatype Peer = Peer(pid: int, uid: nat, exe: string, sha: string, cgroup: string)

  // ---------------------------------------------------------------- paths

  predicate PartAt(s: string, part: string, i: nat) {
    i + |part| <= |s| && s[i..i + |part|] == part
  }

  predicate Contains(s: string, part: string) {
    exists i :: 0 <= i <= |s| && PartAt(s, part, i)
  }

  predicate EndsWith(s: string, part: string) {
    |part| <= |s| && s[|s| - |part|..] == part
  }

  /** An absolute path that path cleaning leaves as it is. */
  predicate Canonical(path: string) {
    && path != "" && path[0] == '/'
    && (path == "/" || path[|path| - 1] != '/')
    && !Contains(path, "//") && !Contains(path, "/./") && !Contains(path, "/../")
    && !EndsWith(path, "/.") && !EndsWith(path, "/..")
  }

  predicate ExecutablePath(path: string) {
    && path != "" && path[0] == '/' && '\\' !in path && '\0' !in path
    && !Contains(path, "//") && !Contains(path, "/../") && !EndsWith(path, "/..")
  }

  predicate ValidRoot(path: string) {
    path != "" && |path| <= MAX_CGROUP_BYTES && Canonical(path) && path != "/" && !Contains(path, "..") && '\0' !in path
  }

  /** `path` is the root itself or lies below it. */
  predicate Covers(root: string, path: string) {
    ValidRoot(root) && (path == root || root + "/" <= path)
  }

  predicate CoversAny(roots: seq<string>, path: string) {
    exists i :: 0 <= i < |roots| && Covers(roots[i], path)
  }

  lemma PrefixesCompare(a: string, b: string, path: string)
    requires a <= path && b <= path && |a| <= |b|
    ensures a <= b
  {
    assert a == path[..|a|] && b == path[..|b|];
  }

  /** Two roots that cover one path cover one another, one way or the other. */
  lemma RootsOfOnePath(a: string, b: string, path: string)
    requires Covers(a, path) && Covers(b, path)
    ensures Covers(a, b) || Covers(b, a)
  {
    hide ValidRoot;
    if path != a && path != b && a != b {
      if |a| <= |b| {
        NestedRoots(a, b, path);
      } else {
        NestedRoots(b, a, path);
      }
    }
  }

  lemma NestedRoots(a: string, b: string, path: string)
    requires a + "/" <= path && b + "/" <= path && |a| <= |b| && a != b
    ensures a + "/" <= b
  {
    PrefixesCompare(a, b, path);
    assert |a| < |b|;
    assert a + "/" == path[..|a| + 1] && b == path[..|b|];
  }

  // ---------------------------------------------------------------- policy

  predicate LowerHex(s: string, length: nat) {
    |s| == length && forall i :: 0 <= i < |s| ==> '0' <= s[i] <= '9' || 'a' <= s[i] <= 'f'
  }

  function Folded(fold: char -> char, s: string): string {
    seq(|s|, i requires 0 <= i < |s| => fold(s[i]))
  }

  /** Equality up to case, for an arbitrary case folding. */
  predicate SameFold(fold: char -> char, a: string, b: string) {
    Folded(fold, a) == Folded(fold, b)
  }

  predicate Overlap(fold: char -> char, a: Authority, b: Authority) {
    && a.uid == b.uid && a.exe == b.exe && SameFold(fold, a.sha, b.sha)
    && exists i, j :: 0 <= i < |a.roots| && 0 <= j < |b.roots| && (Covers(b.roots[j], a.roots[i]) || Covers(a.roots[i], b.roots[j]))
  }

  predicate AuthorityOk(a: Authority) {
    && a.role in {AGENT, SUPERVISOR, LOCAL}
    && (a.role == AGENT ==> a.uid != 0) && (a.role == SUPERVISOR || a.role == LOCAL ==> a.uid == 0)
    && ExecutablePath(a.exe) && LowerHex(a.sha, 64) && 1 <= |a.roots| <= MAX_ROOTS
    && forall i :: 0 <= i < |a.roots| ==> ValidRoot(a.roots[i])
  }

  predicate ContainerOk(c: Container) {
    ValidRoot(c.root) && c.uid != 0 && ExecutablePath(c.exe) && LowerHex(c.sha, 64)
  }

  predicate HasRole(peers: seq<Authority>, role: string) {
    exists i :: 0 <= i < |peers| && peers[i].role == role
  }

  ghost predicate ValidConfig(fold: char -> char, c: Config) {
    && c.version == PROTOCOL_VERSION && c.gid != 0 && 1 <= |c.peers| <= MAX_ROLES && 1 <= |c.containers| <= MAX_CONTAINERS
    && (forall i :: 0 <= i < |c.peers| ==> AuthorityOk(c.peers[i]))
    && (forall i, j :: 0 <= i < j < |c.peers| ==> c.peers[i].role != c.peers[j].role)
    && HasRole(c.peers, AGENT) && HasRole(c.peers, SUPERVISOR)
    && (forall i, j :: 0 <= i < |c.peers| && 0 <= j < |c.peers| && c.peers[i].role == LOCAL && c.peers[j].role == SUPERVISOR ==> !Overlap(fold, c.peers[i], c.peers[j]))
    && (forall i :: 0 <= i < |c.containers| ==> ContainerOk(c.containers[i]))
    && (forall i, j :: 0 <= i < j < |c.containers| ==> c.containers[i].root != c.containers[j].root)
  }

  // ---------------------------------------------------------------- peers

  predicate PeerMatches(fold: char -> char, p: Peer, uid: nat, a: Authority) {
    p.pid > 1 && uid == a.uid && p.exe == a.exe && SameFold(fold, p.sha, a.sha) && CoversAny(a.roots, p.cgroup)
  }

  /** A process that passes for two authorities makes them overlap. */
  lemma DoubleMatchOverlaps(fold: char -> char, p: Peer, uid: nat, a: Authority, b: Authority)
    requires PeerMatches(fold, p, uid, a) && PeerMatches(fold, p, uid, b)
    ensures Overlap(fold, a, b)
  {
    hide Covers, Folded;
    var i :| 0 <= i < |a.roots| && Covers(a.roots[i], p.cgroup);
    var j :| 0 <= j < |b.roots| && Covers(b.roots[j], p.cgroup);
    RootsOfOnePath(a.roots[i], b.roots[j], p.cgroup);
  }

  /** The overlap test is exact: two authorities overlap if and only if some process passes for both. */
  lemma OverlapIsDoubleMatch(fold: char -> char, a: Authority, b: Authority)
    requires AuthorityOk(a) && AuthorityOk(b)
    ensures Overlap(fold, a, b) <==> exists p: Peer :: PeerMatches(fold, p, a.uid, a) && PeerMatches(fold, p, a.uid, b)
  {
    hide ValidRoot, ExecutablePath, LowerHex, Folded;
    if Overlap(fold, a, b) {
      var i, j :| 0 <= i < |a.roots| && 0 <= j < |b.roots| && (Covers(b.roots[j], a.roots[i]) || Covers(a.roots[i], b.roots[j]));
      var p := Peer(2, a.uid, a.exe, a.sha, if Covers(b.roots[j], a.roots[i]) then a.roots[i] else b.roots[j]);
      assert Covers(a.roots[i], p.cgroup) && Covers(b.roots[j], p.cgroup);
      assert PeerMatches(fold, p, a.uid, a) && PeerMatches(fold, p, a.uid, b);
    }
    if p: Peer :| PeerMatches(fold, p, a.uid, a) && PeerMatches(fold, p, a.uid, b) { DoubleMatchOverlaps(fold, p, a.uid, a, b); }
  }

  lemma RolesDiffer()
    ensures AGENT != SUPERVISOR && AGENT != LOCAL && SUPERVISOR != LOCAL
  {
    assert AGENT[0] == 'n' && SUPERVISOR[0] == 'f' && LOCAL[0] == 'l';
  }

  /** Under a valid policy every process matches at most one fixed role. */
  lemma AtMostOneRole(fold: char -> char, c: Config, p: Peer, uid: nat, i: nat, j: nat)
    requires ValidConfig(fold, c) && i < |c.peers| && j < |c.peers|
    requires PeerMatches(fold, p, uid, c.peers[i]) && PeerMatches(fold, p, uid, c.peers[j])
    ensures i == j
  {
    RolesDiffer();
    DoubleMatchOverlaps(fold, p, uid, c.peers[i], c.peers[j]);
    DoubleMatchOverlaps(fold, p, uid, c.peers[j], c.peers[i]);
    hide Overlap, PeerMatches, LowerHex, ExecutablePath, ValidRoot, ContainerOk, HasRole;
    assert AuthorityOk(c.peers[i]) && AuthorityOk(c.peers[j]);
  }

  // ---------------------------------------------------------------- the program's loops

  method UnderAny(path: string, roots: seq<string>) returns (r: bool)
    ensures r <==> CoversAny(roots, path)
  {
    hide Covers;
    var i := 0;
    while i < |roots|
      invariant 0 <= i <= |roots| && forall k :: 0 <= k < i ==> !Covers(roots[k], path)
    {
      if Covers(roots[i], path) { return true; }
      i := i + 1;
    }
    return false;
  }

  method AuthoritiesOverlap(fold: char -> char, a: Authority, b: Authority) returns (r: bool)
    ensures r <==> Overlap(fold, a, b)
  {
    hide Covers;
    if a.uid != b.uid || a.exe != b.exe || !SameFold(fold, a.sha, b.sha) { return false; }
    var i := 0;
    while i < |a.roots|
      invariant 0 <= i <= |a.roots|
      invariant forall k, j :: 0 <= k < i && 0 <= j < |b.roots| ==> !Covers(b.roots[j], a.roots[k]) && !Covers(a.roots[k], b.roots[j])
    {
      var j := 0;
      while j < |b.roots|
        invariant 0 <= j <= |b.roots| && forall k :: 0 <= k < j ==> !Covers(b.roots[k], a.roots[i]) && !Covers(a.roots[i], b.roots[k])
      {
        if Covers(b.roots[j], a.roots[i]) || Covers(a.roots[i], b.roots[j]) { return true; }
        j := j + 1;
      }
      i := i + 1;
    }
    return false;
  }

  /** The first authority with a role. */
  method AuthorityByRole(peers: seq<Authority>, role: string) returns (r: Option<Authority>)
    ensures r.Some? <==> HasRole(peers, role)
    ensures r.Some? ==> exists i :: 0 <= i < |peers| && peers[i] == r.value && peers[i].role == role && forall k :: 0 <= k < i ==> peers[k].role != role
  {
    var i := 0;
    while i < |peers|
      invariant 0 <= i <= |peers| && forall k :: 0 <= k < i ==> peers[k].role != role
    {
      if peers[i].role == role { return Some(peers[i]); }
      i := i + 1;
    }
    return None;
  }

  method PeersValid(peers: seq<Authority>) returns (ok: bool)
    ensures ok <==> (forall i :: 0 <= i < |peers| ==> AuthorityOk(peers[i])) && forall i, j :: 0 <= i < j < |peers| ==> peers[i].role != peers[j].role
  {
    hide AuthorityOk;
    var roles: set<string>, i := {}, 0;
    while i < |peers|
      invariant 0 <= i <= |peers| && (forall k :: 0 <= k < i ==> AuthorityOk(peers[k]))
      invariant forall role :: role in roles <==> exists k :: 0 <= k < i && peers[k].role == role
      invariant forall k, j :: 0 <= k < j < i ==> peers[k].role != peers[j].role
    {
      if !AuthorityOk(peers[i]) || peers[i].role in roles { return false; }
      roles := roles + {peers[i].role};
      i := i + 1;
    }
    return true;
  }

  method ContainersValid(containers: seq<Container>) returns (ok: bool)
    ensures ok <==> (forall i :: 0 <= i < |containers| ==> ContainerOk(containers[i])) && forall i, j :: 0 <= i < j < |containers| ==> containers[i].root != containers[j].root
  {
    hide ContainerOk;
    var roots: set<string>, i := {}, 0;
    while i < |containers|
      invariant 0 <= i <= |containers| && (forall k :: 0 <= k < i ==> ContainerOk(containers[k]))
      invariant forall root :: root in roots <==> exists k :: 0 <= k < i && containers[k].root == root
      invariant forall k, j :: 0 <= k < j < i ==> containers[k].root != containers[j].root
    {
      if !ContainerOk(containers[i]) || containers[i].root in roots { return false; }
      roots := roots + {containers[i].root};
      i := i + 1;
    }
    return true;
  }

  /** The whole policy check. */
  method Validate(fold: char -> char, c: Config) returns (ok: bool)
    ensures ok <==> ValidConfig(fold, c)
  {
    hide Overlap, AuthorityOk, ContainerOk;
    if c.version != PROTOCOL_VERSION || c.gid == 0 || |c.peers| == 0 || |c.peers| > MAX_ROLES || |c.containers| == 0 || |c.containers| > MAX_CONTAINERS {
      return false;
    }
    ok := PeersValid(c.peers);
    if !ok { return; }
    var agent := AuthorityByRole(c.peers, AGENT);
    var supervisor := AuthorityByRole(c.peers, SUPERVISOR);
    if agent.None? || supervisor.None? { return false; }
    var local := AuthorityByRole(c.peers, LOCAL);
    if local.Some? {
      var overlap := AuthoritiesOverlap(fold, local.value, supervisor.value);
      if overlap { return false; }
    }
    ok := ContainersValid(c.containers);
  }

  /** A container the authority may act for, given where the process runs. */
  predicate Eligible(fold: char -> char, p: Peer, a: Authority, c: Container) {
    && Covers(c.root, p.cgroup)
    && (if a.role == AGENT then c.uid == a.uid && c.exe == a.exe && SameFold(fold, c.sha, a.sha)
        else (a.role == SUPERVISOR || a.role == LOCAL) && a.uid == 0)
  }

  /** Container `k` is the only one the authority may act for. */
  ghost predicate Only(fold: char -> char, p: Peer, a: Authority, containers: seq<Container>, k: int) {
    && p.pid > 1 && p.uid == a.uid && p.exe == a.exe
    && 0 <= k < |containers| && Eligible(fold, p, a, containers[k])
    && forall i :: 0 <= i < |containers| && Eligible(fold, p, a, containers[i]) ==> i == k
  }

  method SelectContainer(fold: char -> char, p: Peer, a: Authority, containers: seq<Container>) returns (r: Option<nat>)
    ensures r.Some? ==> Only(fold, p, a, containers, r.value)
    ensures r.None? ==> forall k :: !Only(fold, p, a, containers, k)
  {
    hide Eligible;
    if p.pid <= 1 || p.uid != a.uid || p.exe != a.exe { return None; }
    var matches, selected, i := 0, 0, 0;
    while i < |containers|
      invariant 0 <= i <= |containers| && 0 <= matches
      invariant matches == 0 ==> forall k :: 0 <= k < i ==> !Eligible(fold, p, a, containers[k])
      invariant matches >= 1 ==> 0 <= selected < i && Eligible(fold, p, a, containers[selected])
      invariant matches == 1 ==> forall k :: 0 <= k < i && Eligible(fold, p, a, containers[k]) ==> k == selected
      invariant matches >= 2 ==> exists k :: selected < k < i && Eligible(fold, p, a, containers[k])
    {
      if Eligible(fold, p, a, containers[i]) {
        if matches == 0 { selected := i; }
        matches := matches + 1;
      }
      i := i + 1;
    }
    return if matches == 1 then Some(selected) else None;
  }

  datatype Verdict = Granted(authority: nat, container: nat) | NoPeer | ManyRoles | NoRole

  /** Authority `i` admits the process, acting for container `k`. */
  ghost predicate Admits(fold: char -> char, p: Peer, uid: nat, c: Config, i: int, k: int) {
    0 <= i < |c.peers| && PeerMatches(fold, p, uid, c.peers[i]) && Only(fold, p, c.peers[i], c.containers, k)
  }

  ghost predicate Denies(fold: char -> char, p: Peer, uid: nat, c: Config, i: int) {
    forall k :: !Admits(fold, p, uid, c, i, k)
  }

  /** No authority but `i` admits the process. */
  ghost predicate Alone(fold: char -> char, p: Peer, uid: nat, c: Config, i: int) {
    forall n :: 0 <= n < |c.peers| && n != i ==> Denies(fold, p, uid, c, n)
  }

  ghost predicate Several(fold: char -> char, p: Peer, uid: nat, c: Config) {
    exists i, j :: 0 <= i < j < |c.peers| && !Denies(fold, p, uid, c, i) && !Denies(fold, p, uid, c, j)
  }

  /** Authorisation of a connected process: access is granted exactly when one role, and no other, admits it. Under a
      valid policy the rejection for matching several roles is unreachable. */
  method Authorize(fold: char -> char, pid: int, uid: nat, found: Option<Peer>, c: Config) returns (v: Verdict)
    ensures v.NoPeer? <==> pid <= 1 || found.None? || found.value.uid != uid
    ensures v.Granted? ==> found.Some? && Admits(fold, found.value, uid, c, v.authority, v.container) && Alone(fold, found.value, uid, c, v.authority)
    ensures v.NoRole? ==> found.Some? && forall i :: 0 <= i < |c.peers| ==> Denies(fold, found.value, uid, c, i)
    ensures v.ManyRoles? ==> found.Some? && Several(fold, found.value, uid, c) && !ValidConfig(fold, c)
  {
    if pid <= 1 || found.None? || found.value.uid != uid { return NoPeer; }
    var p := found.value;
    hide ValidConfig, Denies, Admits, Alone, Several;
    v := PickRole(fold, p, uid, c);
  }

  /** The scan has looked at the first `i` authorities and found `matches` that admit the process: the last of them,
      with its container, and one before it. */
  ghost predicate Scanned(fold: char -> char, p: Peer, uid: nat, c: Config, i: nat, matches: nat, role: nat, container: nat, other: nat) {
    && i <= |c.peers|
    && (matches == 0 ==> forall n :: 0 <= n < i ==> Denies(fold, p, uid, c, n))
    && (matches == 1 ==> forall n :: 0 <= n < i && n != role ==> Denies(fold, p, uid, c, n))
    && (matches >= 1 ==> role < i && Admits(fold, p, uid, c, role, container) && !Denies(fold, p, uid, c, role))
    && (matches >= 2 ==> other < role && !Denies(fold, p, uid, c, other))
  }

  lemma ScanSkips(fold: char -> char, p: Peer, uid: nat, c: Config, i: nat, matches: nat, role: nat, container: nat, other: nat)
    requires i < |c.peers| && Scanned(fold, p, uid, c, i, matches, role, container, other) && Denies(fold, p, uid, c, i)
    ensures Scanned(fold, p, uid, c, i + 1, matches, role, container, other)
  {
    hide Admits, Denies;
  }

  lemma ScanTakes(fold: char -> char, p: Peer, uid: nat, c: Config, i: nat, matches: nat, role: nat, container: nat, other: nat, chosen: nat)
    requires i < |c.peers| && Scanned(fold, p, uid, c, i, matches, role, container, other)
    requires Admits(fold, p, uid, c, i, chosen) && !Denies(fold, p, uid, c, i)
    ensures Scanned(fold, p, uid, c, i + 1, matches + 1, i, chosen, if matches >= 1 then role else other)
  {
    hide Admits, Denies;
  }

  lemma ScanEnds(fold: char -> char, p: Peer, uid: nat, c: Config, matches: nat, role: nat, container: nat, other: nat)
    requires Scanned(fold, p, uid, c, |c.peers|, matches, role, container, other)
    ensures matches == 0 ==> forall i :: 0 <= i < |c.peers| ==> Denies(fold, p, uid, c, i)
    ensures matches >= 1 ==> Admits(fold, p, uid, c, role, container)
    ensures matches == 1 ==> Alone(fold, p, uid, c, role)
    ensures matches >= 2 ==> Several(fold, p, uid, c) && !ValidConfig(fold, c)
  {
    hide Admits, Denies, ValidConfig;
    if matches >= 2 && ValidConfig(fold, c) { OneAdmits(fold, c, p, uid, other, role); }
  }

  /** Under a valid policy at most one role admits a process. */
  lemma OneAdmits(fold: char -> char, c: Config, p: Peer, uid: nat, i: nat, j: nat)
    requires ValidConfig(fold, c) && i < |c.peers| && j < |c.peers|
    requires !Denies(fold, p, uid, c, i) && !Denies(fold, p, uid, c, j)
    ensures i == j
  {
    hide PeerMatches, ValidConfig, Only;
    AtMostOneRole(fold, c, p, uid, i, j);
  }

  method PickRole(fold: char -> char, p: Peer, uid: nat, c: Config) returns (v: Verdict)
    ensures !v.NoPeer?
    ensures v.Granted? ==> Admits(fold, p, uid, c, v.authority, v.container) && Alone(fold, p, uid, c, v.authority)
    ensures v.NoRole? ==> forall i :: 0 <= i < |c.peers| ==> Denies(fold, p, uid, c, i)
    ensures v.ManyRoles? ==> Several(fold, p, uid, c) && !ValidConfig(fold, c)
  {
    var matches: nat, role: nat, container: nat, i: nat := 0, 0, 0, 0;
    ghost var other: nat := 0;
    assert Scanned(fold, p, uid, c, i, matches, role, container, other);
    hide Admits, Denies, Alone, Several, ValidConfig, Scanned;
    while i < |c.peers|
      invariant i <= |c.peers| && Scanned(fold, p, uid, c, i, matches, role, container, other)
    {
      var chosen := TryRole(fold, p, uid, c, i);
      if chosen.Some? {
        ScanTakes(fold, p, uid, c, i, matches, role, container, other, chosen.value);
        if matches >= 1 { other := role; }
        role, container := i, chosen.value;
        matches := matches + 1;
      } else {
        ScanSkips(fold, p, uid, c, i, matches, role, container, other);
      }
      i := i + 1;
    }
    ScanEnds(fold, p, uid, c, matches, role, container, other);
    if matches == 1 { return Granted(role, container); }
    if matches > 1 { return ManyRoles; }
    return NoRole;
  }

  /** The container authority `i` would act for, if it admits the process. */
  method TryRole(fold: char -> char, p: Peer, uid: nat, c: Config, i: nat) returns (r: Option<nat>)
    requires i < |c.peers|
    ensures r.Some? ==> Admits(fold, p, uid, c, i, r.value) && !Denies(fold, p, uid, c, i)
    ensures r.None? ==> Denies(fold, p, uid, c, i)
  {
    hide PeerMatches, Only;
    var candidate := MatchPeer(fold, p, uid, c.peers[i]);
    if !candidate { return None; }
    r := SelectContainer(fold, p, c.peers[i], c.containers);
  }

  method MatchPeer(fold: char -> char, p: Peer, uid: nat, a: Authority) returns (r: bool)
    ensures r <==> PeerMatches(fold, p, uid, a)
  {
    hide CoversAny;
    var under := UnderAny(p.cgroup, a.roots);
    return p.pid > 1 && uid == a.uid && p.exe == a.exe && SameFold(fold, p.sha, a.sha) && under;
  }
}
