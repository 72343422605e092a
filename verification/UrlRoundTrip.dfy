/** When formatting a parsed URL and parsing it again gives the same URL. */
module UrlRoundTrip {
  import opened Wrappers
  import opened Url

  // ----- Text -----

  lemma {:induction false} ScanAt(s: string, stops: set<char>, i: nat)
    requires i <= |s| && (i < |s| ==> s[i] in stops)
    requires forall k | 0 <= k < i :: s[k] !in stops
    ensures Scan(s, stops) == i
  {
  }

  lemma CutAt(s: string, i: nat, c: string)
    requires i < |s| && c == [s[i]]
    ensures s == s[..i] + c + s[i + 1..]
  {
  }

  lemma Associate(a: string, b: string, c: string, d: string, e: string)
    ensures (a + b + c) + d + e == a + b + (c + d + e)
  {
  }

  lemma LeadingDigitsAt(s: string, n: nat)
    requires n <= |s| && AllDigits(s[..n]) && (n < |s| ==> !IsDigit(s[n]))
    ensures LeadingDigits(s) == n
  {
    var m := LeadingDigits(s);
    assert forall k | 0 <= k < n :: s[..n][k] == s[k];
    assert forall k | 0 <= k < m :: s[..m][k] == s[k];
  }

  /** Decimal printing and parsing. */
  lemma {:induction false} DigitsRoundTrip(n: nat)
    ensures Value(Digits(n)) == n
  {
    var last := [(n % 10) as char + '0'];
    if n < 10 {
      assert last[..0] == "";
    } else {
      DigitsRoundTrip(n / 10);
      assert Digits(n)[..|Digits(n)| - 1] == Digits(n / 10);
    }
  }

  // ----- SCP-style SSH URLs -----

  /** The three ways in which parsing begins. */
  lemma UserCases(raw: string)
    ensures
      var i := Scan(raw, {':', '@'});
      ParseSCPSSH(raw) ==
        if i == |raw| || raw[i] == ':' then ParseHost("", raw)
        else if i == 0 then Err(EmptyUsername)
        else ParseHost(raw[..i], raw[i + 1..])
  {
  }

  /** The part before the first colon. */
  function Authority(user: string, host: string): string {
    (if user != "" then user + "@" else "") + host
  }

  /** User and host names as they come out of parsing. */
  predicate Names(user: string, host: string) {
    && host != "" && ':' !in host && '/' !in host && ':' !in user && '/' !in user
    && '@' !in user && (user == "" ==> '@' !in host)
  }

  /** What the port and path are read from when they are printed. */
  function Tail(port: nat, path: string): string {
    if port != 0 then Digits(port) + ":" + path else path
  }

  lemma FormatSSHParts(u: URL)
    ensures FormatSSH(u) == Authority(u.user, u.host) + ":" + Tail(u.port, u.path)
  {
  }

  lemma ParseHostParts(user: string, host: string, tail: string)
    requires host != "" && ':' !in host
    ensures ParseHost(user, host + ":" + tail) == ParsePath(user, host, tail)
  {
    var rest := host + ":" + tail;
    ScanAt(rest, {':'}, |host|);
    assert rest[..|host|] == host && rest[|host| + 1..] == tail;
  }

  lemma ParseUserPart(user: string, rest: string)
    requires user != "" && ':' !in user && '@' !in user
    ensures ParseSCPSSH(user + "@" + rest) == ParseHost(user, rest)
  {
    var raw := user + "@" + rest;
    ScanAt(raw, {':', '@'}, |user|);
    assert raw[..|user|] == user && raw[|user| + 1..] == rest;
  }

  lemma ParseNoUserPart(host: string, tail: string)
    requires ':' !in host && '@' !in host
    ensures ParseSCPSSH(host + ":" + tail) == ParseHost("", host + ":" + tail)
  {
    ScanAt(host + ":" + tail, {':', '@'}, |host|);
  }

  lemma ParseParts(user: string, host: string, tail: string)
    requires Names(user, host)
    ensures ParseSCPSSH(Authority(user, host) + ":" + tail) == ParsePath(user, host, tail)
  {
    ParseHostParts(user, host, tail);
    if user == "" {
      ParseNoUserPart(host, tail);
      assert Authority(user, host) == host;
    } else {
      ParseUserPart(user, host + ":" + tail);
      Associate(user, "@", host, ":", tail);
    }
  }

  lemma ParseTail(user: string, host: string, port: nat, path: string)
    requires port <= MAX_PORT && path != ""
    ensures port != 0 || !StartsLikePort(path) ==>
              ParsePath(user, host, Tail(port, path)) == Ok(URL(SSH, user, host, port, path, map[]))
    ensures port == 0 && StartsLikePort(path) ==>
              ParsePath(user, host, Tail(port, path)) != Ok(URL(SSH, user, host, port, path, map[]))
  {
    var tail := Tail(port, path);
    if port != 0 {
      var digits := Digits(port);
      assert tail[..|digits|] == digits && tail[|digits|] == ':' && tail[|digits| + 1..] == path;
      LeadingDigitsAt(tail, |digits|);
      DigitsRoundTrip(port);
    }
  }

  lemma AcceptedPath(user: string, host: string, tail: string, u: URL)
    requires ParsePath(user, host, tail) == Ok(u)
    ensures u == URL(SSH, user, host, u.port, u.path, map[]) && u.port <= MAX_PORT && u.path != ""
    ensures !StartsLikePort(tail) ==> u.port == 0 && u.path == tail
  {
  }

  lemma AcceptedHost(user: string, rest: string, u: URL)
    requires ParseHost(user, rest) == Ok(u)
    ensures
      var i := Scan(rest, {':'});
      && 0 < i < |rest| && ParsePath(user, rest[..i], rest[i + 1..]) == Ok(u)
      && rest == rest[..i] + ":" + rest[i + 1..] && ':' !in rest[..i]
  {
    CutAt(rest, Scan(rest, {':'}), ":");
  }

  /** What follows the host and its colon: an optional port segment and the path. */
  function AfterHost(rest: string): string {
    var i := Scan(rest, {':'});
    if i < |rest| then rest[i + 1..] else ""
  }

  predicate HasUser(raw: string) {
    var i := Scan(raw, {':', '@'});
    i < |raw| && raw[i] == '@'
  }

  function AfterUser(raw: string): string {
    if HasUser(raw) then raw[Scan(raw, {':', '@'}) + 1..] else raw
  }

  function UserOf(raw: string): string {
    if HasUser(raw) then raw[..Scan(raw, {':', '@'})] else ""
  }

  lemma UserText(raw: string)
    requires UserOf(raw) == "" ==> !HasUser(raw)
    ensures raw == (if UserOf(raw) != "" then UserOf(raw) + "@" else "") + AfterUser(raw)
    ensures ':' !in UserOf(raw) && '@' !in UserOf(raw)
  {
    if HasUser(raw) { CutAt(raw, Scan(raw, {':', '@'}), "@"); } else { Empty(raw); }
  }

  lemma UserPart(raw: string, u: URL)
    requires ParseSCPSSH(raw) == Ok(u)
    ensures u.user == UserOf(raw) && (u.user == "" ==> !HasUser(raw))
    ensures ParseHost(u.user, AfterUser(raw)) == Ok(u)
  {
    UserCases(raw);
    HostPart(UserOf(raw), AfterUser(raw), u);
  }

  lemma Empty(s: string)
    ensures "" + s == s
  {
  }

  lemma HostPart(user: string, rest: string, u: URL)
    requires ParseHost(user, rest) == Ok(u)
    ensures u.user == user && u.host == rest[..Scan(rest, {':'})]
    ensures u.host != "" && ':' !in u.host && rest == u.host + ":" + AfterHost(rest)
    ensures ParsePath(user, u.host, AfterHost(rest)) == Ok(u)
  {
    AcceptedHost(user, rest, u);
    var i := Scan(rest, {':'});
    AcceptedPath(user, rest[..i], rest[i + 1..], u);
  }

  /** What parsing accepts is an authority, a colon and what follows. */
  lemma AcceptedParts(raw: string, u: URL)
    requires ParseSCPSSH(raw) == Ok(u)
    ensures raw == Authority(u.user, u.host) + ":" + AfterHost(AfterUser(raw))
    ensures ParsePath(u.user, u.host, AfterHost(AfterUser(raw))) == Ok(u)
    ensures u.host != "" && ':' !in u.host && ':' !in u.user && '@' !in u.user && (u.user == "" ==> '@' !in u.host)
  {
    var rest := AfterUser(raw);
    UserPart(raw, u);
    UserText(raw);
    HostPart(u.user, rest, u);
    AuthorityJoin(u.user, u.host, AfterHost(rest));
    if u.user == "" { NoAtInHost(raw); }
  }

  lemma AuthorityJoin(user: string, host: string, tail: string)
    ensures (if user != "" then user + "@" else "") + (host + ":" + tail) == Authority(user, host) + ":" + tail
  {
  }

  lemma NoAtInHost(raw: string)
    requires !HasUser(raw)
    ensures '@' !in raw[..Scan(raw, {':'})]
  {
    var i := Scan(raw, {':', '@'});
    ScanAt(raw, {':'}, i);
  }

  /** No slash comes before the first colon of an SCP-style URL. */
  lemma NoSlashBefore(authority: string, tail: string, windows: bool)
    requires IsSCPSSHURL(authority + ":" + tail, windows) && ':' !in authority
    ensures '/' !in authority
  {
    var raw := authority + ":" + tail;
    assert raw[|authority|] == ':';
    forall k | 0 <= k < |authority| ensures authority[k] != '/' { assert raw[k] == authority[k]; }
  }

  lemma AuthorityContains(user: string, host: string, c: char)
    requires c != '@'
    ensures c in Authority(user, host) <==> c in user || c in host
  {
  }

  lemma NamesWithoutSlash(raw: string, u: URL, windows: bool)
    requires IsSCPSSHURL(raw, windows) && ParseSCPSSH(raw) == Ok(u)
    ensures Names(u.user, u.host)
  {
    AcceptedParts(raw, u);
    AuthorityContains(u.user, u.host, ':');
    AuthorityContains(u.user, u.host, '/');
    NoSlashBefore(Authority(u.user, u.host), AfterHost(AfterUser(raw)), windows);
  }

  /** A written port keeps the text from being taken for something else. */
  lemma PortKeepsClass(u: URL, windows: bool)
    requires Names(u.user, u.host) && u.port != 0
    ensures !IsDockerURL(FormatSSH(u)) && IsSCPSSHURL(FormatSSH(u), windows)
  {
    var s := FormatSSH(u);
    var authority := Authority(u.user, u.host);
    FormatSSHParts(u);
    assert s[|authority|] == ':';
    assert s[|authority| + 1] == Digits(u.port)[0];
    forall k | 0 <= k < |authority| ensures s[k] != ':' && s[k] != '/' { assert s[k] == authority[k]; }
    ScanAt(s, {':', '/'}, |authority|);
    if IsDockerURL(s) {
      DockerColon(s);
      assert false;
    }
  }

  lemma DockerColon(s: string)
    requires IsDockerURL(s)
    ensures s[6] == ':' && s[7] == '/'
  {
    assert Lower(s[6]) == DOCKER_PREFIX[6] && Lower(s[7]) == DOCKER_PREFIX[7];
  }

  lemma ParseSSHOnly(raw: string, environment: map<string, string>, first: bool, windows: bool, u: URL)
    requires u.protocol.SSH? && raw != ""
    ensures Parse(raw, environment, first, windows) == Ok(u) <==>
              !IsDockerURL(raw) && IsSCPSSHURL(raw, windows) && ParseSCPSSH(raw) == Ok(u)
  {
  }

  /** Printed without user and port, the URL would read as a Docker URL. */
  predicate LooksLikeDocker(u: URL) {
    && u.user == "" && |u.host| == 6 && (forall i | 0 <= i < 6 :: Lower(u.host[i]) == "docker"[i])
    && |u.path| >= 2 && u.path[0] == '/' && u.path[1] == '/'
  }

  /** Printed without user and port, the URL would read as a Windows path. */
  predicate LooksLikeWindowsPath(u: URL) {
    && u.user == "" && |u.host| == 1 && ('a' <= u.host[0] <= 'z' || 'A' <= u.host[0] <= 'Z')
    && |u.path| >= 1 && (u.path[0] == '/' || u.path[0] == '\\')
  }

  lemma PortlessText(u: URL)
    requires Names(u.user, u.host) && u.port == 0
    ensures
      var s, authority := FormatSSH(u), Authority(u.user, u.host);
      && |s| == |authority| + 1 + |u.path|
      && s[|authority|] == ':'
      && (forall k | 0 <= k < |authority| :: s[k] == authority[k] && s[k] != ':' && s[k] != '/')
      && (forall k | 0 <= k < |u.path| :: s[|authority| + 1 + k] == u.path[k])
      && (u.user == "" ==> authority == u.host)
      && (u.user != "" ==> |authority| >= 3 && authority[|u.user|] == '@')
  {
    FormatSSHParts(u);
    var authority := Authority(u.user, u.host);
    AuthorityContains(u.user, u.host, ':');
    AuthorityContains(u.user, u.host, '/');
    assert u.user == "" ==> authority == u.host;
    assert FormatSSH(u) == authority + ":" + u.path;
  }

  /** Without a port, these are the only ways in which the printed text is misclassified. */
  lemma PortlessClass(u: URL, windows: bool)
    requires Names(u.user, u.host) && u.port == 0
    ensures IsDockerURL(FormatSSH(u)) <==> LooksLikeDocker(u)
    ensures IsSCPSSHURL(FormatSSH(u), windows) <==> !(windows && LooksLikeWindowsPath(u))
  {
    PortlessText(u);
    var s, authority := FormatSSH(u), Authority(u.user, u.host);
    ScanAt(s, {':', '/'}, |authority|);
    PortlessDocker(u, s, authority);
  }

  lemma PortlessDocker(u: URL, s: string, authority: string)
    requires |s| == |authority| + 1 + |u.path| && s[|authority|] == ':'
    requires forall k | 0 <= k < |authority| :: s[k] == authority[k] && s[k] != ':'
    requires forall k | 0 <= k < |u.path| :: s[|authority| + 1 + k] == u.path[k]
    requires if u.user == "" then authority == u.host else |u.user| < |authority| && authority[|u.user|] == '@'
    ensures IsDockerURL(s) <==> LooksLikeDocker(u)
  {
    if IsDockerURL(s) {
      DockerText(s);
      assert |authority| == 6;
      assert s[8] == u.path[1] && s[7] == u.path[0];
    }
  }

  lemma DockerText(s: string)
    requires IsDockerURL(s)
    ensures s[6] == ':' && s[7] == '/' && s[8] == '/'
    ensures forall i | 0 <= i < 6 :: Lower(s[i]) == "docker"[i] && s[i] != '@'
  {
    assert forall i | 0 <= i < 9 :: Lower(s[i]) == DOCKER_PREFIX[i];
    assert forall i | 0 <= i < 6 :: DOCKER_PREFIX[i] == "docker"[i];
    assert Lower(s[6]) == DOCKER_PREFIX[6] && Lower(s[7]) == DOCKER_PREFIX[7] && Lower(s[8]) == DOCKER_PREFIX[8];
  }

  /** Formatting an accepted SCP-style URL and parsing it again gives it back exactly if it
      has a port, or its path does not start like one, and without user and port it does not
      read as a Docker URL or, on Windows, as a Windows path. */
  lemma SSHRoundTrip(raw: string, environment: map<string, string>, first: bool, windows: bool, u: URL)
    requires Parse(raw, environment, first, windows) == Ok(u) && u.protocol.SSH?
    ensures
      Parse(Format(u), environment, first, windows) == Ok(u) <==>
        || u.port != 0
        || (!StartsLikePort(u.path) && !LooksLikeDocker(u) && !(windows && LooksLikeWindowsPath(u)))
  {
    ParseSSHOnly(raw, environment, first, windows, u);
    NamesWithoutSlash(raw, u, windows);
    AcceptedParts(raw, u);
    AcceptedPath(u.user, u.host, AfterHost(AfterUser(raw)), u);
    FormatSSHParts(u);
    ParseParts(u.user, u.host, Tail(u.port, u.path));
    ParseTail(u.user, u.host, u.port, u.path);
    ParseSSHOnly(Format(u), environment, first, windows, u);
    if u.port != 0 { PortKeepsClass(u, windows); } else { PortlessClass(u, windows); }
  }

  /** In particular if no port segment is written, or the one written is not zero. */
  lemma SSHRoundTripWithoutZeroPort(raw: string, environment: map<string, string>, first: bool, windows: bool, u: URL)
    requires Parse(raw, environment, first, windows) == Ok(u) && u.protocol.SSH?
    requires StartsLikePort(AfterHost(AfterUser(raw))) ==> u.port != 0
    ensures Parse(Format(u), environment, first, windows) == Ok(u)
  {
    SSHRoundTrip(raw, environment, first, windows, u);
    ParseSSHOnly(raw, environment, first, windows, u);
    AcceptedParts(raw, u);
    AcceptedPath(u.user, u.host, AfterHost(AfterUser(raw)), u);
    FormatSSHParts(u);
    if u.port == 0 {
      NamesWithoutSlash(raw, u, windows);
      PortlessClass(u, windows);
    }
  }

  /** A zero port is lost, and the start of the path is then read as a port. */
  lemma ZeroPortIsLost(environment: map<string, string>, first: bool)
    ensures
      var u := URL(SSH, "", "h", 0, "1:p", map[]);
      && Parse("h:0:1:p", environment, first, false) == Ok(u)
      && Parse(Format(u), environment, first, false) != Ok(u)
  {
    var raw, u := "h:0:1:p", URL(SSH, "", "h", 0, "1:p", map[]);
    ScanAt(raw, {':', '/'}, 1);
    assert Authority("", "h") + ":" + "0:1:p" == raw;
    ParseParts("", "h", "0:1:p");
    ZeroPortIsRead();
    ParseSSHOnly(raw, environment, first, false, u);
    SSHRoundTrip(raw, environment, first, false, u);
  }

  lemma ZeroPortIsRead()
    ensures ParsePath("", "h", "0:1:p") == Ok(URL(SSH, "", "h", 0, "1:p", map[]))
    ensures StartsLikePort("1:p")
  {
    var tail := "0:1:p";
    assert tail[..1] == "0" && "0"[..0] == "" && tail[2..] == "1:p";
    LeadingDigitsAt(tail, 1);
    assert "1:p"[..1] == "1";
    LeadingDigitsAt("1:p", 1);
  }

  // ----- Docker URLs -----

  /** The path as it is printed and read. */
  function Slashed(path: string): string
    requires path != ""
  {
    if path[0] == '/' then path else "/" + path
  }

  /** Paths as they come out of parsing. */
  predicate TrimmedPath(path: string) {
    && path != ""
    && (path[0] == '/' || path[0] == '~' || IsWindowsPath(path))
    && TrimPath(Slashed(path)) == path
  }

  lemma TrimTwice(path: string)
    requires path != "" && path[0] == '/'
    ensures TrimmedPath(TrimPath(path))
  {
    var p := TrimPath(path);
    if p[0] != '/' {
      var s := Slashed(p);
      assert s[1..] == p && s[1] == p[0];
    }
  }

  lemma ParseContainerParts(user: string, host: string, path: string, environment: map<string, string>)
    requires host != "" && '/' !in host && path != "" && path[0] == '/'
    ensures
      ParseContainer(user, host + path, environment) ==
      Ok(URL(Docker, user, host, 0, TrimPath(path), environment))
  {
    var rest := host + path;
    ScanAt(rest, {'/'}, |host|);
    assert rest[..|host|] == host && rest[|host|..] == path;
  }

  lemma ParseDockerText(text: string, environment: map<string, string>, first: bool, windows: bool)
    ensures Parse(DOCKER_PREFIX + text, environment, first, windows) == ParseText(text, LockIn(environment, first))
  {
    var raw := DOCKER_PREFIX + text;
    assert raw[|DOCKER_PREFIX|..] == text;
    assert forall i | 0 <= i < |DOCKER_PREFIX| :: raw[i] == DOCKER_PREFIX[i];
    assert forall i | 0 <= i < |DOCKER_PREFIX| :: Lower(DOCKER_PREFIX[i]) == DOCKER_PREFIX[i];
  }

  lemma ParseTextAt(user: string, rest: string, environment: map<string, string>)
    requires '/' !in user && '@' !in user
    ensures ParseText(user + "@" + rest, environment) == ParseContainer(user, rest, environment)
  {
    var text := user + "@" + rest;
    ScanAt(text, {'/', '@'}, |user|);
    assert text[..|user|] == user && text[|user| + 1..] == rest;
  }

  lemma ParseTextNoAt(host: string, path: string, environment: map<string, string>)
    requires '/' !in host && '@' !in host && path != "" && path[0] == '/'
    ensures ParseText(host + path, environment) == ParseContainer("", host + path, environment)
  {
    ScanAt(host + path, {'/', '@'}, |host|);
  }

  lemma AcceptedContainer(user: string, rest: string, environment: map<string, string>, u: URL)
    requires ParseContainer(user, rest, environment) == Ok(u)
    ensures u == URL(Docker, user, u.host, 0, u.path, environment)
    ensures u.host != "" && '/' !in u.host && TrimmedPath(u.path) && |u.host| <= |rest|
    ensures u.host == rest[..Scan(rest, {'/'})]
  {
    TrimTwice(rest[Scan(rest, {'/'})..]);
  }

  lemma AcceptedText(text: string, environment: map<string, string>, u: URL)
    requires ParseText(text, environment) == Ok(u)
    ensures u == URL(Docker, u.user, u.host, 0, u.path, environment)
    ensures u.host != "" && '/' !in u.host && '/' !in u.user && '@' !in u.user && TrimmedPath(u.path)
  {
    TextCases(text, environment);
    var i := Scan(text, {'/', '@'});
    if i < |text| && text[i] == '@' {
      AcceptedContainer(text[..i], text[i + 1..], environment, u);
    } else {
      AcceptedContainer("", text, environment, u);
    }
  }

  /** The two ways in which parsing begins, and the user name in each. */
  lemma TextCases(text: string, environment: map<string, string>)
    ensures
      var i := Scan(text, {'/', '@'});
      && '/' !in text[..i] && '@' !in text[..i]
      && ParseText(text, environment) ==
         if i < |text| && text[i] == '@' then ParseContainer(text[..i], text[i + 1..], environment)
         else ParseContainer("", text, environment)
  {
  }

  lemma AcceptedDocker(raw: string, environment: map<string, string>, first: bool, windows: bool, u: URL)
    requires Parse(raw, environment, first, windows) == Ok(u) && u.protocol.Docker?
    ensures IsDockerURL(raw) && ParseText(raw[|DOCKER_PREFIX|..], LockIn(environment, first)) == Ok(u)
  {
    if !IsDockerURL(raw) {
      AcceptedParts(raw, u);
      AcceptedPath(u.user, u.host, AfterHost(AfterUser(raw)), u);
    }
  }

  lemma FormatDockerParts(u: URL)
    requires TrimmedPath(u.path)
    ensures
      FormatDocker(u) ==
      DOCKER_PREFIX + ((if u.user != "" then u.user + "@" else "") + (u.host + Slashed(u.path)))
  {
  }

  /** The first at sign of a container name ends what is read as a user name. */
  lemma UserFromHost(host: string, path: string, environment: map<string, string>, u: URL)
    requires '/' !in host && '@' in host && path != "" && path[0] == '/'
    ensures ParseText(host + path, environment) == Ok(u) ==> u.host != host
  {
    var k := Scan(host, {'@'});
    var user, rest := host[..k], host[k + 1..];
    assert host == user + "@" + rest;
    Associate("", user, "@", rest, path);
    assert host + path == user + "@" + (rest + path);
    ParseTextAt(user, rest + path, environment);
    ScanAt(rest + path, {'/'}, |rest|);
    if ParseText(host + path, environment) == Ok(u) {
      AcceptedContainer(user, rest + path, environment, u);
    }
  }

  /** The printer does not reject an accepted Docker URL, and parsing what it prints gives
      the URL back exactly if it has a user or no at sign in its container name. */
  lemma DockerRoundTrip(raw: string, environment: map<string, string>, first: bool, windows: bool, u: URL)
    requires Parse(raw, environment, first, windows) == Ok(u) && u.protocol.Docker?
    ensures Format(u) != INVALID_DOCKER_URL
    ensures Parse(Format(u), environment, first, windows) == Ok(u) <==> u.user != "" || '@' !in u.host
  {
    var locked := LockIn(environment, first);
    AcceptedDocker(raw, environment, first, windows, u);
    AcceptedText(raw[|DOCKER_PREFIX|..], locked, u);
    FormatDockerParts(u);
    var path := Slashed(u.path);
    var text := (if u.user != "" then u.user + "@" else "") + (u.host + path);
    ParseDockerText(text, environment, first, windows);
    assert Format(u)[0] == 'd';
    ParseContainerParts(u.user, u.host, path, locked);
    if u.user != "" {
      ParseTextAt(u.user, u.host + path, locked);
    } else {
      assert text == u.host + path;
      if '@' in u.host { UserFromHost(u.host, path, locked, u); } else { ParseTextNoAt(u.host, path, locked); }
    }
  }

  /** An empty user name is lost, and the start of the container name is then read as one. */
  lemma EmptyUserIsLost(first: bool)
    ensures
      var u := URL(Docker, "", "a@b", 0, "/p", map[]);
      && Parse("docker://@a@b/p", map[], first, false) == Ok(u)
      && Parse(Format(u), map[], first, false) != Ok(u)
  {
    var u := URL(Docker, "", "a@b", 0, "/p", map[]);
    assert "docker://@a@b/p" == DOCKER_PREFIX + ("" + "@" + ("a@b" + "/p"));
    ParseDockerText("" + "@" + ("a@b" + "/p"), map[], first, false);
    ParseTextAt("", "a@b" + "/p", LockIn(map[], first));
    ParseContainerParts("", "a@b", "/p", LockIn(map[], first));
    DockerRoundTrip("docker://@a@b/p", map[], first, false, u);
    assert u.host[1] == '@';
  }
}
