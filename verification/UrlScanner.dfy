/** The parsers as they scan the raw text, one character at a time. */
module UrlScanner {
  import opened Wrappers
  import Url
  import opened UrlRoundTrip

  /** Classifies by the first colon or slash. */
  method IsSCPSSHURL(raw: string, windows: bool) returns (result: bool)
    ensures result == Url.IsSCPSSHURL(raw, windows)
  {
    if windows && Url.IsWindowsPath(raw) { return false; }
    for i := 0 to |raw|
      invariant forall k | 0 <= k < i :: raw[k] !in {':', '/'}
    {
      if raw[i] == ':' || raw[i] == '/' {
        ScanAt(raw, {':', '/'}, i);
        return raw[i] == ':';
      }
    }
    ScanAt(raw, {':', '/'}, |raw|);
    return false;
  }

  /** Scans for the first of the given characters. */
  method ScanFor(s: string, stops: set<char>) returns (i: nat)
    ensures i == Url.Scan(s, stops)
  {
    i := 0;
    while i < |s| && s[i] !in stops
      invariant i <= |s| && forall k | 0 <= k < i :: s[k] !in stops
    {
      i := i + 1;
    }
    ScanAt(s, stops, i);
  }

  /** Parses off the user name, the host name and the port, and keeps the rest as the path. */
  method ParseSCPSSH(input: string) returns (result: Url.Parsed)
    ensures result == Url.ParseSCPSSH(input)
  {
    UserCases(input);
    var i := ScanFor(input, {':', '@'});
    if i < |input| && input[i] == '@' {
      if i == 0 { return Url.Err(Url.EmptyUsername); }
      result := ParseHost(input[..i], input[i + 1..]);
    } else {
      result := ParseHost("", input);
    }
  }

  method ParseHost(username: string, raw: string) returns (result: Url.Parsed)
    ensures result == Url.ParseHost(username, raw)
  {
    var i := ScanFor(raw, {':'});
    if i == |raw| { return Url.Err(Url.NoHostname); }
    if i == 0 { return Url.Err(Url.EmptyHostname); }
    result := ParsePath(username, raw[..i], raw[i + 1..]);
  }

  method ParsePath(username: string, hostname: string, input: string) returns (result: Url.Parsed)
    ensures result == Url.ParsePath(username, hostname, input)
  {
    var raw, port := input, 0;
    var i := 0;
    while i < |raw| && Url.IsDigit(raw[i])
      invariant i <= |raw| && Url.AllDigits(raw[..i])
    {
      assert raw[..i + 1] == raw[..i] + [raw[i]];
      i := i + 1;
    }
    LeadingDigitsAt(raw, i);
    if i < |raw| && raw[i] == ':' {
      var value := Url.ParsePort(raw[..i]);
      if value.None? { return Url.Err(Url.InvalidPort); }
      port, raw := value.value, raw[i + 1..];
    }
    if raw == "" { return Url.Err(Url.EmptyPath); }
    return Url.Ok(Url.URL(Url.SSH, username, hostname, port, raw, map[]));
  }

  /** Parses off the user name, splits the container from the path, and locks in the
      environment. */
  method ParseDocker(input: string, environment: map<string, string>, first: bool) returns (result: Url.Parsed)
    requires |input| >= |Url.DOCKER_PREFIX|
    ensures result == Url.ParseDocker(input, environment, first)
  {
    var locked := LockIn(environment, first);
    result := ParseText(input[|Url.DOCKER_PREFIX|..], locked);
  }

  method ParseText(raw: string, locked: map<string, string>) returns (result: Url.Parsed)
    ensures result == Url.ParseText(raw, locked)
  {
    var i := ScanFor(raw, {'/', '@'});
    if i < |raw| && raw[i] == '@' {
      result := ParseContainer(raw[..i], raw[i + 1..], locked);
    } else {
      result := ParseContainer("", raw, locked);
    }
  }

  method ParseContainer(username: string, raw: string, locked: map<string, string>) returns (result: Url.Parsed)
    ensures result == Url.ParseContainer(username, raw, locked)
  {
    var i := ScanFor(raw, {'/'});
    if i == |raw| || i == 0 { return Url.Err(Url.EmptyContainer); }
    var container, path := raw[..i], raw[i..];
    if |path| > 1 && path[1] == '~' { path := path[1..]; }
    if Url.IsWindowsPath(path[1..]) { path := path[1..]; }
    return Url.Ok(Url.URL(Url.Docker, username, container, 0, path, locked));
  }

  method LockIn(environment: map<string, string>, first: bool) returns (locked: map<string, string>)
    ensures locked == Url.LockIn(environment, first)
  {
    locked := map[];
    for i := 0 to |Url.DOCKER_VARIABLES|
      invariant
        forall name ::
          name in locked <==> name in Url.DOCKER_VARIABLES[..i] && Url.Lookup(environment, name, first).Some?
      invariant forall name | name in locked :: locked[name] == Url.Lookup(environment, name, first).value
    {
      var name := Url.DOCKER_VARIABLES[i];
      assert Url.DOCKER_VARIABLES[..i + 1] == Url.DOCKER_VARIABLES[..i] + [name];
      var value := Url.Lookup(environment, name, first);
      if value.Some? { locked := locked[name := value.value]; }
    }
    assert Url.DOCKER_VARIABLES[..|Url.DOCKER_VARIABLES|] == Url.DOCKER_VARIABLES;
  }
}
