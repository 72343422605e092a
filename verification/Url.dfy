/** Synchronization URLs: classification, parsing and formatting of SCP-style SSH URLs and
    Docker URLs, as functions of the raw text. */
module Url {
  import opened Wrappers

  datatype Protocol = SSH | Docker

  datatype URL = URL(
    protocol: Protocol,
    user: string,
    host: string,
    port: nat,
    path: string,
    environment: map<string, string>
  )

  datatype Error =
    | EmptyURL
    | EmptyUsername
    | EmptyHostname
    | NoHostname
    | InvalidPort
    | EmptyContainer
    | EmptyPath

  /** Local URLs are only classified. */
  datatype Parsed = Ok(url: URL) | Err(error: Error) | Local

  // ----- Text -----

  /** The position of the first of the given characters, or the length of the text. */
  function Scan(s: string, stops: set<char>): (i: nat)
    ensures i <= |s|
    ensures forall k | 0 <= k < i :: s[k] !in stops
    ensures i < |s| ==> s[i] in stops
  {
    if |s| == 0 || s[0] in stops then 0 else 1 + Scan(s[1..], stops)
  }

  predicate IsDigit(c: char) { '0' <= c <= '9' }

  predicate AllDigits(s: string) { forall i | 0 <= i < |s| :: IsDigit(s[i]) }

  /** The number of digits at the start of the text. */
  function LeadingDigits(s: string): (n: nat)
    ensures n <= |s| && AllDigits(s[..n])
    ensures n < |s| ==> !IsDigit(s[n])
  {
    if |s| == 0 || !IsDigit(s[0]) then 0
    else
      var n := LeadingDigits(s[1..]);
      assert forall i | 1 <= i < n + 1 :: s[i] == s[1..][..n][i - 1];
      1 + n
  }

  /** The text starts like a port: digits, if any, and a colon. */
  predicate StartsLikePort(s: string) {
    LeadingDigits(s) < |s| && s[LeadingDigits(s)] == ':'
  }

  const MAX_PORT := 65535

  function Digits(n: nat): (s: string)
    ensures |s| >= 1 && AllDigits(s)
  {
    var last := [(n % 10) as char + '0'];
    if n < 10 then last else Digits(n / 10) + last
  }

  function Value(digits: string): nat
    requires AllDigits(digits)
  {
    if |digits| == 0 then 0
    else 10 * Value(digits[..|digits| - 1]) + (digits[|digits| - 1] - '0') as nat
  }

  /** strconv.ParseUint in base 10 with 16 bits, on digits. */
  function ParsePort(digits: string): Option<nat>
    requires AllDigits(digits)
  {
    if |digits| == 0 || Value(digits) > MAX_PORT then None else Some(Value(digits))
  }

  function Lower(c: char): char {
    if 'A' <= c <= 'Z' then (c as int + 32) as char else c
  }

  predicate IsWindowsPath(s: string) {
    && |s| >= 3
    && ('a' <= s[0] <= 'z' || 'A' <= s[0] <= 'Z')
    && s[1] == ':'
    && (s[2] == '\\' || s[2] == '/')
  }

  // ----- Classification -----

  const DOCKER_PREFIX := "docker://"

  predicate IsDockerURL(raw: string) {
    |raw| >= |DOCKER_PREFIX| && forall i | 0 <= i < |DOCKER_PREFIX| :: Lower(raw[i]) == DOCKER_PREFIX[i]
  }

  /** On Windows, what looks like a Windows path is one. */
  predicate IsSCPSSHURL(raw: string, windows: bool) {
    && !(windows && IsWindowsPath(raw))
    && var i := Scan(raw, {':', '/'});
       i < |raw| && raw[i] == ':'
  }

  // ----- SCP-style SSH URLs -----

  function ParsePath(user: string, host: string, after: string): Parsed {
    var n := LeadingDigits(after);
    var port := if StartsLikePort(after) then ParsePort(after[..n]) else Some(0);
    var path := if StartsLikePort(after) then after[n + 1..] else after;
    if port.None? then Err(InvalidPort)
    else if path == "" then Err(EmptyPath)
    else Ok(URL(SSH, user, host, port.value, path, map[]))
  }

  function ParseHost(user: string, rest: string): Parsed {
    var i := Scan(rest, {':'});
    if i == |rest| then Err(NoHostname)
    else if i == 0 then Err(EmptyHostname)
    else ParsePath(user, rest[..i], rest[i + 1..])
  }

  function ParseSCPSSH(raw: string): Parsed {
    var i := Scan(raw, {':', '@'});
    if i == |raw| || raw[i] == ':' then ParseHost("", raw)
    else if i == 0 then Err(EmptyUsername)
    else ParseHost(raw[..i], raw[i + 1..])
  }

  function FormatSSH(u: URL): string {
    (if u.user != "" then u.user + "@" else "") + u.host +
    (if u.port != 0 then ":" + Digits(u.port) else "") + ":" + u.path
  }

  // ----- Docker URLs -----

  const DOCKER_VARIABLES := [
    "DOCKER_HOST", "DOCKER_TLS", "DOCKER_TLS_VERIFY", "DOCKER_CERT_PATH",
    "DOCKER_CONTEXT", "DOCKER_CONFIG", "DOCKER_API_VERSION"
  ]

  /** The value of an environment variable, where the endpoint's own variant comes first. */
  function Lookup(environment: map<string, string>, name: string, first: bool): Option<string> {
    var specific := (if first then "MUTAGEN_ALPHA_" else "MUTAGEN_BETA_") + name;
    if specific in environment then Some(environment[specific])
    else if name in environment then Some(environment[name])
    else None
  }

  function LockIn(environment: map<string, string>, first: bool): map<string, string> {
    map name | name in DOCKER_VARIABLES && Lookup(environment, name, first).Some? ::
      Lookup(environment, name, first).value
  }

  /** Home-relative and Windows paths lose the slash before them. */
  function TrimPath(path: string): string
    requires |path| >= 1
  {
    var trimmed := if |path| > 1 && path[1] == '~' then path[1..] else path;
    if IsWindowsPath(trimmed[1..]) then trimmed[1..] else trimmed
  }

  function ParseContainer(user: string, rest: string, environment: map<string, string>): Parsed {
    var i := Scan(rest, {'/'});
    if i == |rest| || i == 0 then Err(EmptyContainer)
    else Ok(URL(Docker, user, rest[..i], 0, TrimPath(rest[i..]), environment))
  }

  /** Parsing after the prefix. */
  function ParseText(text: string, environment: map<string, string>): Parsed {
    var i := Scan(text, {'/', '@'});
    if i < |text| && text[i] == '@' then ParseContainer(text[..i], text[i + 1..], environment)
    else ParseContainer("", text, environment)
  }

  function ParseDocker(raw: string, environment: map<string, string>, first: bool): Parsed
    requires |raw| >= |DOCKER_PREFIX|
  {
    ParseText(raw[|DOCKER_PREFIX|..], LockIn(environment, first))
  }

  const INVALID_DOCKER_URL := "<invalid-docker-url>"

  /** Without an environment prefix, as for reparsing. */
  function FormatDocker(u: URL): string {
    var base := DOCKER_PREFIX + (if u.user != "" then u.user + "@" else "") + u.host;
    if u.path == "" then INVALID_DOCKER_URL
    else if u.path[0] == '/' then base + u.path
    else if u.path[0] == '~' || IsWindowsPath(u.path) then base + "/" + u.path
    else INVALID_DOCKER_URL
  }

  // ----- All -----

  function Parse(raw: string, environment: map<string, string>, first: bool, windows: bool): Parsed {
    if raw == "" then Err(EmptyURL)
    else if IsDockerURL(raw) then ParseDocker(raw, environment, first)
    else if IsSCPSSHURL(raw, windows) then ParseSCPSSH(raw)
    else Local
  }

  function Format(u: URL): string {
    if u.protocol.SSH? then FormatSSH(u) else FormatDocker(u)
  }
}
