/** What parsing makes of each form of URL, in terms of the text. */
module UrlMeaning {
  import opened Wrappers
  import opened Url
  import opened UrlRoundTrip

  // ----- Classification -----

  /** A Docker URL starts with its scheme in letters of any case. */
  lemma DockerPrefix(raw: string)
    ensures
      IsDockerURL(raw) <==>
        |raw| >= 9 && forall i | 0 <= i < 9 :: raw[i] == "docker://"[i] || raw[i] == "DOCKER://"[i]
  {
    forall i | 0 <= i < 9 && i < |raw|
      ensures Lower(raw[i]) == DOCKER_PREFIX[i] <==> raw[i] == "docker://"[i] || raw[i] == "DOCKER://"[i]
    {
      LowerIs(raw[i], DOCKER_PREFIX[i], "DOCKER://"[i], i);
    }
  }

  lemma LowerIs(c: char, lower: char, upper: char, i: nat)
    requires i < 9 && lower == "docker://"[i] && upper == "DOCKER://"[i]
    ensures Lower(c) == lower <==> c == lower || c == upper
  {
  }

  /** An SCP-style URL has a colon before every slash, and is not a Windows path on Windows. */
  lemma SCPPrefix(raw: string, windows: bool)
    ensures
      IsSCPSSHURL(raw, windows) <==>
        && (exists i :: 0 <= i < |raw| && raw[i] == ':' && forall k | 0 <= k < i :: raw[k] != '/')
        && !(windows && IsWindowsPath(raw))
  {
    var i := Scan(raw, {':', '/'});
    if i < |raw| && raw[i] == ':' { assert raw[i] == ':' && forall k | 0 <= k < i :: raw[k] != '/'; }
  }

  // ----- SCP-style SSH URLs -----

  function Power10(n: nat): nat { if n == 0 then 1 else 10 * Power10(n - 1) }

  lemma DigitIsItself(c: char)
    requires IsDigit(c)
    ensures AllDigits([c]) && Value([c]) == c as int - 48
  {
    assert [c][..0] == "";
  }

  lemma ValueOfMore(a: string, c: char)
    requires AllDigits(a) && IsDigit(c)
    ensures AllDigits(a + [c]) && Value(a + [c]) == 10 * Value(a) + (c as int - 48)
  {
    assert (a + [c])[..|a|] == a;
  }

  lemma Shifted(v: nat, p: nat, low: nat, digit: nat)
    ensures 10 * (v * p + low) + digit == v * (10 * p) + (10 * low + digit)
  {
    assert 10 * (v * p) == v * (10 * p);
  }

  lemma {:induction false} ValueOfBoth(a: string, b: string)
    requires AllDigits(a) && AllDigits(b)
    ensures AllDigits(a + b) && Value(a + b) == Value(a) * Power10(|b|) + Value(b)
    decreases |b|
  {
    if b == "" {
      assert a + b == a;
    } else {
      var front, c := b[..|b| - 1], b[|b| - 1];
      assert front + [c] == b && (a + front) + [c] == a + b;
      calc {
        Value(a + b);
        { ValueOfBoth(a, front); ValueOfMore(a + front, c); }
        10 * (Value(a) * Power10(|front|) + Value(front)) + (c as int - 48);
        { Shifted(Value(a), Power10(|front|), Value(front), c as int - 48); }
        Value(a) * (10 * Power10(|front|)) + (10 * Value(front) + (c as int - 48));
        { ValueOfMore(front, c); }
        Value(a) * Power10(|b|) + Value(b);
      }
    }
  }

  /** Decimal notation: a digit stands for itself, and text on the left weighs ten times as much
      for every digit on its right. */
  lemma ValueIsDecimal(a: string, b: string)
    requires AllDigits(a) && AllDigits(b)
    ensures AllDigits(a + b) && Value(a + b) == Value(a) * Power10(|b|) + Value(b)
    ensures |a| == 1 ==> Value(a) == a[0] as int - 48
  {
    ValueOfBoth(a, b);
    if |a| == 1 {
      DigitIsItself(a[0]);
      assert a == [a[0]];
    }
  }

  /** A tail with a port segment. */
  lemma PortSegment(user: string, host: string, digits: string, path: string)
    requires AllDigits(digits)
    ensures
      ParsePath(user, host, digits + ":" + path) ==
        if digits == "" || Value(digits) > 65535 then Err(InvalidPort)
        else if path == "" then Err(EmptyPath)
        else Ok(URL(SSH, user, host, Value(digits), path, map[]))
  {
    var tail := digits + ":" + path;
    assert tail[..|digits|] == digits && tail[|digits|] == ':' && tail[|digits| + 1..] == path;
    LeadingDigitsAt(tail, |digits|);
  }

  /** A tail without one. */
  lemma NoPortSegment(user: string, host: string, path: string)
    requires !StartsLikePort(path)
    ensures
      ParsePath(user, host, path) == if path == "" then Err(EmptyPath) else Ok(URL(SSH, user, host, 0, path, map[]))
  {
  }

  /** User, host and what follows are read off the text. */
  lemma SCPIsParsed(user: string, host: string, tail: string,
                    environment: map<string, string>, first: bool, windows: bool)
    requires Names(user, host)
    requires
      var raw := Authority(user, host) + ":" + tail;
      !IsDockerURL(raw) && IsSCPSSHURL(raw, windows)
    ensures Parse(Authority(user, host) + ":" + tail, environment, first, windows) == ParsePath(user, host, tail)
  {
    ParseParts(user, host, tail);
  }

  /** What is missing before the host's colon. */
  lemma SCPErrors(rest: string, tail: string)
    ensures ParseSCPSSH("@" + rest) == Err(EmptyUsername)
    ensures ParseSCPSSH(":" + tail) == Err(EmptyHostname)
    ensures rest != "" && ':' !in rest && '@' !in rest ==> ParseSCPSSH(rest) == Err(NoHostname)
  {
    ScanAt("@" + rest, {':', '@'}, 0);
    UserCases("@" + rest);
    ScanAt(":" + tail, {':', '@'}, 0);
    ScanAt(":" + tail, {':'}, 0);
    UserCases(":" + tail);
    if rest != "" && ':' !in rest && '@' !in rest {
      ScanAt(rest, {':', '@'}, |rest|);
      ScanAt(rest, {':'}, |rest|);
      UserCases(rest);
    }
  }

  // ----- Docker URLs -----

  /** What the text after the container's slash means as a path. */
  function PathAfterSlash(rest: string): string {
    if rest != "" && rest[0] == '~' then (if IsWindowsPath(rest[1..]) then rest[1..] else rest)
    else if IsWindowsPath(rest) then rest
    else "/" + rest
  }

  lemma TrimmedPathIs(rest: string)
    ensures TrimPath("/" + rest) == PathAfterSlash(rest)
  {
    var path := "/" + rest;
    assert path[1..] == rest;
    if rest != "" { assert path[1] == rest[0]; }
  }

  /** User, container and path are read off the text, whatever the case of the scheme. */
  lemma DockerIsParsed(prefix: string, user: string, container: string, rest: string,
                       environment: map<string, string>, first: bool, windows: bool)
    requires |prefix| == 9 && IsDockerURL(prefix)
    requires container != "" && '/' !in container && '/' !in user && '@' !in user
    requires user == "" ==> '@' !in container
    ensures
      var text := (if user != "" then user + "@" else "") + (container + ("/" + rest));
      Parse(prefix + text, environment, first, windows) ==
      Ok(URL(Docker, user, container, 0, PathAfterSlash(rest), LockIn(environment, first)))
  {
    var text := (if user != "" then user + "@" else "") + (container + ("/" + rest));
    var locked := LockIn(environment, first);
    AnyPrefix(prefix, text, environment, first, windows);
    ParseContainerParts(user, container, "/" + rest, locked);
    TrimmedPathIs(rest);
    if user != "" {
      ParseTextAt(user, container + ("/" + rest), locked);
    } else {
      Empty(container + ("/" + rest));
      ParseTextNoAt(container, "/" + rest, locked);
    }
  }

  lemma AnyPrefix(prefix: string, text: string, environment: map<string, string>, first: bool, windows: bool)
    requires |prefix| == 9 && IsDockerURL(prefix)
    ensures Parse(prefix + text, environment, first, windows) == ParseText(text, LockIn(environment, first))
  {
    var raw := prefix + text;
    assert raw[9..] == text;
    assert forall i | 0 <= i < 9 :: raw[i] == prefix[i];
  }

  /** Without a slash, or with nothing before it, there is no container. */
  lemma DockerErrors(user: string, rest: string, environment: map<string, string>)
    requires '/' !in rest || rest[0] == '/'
    ensures ParseContainer(user, rest, environment) == Err(EmptyContainer)
  {
    if '/' !in rest { ScanAt(rest, {'/'}, |rest|); } else if rest[0] == '/' { ScanAt(rest, {'/'}, 0); }
  }

  predicate IsDockerVariable(name: string) {
    || name == "DOCKER_HOST" || name == "DOCKER_TLS" || name == "DOCKER_TLS_VERIFY" || name == "DOCKER_CERT_PATH"
    || name == "DOCKER_CONTEXT" || name == "DOCKER_CONFIG" || name == "DOCKER_API_VERSION"
  }

  lemma VariablesAreKnown(name: string)
    ensures name in DOCKER_VARIABLES <==> IsDockerVariable(name)
  {
    assert DOCKER_VARIABLES[0] == "DOCKER_HOST" && DOCKER_VARIABLES[1] == "DOCKER_TLS"
        && DOCKER_VARIABLES[2] == "DOCKER_TLS_VERIFY" && DOCKER_VARIABLES[3] == "DOCKER_CERT_PATH"
        && DOCKER_VARIABLES[4] == "DOCKER_CONTEXT" && DOCKER_VARIABLES[5] == "DOCKER_CONFIG"
        && DOCKER_VARIABLES[6] == "DOCKER_API_VERSION" && |DOCKER_VARIABLES| == 7;
  }

  /** An accepted Docker URL has locked in exactly the Docker variables that are set, and an
      endpoint's own variant of a variable goes before the general one. */
  lemma EnvironmentIsLockedIn(raw: string, environment: map<string, string>, first: bool, windows: bool,
                              u: URL, name: string)
    requires Parse(raw, environment, first, windows) == Ok(u) && u.protocol.Docker?
    ensures
      var specific := (if first then "MUTAGEN_ALPHA_" else "MUTAGEN_BETA_") + name;
      if IsDockerVariable(name) && specific in environment then
        name in u.environment && u.environment[name] == environment[specific]
      else if IsDockerVariable(name) && name in environment then
        name in u.environment && u.environment[name] == environment[name]
      else name !in u.environment
  {
    AcceptedDocker(raw, environment, first, windows, u);
    AcceptedText(raw[|DOCKER_PREFIX|..], LockIn(environment, first), u);
    VariablesAreKnown(name);
  }
}
