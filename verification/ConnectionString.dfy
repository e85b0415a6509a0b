/**
 Canonical connection strings of the client module: parsing by the module's two regular
 expressions, the effective port, and the string that is formed from the parts.
 */
module ConnectionString {
  import opened Wrappers

  const OLD_PREFIX := "daq.ws://"
  const PREFIX := "daq.lt://"
  const SECURE_PREFIX := "daq.lts://"
  const DEFAULT_PORT := 7414
  const DEFAULT_SECURE_PORT := 7415
  const MAX_INT := 2147483647
  const PORTS := 65536

  // ----- characters ----------------------------------------------------------------------

  predicate Digit(c: char)
  {
    '0' <= c <= '9'
  }

  predicate Space(c: char)
  {
    c == ' ' || '\t' <= c <= '\r'
  }

  predicate HostChar(c: char)
  {
    c != ':' && c != '/' && !Space(c)
  }

  predicate HexOrColon(c: char)
  {
    Digit(c) || 'a' <= c <= 'f' || 'A' <= c <= 'F' || c == ':'
  }

  /** The character class of a zone id contains the range from '.' to '~', and with it everything else it lists. */
  predicate ZoneChar(c: char)
  {
    '.' <= c <= '~'
  }

  predicate AllDigits(s: string)
  {
    forall i :: 0 <= i < |s| ==> Digit(s[i])
  }

  /** A dot matches any character that does not end a line. */
  predicate OneLine(s: string)
  {
    forall i :: 0 <= i < |s| ==> s[i] != '\n' && s[i] != '\r'
  }

  // ----- matching ------------------------------------------------------------------------

  datatype Family = Ipv6 | Ipv4

  /** `.+://` */
  predicate IsPrefix(s: string)
  {
    |s| >= 4 && s[|s| - 3..] == "://" && OneLine(s)
  }

  /** Between the brackets: an address, and possibly '%' and a zone id. */
  predicate IsAddress(s: string)
  {
    || (s != "" && forall i :: 0 <= i < |s| ==> HexOrColon(s[i]))
    || (exists p :: 0 < p < |s| - 1 && ZoneAt(s, p))
  }

  predicate ZoneAt(s: string, p: int)
    requires 0 <= p < |s|
  {
    && s[p] == '%'
    && (forall i :: 0 <= i < p ==> HexOrColon(s[i]))
    && (forall i :: p < i < |s| ==> ZoneChar(s[i]))
  }

  predicate IsHost(family: Family, s: string)
  {
    match family
    case Ipv6 => |s| >= 3 && s[0] == '[' && s[|s| - 1] == ']' && IsAddress(s[1..|s| - 1])
    case Ipv4 => s != "" && forall i :: 0 <= i < |s| ==> HostChar(s[i])
  }

  /** `/.*` or nothing, up to the end */
  predicate IsPath(s: string)
  {
    s == "" || (s[0] == '/' && OneLine(s))
  }

  /** The number of digits `s` starts with. */
  function DigitRun(s: string): (n: nat)
    ensures n <= |s| && AllDigits(s[..n]) && (n < |s| ==> !Digit(s[n]))
  {
    if s == "" || !Digit(s[0]) then 0 else 1 + DigitRun(s[1..])
  }

  /** What follows the host: a port, or not, and a path, or not. */
  datatype Rest = Rest(port: Option<string>, path: string)

  function ParseRest(s: string): (rest: Option<Rest>)
    ensures rest.Some? && rest.value.port.Some? ==> AllDigits(rest.value.port.value)
  {
    if s != "" && s[0] == ':' then
      var n := DigitRun(s[1..]);
      assert s[1..1 + n] == s[1..][..n];
      if n > 0 && IsPath(s[1 + n..]) then Some(Rest(Some(s[1..1 + n]), s[1 + n..])) else None
    else if IsPath(s) then
      Some(Rest(None, s))
    else
      None
  }

  /** A way to match: the prefix ends at `k` (0 without one), the host at `e`. */
  predicate Match(family: Family, s: string, k: nat, e: nat)
  {
    k <= e <= |s| && (k == 0 || IsPrefix(s[..k])) && IsHost(family, s[k..e]) && ParseRest(s[e..]).Some?
  }

  /** Matching is greedy: the longest host is preferred. */
  function LongestHost(family: Family, s: string, k: nat, e: nat): (found: Option<nat>)
    requires k <= e <= |s|
    decreases e
  {
    if Match(family, s, k, e) then Some(e)
    else if e == k then None
    else LongestHost(family, s, k, e - 1)
  }

  lemma {:induction false} LongestHostFound(family: Family, s: string, k: nat, e: nat)
    requires k <= e <= |s|
    ensures
      var found := LongestHost(family, s, k, e);
      && (found.Some? ==> k <= found.value <= e && Match(family, s, k, found.value))
      && forall other :: (if found.Some? then found.value < other else k <= other) && other <= e ==> !Match(family, s, k, other)
    decreases e
  {
    hide Match;
    if !Match(family, s, k, e) && e > k {
      LongestHostFound(family, s, k, e - 1);
    }
  }

  /** The longest prefix is preferred first. */
  function LongestMatch(family: Family, s: string, k: nat): (found: Option<(nat, nat)>)
    requires k <= |s|
    decreases k
  {
    var host := LongestHost(family, s, k, |s|);
    if host.Some? then Some((k, host.value))
    else if k == 0 then None
    else LongestMatch(family, s, k - 1)
  }

  /** A match before which no other is preferred. */
  ghost predicate Greediest(family: Family, s: string, k: nat, e: nat)
  {
    && Match(family, s, k, e)
    && forall other: nat, end: nat :: Match(family, s, other, end) ==> other < k || (other == k && end <= e)
  }

  lemma MatchBounds(family: Family, s: string, k: nat, e: nat)
    requires Match(family, s, k, e)
    ensures k <= e <= |s|
  {
  }

  lemma {:induction false} LongestMatchFound(family: Family, s: string, k: nat)
    requires k <= |s| && forall other: nat, end: nat :: Match(family, s, other, end) ==> other <= k
    ensures
      var found := LongestMatch(family, s, k);
      && (found.Some? ==> found.value.0 <= found.value.1 <= |s| && Greediest(family, s, found.value.0, found.value.1))
      && (found.None? ==> forall other: nat, end: nat :: !Match(family, s, other, end))
    decreases k
  {
    hide Match, LongestHost;
    LongestHostFound(family, s, k, |s|);
    var host := LongestHost(family, s, k, |s|);
    forall other: nat, end: nat | Match(family, s, other, end)
      ensures other <= end <= |s| && (host.None? ==> other != k) && (host.Some? && other == k ==> end <= host.value)
    {
      MatchBounds(family, s, other, end);
    }
    if host.None? && k > 0 {
      LongestMatchFound(family, s, k - 1);
    }
  }

  /** The search finds the preferred match, and fails only if there is none. */
  lemma SearchIsGreedy(family: Family, s: string)
    ensures
      var found := LongestMatch(family, s, |s|);
      && (found.Some? ==> found.value.0 <= found.value.1 <= |s| && Greediest(family, s, found.value.0, found.value.1))
      && (found.None? ==> forall k: nat, e: nat :: !Match(family, s, k, e))
  {
    hide Match, LongestMatch;
    forall other: nat, end: nat | Match(family, s, other, end)
      ensures other <= |s|
    {
      MatchBounds(family, s, other, end);
    }
    LongestMatchFound(family, s, |s|);
  }

  lemma GreediestUnique(family: Family, s: string, k: nat, e: nat, other: nat, end: nat)
    requires Greediest(family, s, k, e) && Greediest(family, s, other, end)
    ensures k == other && e == end
  {
    hide Match;
  }

  datatype Parts = Parts(prefix: string, host: string, port: Option<string>, path: string)

  function PartsAt(s: string, k: nat, e: nat): Parts
    requires k <= e <= |s| && ParseRest(s[e..]).Some?
  {
    var rest := ParseRest(s[e..]).value;
    Parts(s[..k], s[k..e], rest.port, rest.path)
  }

  /** The IPv6 expression is tried first. */
  function Parse(s: string): Option<Parts>
  {
    SearchIsGreedy(Ipv6, s);
    SearchIsGreedy(Ipv4, s);
    var v6 := LongestMatch(Ipv6, s, |s|);
    if v6.Some? then
      Some(PartsAt(s, v6.value.0, v6.value.1))
    else
      var v4 := LongestMatch(Ipv4, s, |s|);
      if v4.Some? then Some(PartsAt(s, v4.value.0, v4.value.1)) else None
  }

  // ----- ports ---------------------------------------------------------------------------

  function Value(digits: string): (n: nat)
    requires AllDigits(digits)
  {
    if digits == "" then 0
    else 10 * Value(digits[..|digits| - 1]) + (digits[|digits| - 1] - '0') as nat
  }

  function Decimal(n: nat): (digits: string)
    ensures digits != "" && AllDigits(digits)
  {
    if n < 10 then [('0' as int + n) as char] else Decimal(n / 10) + [('0' as int + n % 10) as char]
  }

  lemma {:induction false} DecimalValue(n: nat)
    ensures Value(Decimal(n)) == n
  {
    var digits := Decimal(n);
    if n < 10 {
      assert digits[..0] == "";
    } else {
      DecimalValue(n / 10);
      assert digits[..|digits| - 1] == Decimal(n / 10);
    }
  }

  // ----- forming the canonical string ----------------------------------------------------

  /** The text starts with `w` at position `i`. */
  predicate At(w: string, s: string, i: nat)
  {
    i + |w| <= |s| && s[i..i + |w|] == w
  }

  predicate Occurs(w: string, s: string)
  {
    exists i :: 0 <= i <= |s| && At(w, s, i)
  }

  /** Replaces every old prefix by the new one, from left to right. */
  function NewStyle(s: string): string
    decreases |s|
  {
    if s == "" then ""
    else if OLD_PREFIX <= s then PREFIX + NewStyle(s[|OLD_PREFIX|..])
    else [s[0]] + NewStyle(s[1..])
  }

  datatype Parameters = Parameters(prefix: string, host: string, port: nat, path: string)

  datatype Error = Unparsable | PortOverflow

  /** The ports that a configuration holds for plain and for secure connections, if any. */
  datatype Config = Config(port: Option<int>, securePort: Option<int>)

  function DefaultPort(secure: bool): nat
  {
    if secure then DEFAULT_SECURE_PORT else DEFAULT_PORT
  }

  /** The port as the text and the configuration determine it, and whether the string shows it. */
  function EffectivePort(typed: Option<nat>, configured: Option<int>, secure: bool): (nat, bool)
  {
    var given := if typed.Some? then typed.value % PORTS else 0;
    var fromConfig := given == 0 && configured.Some?;
    var port := if fromConfig then configured.value % PORTS else given;
    (if port == 0 then DefaultPort(secure) else port,
     typed.Some? || (fromConfig && port != DefaultPort(secure)))
  }

  function PortText(shown: bool, port: nat): string
  {
    if shown then ":" + Decimal(port) else ""
  }

  function FormFrom(parts: Parts, configured: Option<int>, secure: bool): Result<(string, Parameters), Error>
    requires parts.port.Some? ==> AllDigits(parts.port.value)
  {
    if parts.port.Some? && Value(parts.port.value) > MAX_INT then
      Err(PortOverflow)
    else
      var typed := if parts.port.Some? then Some(Value(parts.port.value)) else None;
      var (port, shown) := EffectivePort(typed, configured, secure);
      Ok((parts.prefix + parts.host + PortText(shown, port) + parts.path, Parameters(parts.prefix, parts.host, port, parts.path)))
  }

  lemma ParsedPort(s: string)
    ensures Parse(s).Some? && Parse(s).value.port.Some? ==> AllDigits(Parse(s).value.port.value)
  {
    hide LongestMatch;
    SearchIsGreedy(Ipv6, s);
    SearchIsGreedy(Ipv4, s);
  }

  function Configured(config: Config, secure: bool): Option<int>
  {
    if secure then config.securePort else config.port
  }

  function Form(input: string, config: Config): Result<(string, Parameters), Error>
  {
    var url := NewStyle(input);
    var parsed := Parse(url);
    var secure := Occurs(SECURE_PREFIX, url);
    ParsedPort(url);
    if parsed.None? then Err(Unparsable) else FormFrom(parsed.value, Configured(config, secure), secure)
  }

  /** The steps of the module, which fills in parameters and flags one by one. */
  method FormConnectionString(input: string, config: Config) returns (result: Result<(string, Parameters), Error>)
    ensures result == Form(input, config)
  {
    hide Parse, Occurs, NewStyle, Decimal, Value;
    var url := NewStyle(input);
    var secure := Occurs(SECURE_PREFIX, url);
    var parsed := Parse(url);
    ParsedPort(url);
    if parsed.None? {
      return Err(Unparsable);
    }
    var prefix, host, port: nat, path := parsed.value.prefix, parsed.value.host, 0, parsed.value.path;
    var portFromConfig, portFromConfigIsDefault := false, false;
    if parsed.value.port.Some? {
      var typed := Value(parsed.value.port.value);
      if typed > MAX_INT {
        return Err(PortOverflow);
      }
      port := typed % PORTS;
    }
    if port == 0 {
      if secure && config.securePort.Some? {
        portFromConfig := true;
        port := config.securePort.value % PORTS;
        portFromConfigIsDefault := port == DEFAULT_SECURE_PORT;
      } else if !secure && config.port.Some? {
        portFromConfig := true;
        port := config.port.value % PORTS;
        portFromConfigIsDefault := port == DEFAULT_PORT;
      }
    }
    if port == 0 {
      port := if secure then DEFAULT_SECURE_PORT else DEFAULT_PORT;
    }
    var output := prefix + host;
    if parsed.value.port.Some? || (portFromConfig && !portFromConfigIsDefault) {
      output := output + (":" + Decimal(port));
    } else {
      assert output == output + "";
    }
    output := output + path;
    result := Ok((output, Parameters(prefix, host, port, path)));
  }

  // ----- the old prefix ------------------------------------------------------------------

  lemma FirstKept(s: string)
    requires NewStyle(s) != "" && NewStyle(s)[0] != 'd'
    ensures s != "" && NewStyle(s) == [s[0]] + NewStyle(s[1..])
  {
  }

  /** Text without a 'd', with which the replacement starts, was there before. */
  lemma {:induction false} KeptStart(w: string, s: string)
    requires w <= NewStyle(s) && 'd' !in w
    ensures w <= s
  {
    if w != "" {
      assert w[0] in w;
      FirstKept(s);
      assert w[1..] <= NewStyle(s[1..]) by {
        assert w[1..] == NewStyle(s)[..|w|][1..];
      }
      KeptStart(w[1..], s[1..]);
      assert w == [w[0]] + w[1..] && s == [s[0]] + s[1..];
    }
  }

  /** After the replacement no old prefix is left. */
  lemma {:induction false} NoOldPrefix(s: string)
    ensures !Occurs(OLD_PREFIX, NewStyle(s))
    decreases |s|
  {
    if s != "" {
      if OLD_PREFIX <= s {
        NoOldPrefix(s[|OLD_PREFIX|..]);
        NoneAcross(NewStyle(s[|OLD_PREFIX|..]));
      } else {
        NoOldPrefix(s[1..]);
        NoneAtStart(s);
        NoneBefore(s[0], NewStyle(s[1..]));
      }
    }
  }

  lemma NoneAtStart(s: string)
    requires s != "" && !(OLD_PREFIX <= s)
    ensures !At(OLD_PREFIX, [s[0]] + NewStyle(s[1..]), 0)
  {
    var t := [s[0]] + NewStyle(s[1..]);
    if At(OLD_PREFIX, t, 0) {
      assert OLD_PREFIX[1..] == "aq.ws://";
      assert OLD_PREFIX[1..] == t[..|OLD_PREFIX|][1..] == NewStyle(s[1..])[..|OLD_PREFIX| - 1];
      KeptStart(OLD_PREFIX[1..], s[1..]);
    }
  }

  lemma NoneBefore(c: char, t: string)
    requires !Occurs(OLD_PREFIX, t) && !At(OLD_PREFIX, [c] + t, 0)
    ensures !Occurs(OLD_PREFIX, [c] + t)
  {
    forall i | 0 <= i <= |[c] + t|
      ensures !At(OLD_PREFIX, [c] + t, i)
    {
      if i > 0 && At(OLD_PREFIX, [c] + t, i) {
        assert ([c] + t)[i..i + |OLD_PREFIX|] == t[i - 1..i - 1 + |OLD_PREFIX|];
        assert At(OLD_PREFIX, t, i - 1);
      }
    }
  }

  /** No old prefix overlaps a new one. */
  lemma NoneAcross(t: string)
    requires !Occurs(OLD_PREFIX, t)
    ensures !Occurs(OLD_PREFIX, PREFIX + t)
  {
    var u := PREFIX + t;
    forall i | 0 <= i <= |u|
      ensures !At(OLD_PREFIX, u, i)
    {
      if At(OLD_PREFIX, u, i) {
        assert u[i] == u[i..i + |OLD_PREFIX|][0] == 'd';
        assert u[i + 4] == u[i..i + |OLD_PREFIX|][4] == 'w';
        if i >= |PREFIX| {
          assert u[i..i + |OLD_PREFIX|] == t[i - |PREFIX|..i - |PREFIX| + |OLD_PREFIX|];
          assert At(OLD_PREFIX, t, i - |PREFIX|);
        }
      }
    }
  }

  lemma {:induction false} NewStyleKeeps(s: string)
    requires !Occurs(OLD_PREFIX, s)
    ensures NewStyle(s) == s
    decreases |s|
  {
    if s != "" {
      assert OLD_PREFIX <= s ==> At(OLD_PREFIX, s, 0);
      forall i | 0 <= i <= |s[1..]|
        ensures !At(OLD_PREFIX, s[1..], i)
      {
        if At(OLD_PREFIX, s[1..], i) {
          assert s[1..][i..i + |OLD_PREFIX|] == s[i + 1..i + 1 + |OLD_PREFIX|];
          assert At(OLD_PREFIX, s, i + 1);
        }
      }
      NewStyleKeeps(s[1..]);
      assert s == [s[0]] + s[1..];
    }
  }

  // ----- another port in the middle ------------------------------------------------------

  predicate IsPortText(s: string)
  {
    |s| >= 2 && s[0] == ':' && AllDigits(s[1..])
  }

  /** No end of the text is a colon and digits. */
  ghost predicate NoPortAtEnd(s: string)
  {
    forall i :: 0 <= i < |s| && s[i] == ':' ==> !AllDigits(s[i + 1..])
  }

  /** A text that ends with a host. */
  ghost predicate HostLast(s: string)
  {
    s != "" && s[|s| - 1] != ':' && s[|s| - 1] != '/' && NoPortAtEnd(s)
  }

  /** Prefix and host, then a port or nothing, then a path or nothing. */
  ghost predicate Joined(left: string, mid: string, right: string)
  {
    HostLast(left) && (mid == "" || IsPortText(mid)) && IsPath(right)
  }

  lemma DigitRunIs(s: string, n: nat)
    requires n <= |s| && AllDigits(s[..n]) && (n < |s| ==> !Digit(s[n]))
    ensures DigitRun(s) == n
  {
    var m := DigitRun(s);
    forall i | 0 <= i < n || 0 <= i < m
      ensures Digit(s[i])
    {
      assert i < n ==> s[i] == s[..n][i];
      assert i < m ==> s[i] == s[..m][i];
    }
  }

  /** After the host, the port and the path are what was put there. */
  lemma RestOfMiddle(mid: string, right: string)
    requires (mid == "" || IsPortText(mid)) && IsPath(right)
    ensures ParseRest(mid + right) == Some(Rest(if mid == "" then None else Some(mid[1..]), right))
  {
    if mid == "" {
      assert mid + right == right;
    } else {
      var s := mid + right;
      assert s[1..][..|mid| - 1] == mid[1..];
      DigitRunIs(s[1..], |mid| - 1);
      assert s[1..|mid|] == mid[1..] && s[|mid|..] == right;
    }
  }

  lemma OneLineJoined(a: string, b: string, c: string)
    ensures OneLine(a + b + c) <==> OneLine(a) && OneLine(b) && OneLine(c)
  {
    var s := a + b + c;
    if OneLine(s) {
      assert forall i :: 0 <= i < |a| ==> a[i] == s[i];
      assert forall i :: 0 <= i < |b| ==> b[i] == s[|a| + i];
      assert forall i :: 0 <= i < |c| ==> c[i] == s[|a| + |b| + i];
    }
  }

  lemma PathMoves(y: string, mid: string, other: string, right: string)
    requires y != "" && IsPath(y + mid + right) && OneLine(other)
    ensures IsPath(y + other + right)
  {
    OneLineJoined(y, mid, right);
    OneLineJoined(y, other, right);
  }

  /** A port that ends inside `z` is read in the same way whatever follows `z`. */
  lemma PortInside(z: string, n: nat, mid: string, right: string)
    requires z != "" && z[0] == ':' && n == DigitRun(z[1..]) && n < |z[1..]|
    ensures ParseRest(z + mid + right).Some? <==> n > 0 && IsPath(z[1 + n..] + mid + right)
  {
    var s := z + mid + right;
    assert s == z + (mid + right);
    DigitRunMoves(z, n, mid + right);
    assert s[1 + n..] == z[1 + n..] + mid + right;
  }

  lemma PortTextIsOneLine(s: string)
    requires s == "" || IsPortText(s)
    ensures OneLine(s)
  {
    assert s != "" ==> s == [':'] + s[1..];
  }

  lemma ColonMoves(z: string, mid: string, other: string, right: string)
    requires HostLast(z) && z[0] == ':' && OneLine(other) && ParseRest(z + mid + right).Some?
    ensures ParseRest(z + other + right).Some?
  {
    assert !AllDigits(z[1..]);
    assert z[1..][..|z| - 1] == z[1..];
    var n := DigitRun(z[1..]);
    hide ParseRest, DigitRun, IsPath, OneLine, HostLast;
    PortInside(z, n, mid, right);
    PortInside(z, n, other, right);
    if n > 0 {
      PathMoves(z[1 + n..], mid, other, right);
    }
  }

  lemma NoColonRest(s: string)
    requires s != "" && s[0] != ':'
    ensures ParseRest(s).Some? <==> IsPath(s)
  {
  }

  /** The host could end where it does with one port: it can with the other. */
  lemma RestMoves(z: string, mid: string, other: string, right: string)
    requires z != "" ==> HostLast(z)
    requires (mid == "" || IsPortText(mid)) && (other == "" || IsPortText(other)) && IsPath(right)
    requires ParseRest(z + mid + right).Some?
    ensures ParseRest(z + other + right).Some?
  {
    hide ParseRest, DigitRun, IsPath, OneLine, HostLast, IsPortText;
    PortTextIsOneLine(other);
    if z == "" {
      assert z + other + right == other + right;
      RestOfMiddle(other, right);
    } else if z[0] == ':' {
      ColonMoves(z, mid, other, right);
    } else {
      NoColonRest(z + mid + right);
      NoColonRest(z + other + right);
      PathMoves(z, mid, other, right);
    }
  }

  lemma DigitRunMoves(z: string, n: nat, more: string)
    requires z != "" && n == DigitRun(z[1..]) && n < |z[1..]|
    ensures DigitRun((z + more)[1..]) == n
  {
    assert (z + more)[1..] == z[1..] + more;
    assert (z[1..] + more)[..n] == z[1..][..n];
    DigitRunIs(z[1..] + more, n);
  }

  lemma PortChars(left: string, mid: string, right: string)
    requires mid == "" || IsPortText(mid)
    ensures
      var s := left + mid + right;
      forall i :: |left| <= i < |left| + |mid| ==> if i == |left| then s[i] == ':' else Digit(s[i])
  {
    var s := left + mid + right;
    forall i | |left| < i < |left| + |mid|
      ensures Digit(s[i])
    {
      assert s[i] == mid[1..][i - |left| - 1];
    }
  }

  /** An IPv6 host can only reach into the path through its zone id, which may contain any port. */
  lemma HostSpans(y: string, mid: string, other: string, r: string)
    requires y != "" && r != "" && r[0] == '/'
    requires (mid == "" || IsPortText(mid)) && (other == "" || IsPortText(other))
    requires IsHost(Ipv6, y + mid + r)
    ensures IsHost(Ipv6, y + other + r)
  {
    var h := y + mid + r;
    var inner := h[1..|h| - 1];
    var slash := |y| - 1 + |mid|;
    assert inner[slash] == '/';
    var p :| 0 < p < |inner| - 1 && ZoneAt(inner, p);
    PortChars(y, mid, r);
    assert forall i :: 0 <= i < |inner| ==> inner[i] == h[i + 1];
    assert p < |y| - 1;
    var h2 := y + other + r;
    var inner2 := h2[1..|h2| - 1];
    ZoneMoves(y, mid, other, r, inner, inner2, p);
  }

  lemma ZoneMoves(y: string, mid: string, other: string, r: string, inner: string, inner2: string, p: nat)
    requires |r| >= 2 && p + 1 < |y| && (other == "" || IsPortText(other))
    requires inner == (y + mid + r)[1..|y + mid + r| - 1] && inner2 == (y + other + r)[1..|y + other + r| - 1]
    requires ZoneAt(inner, p)
    ensures p < |inner2| - 1 && ZoneAt(inner2, p)
  {
    assert forall i :: 0 <= i < |y| - 1 ==> inner2[i] == y[i + 1] == inner[i];
    forall i | p < i < |inner2|
      ensures ZoneChar(inner2[i])
    {
      if i < |y| - 1 {
      } else if i < |y| - 1 + |other| {
        assert inner2[i] == other[i - |y| + 1];
        assert i - |y| + 1 > 0 ==> inner2[i] == other[1..][i - |y|];
      } else {
        assert inner2[i] == r[i - |y| + 1 - |other|] == inner[i - |other| + |mid|];
      }
    }
  }

  /** Where a position goes when another port is put in the middle. */
  function Moved(left: string, mid: string, other: string, p: nat): int
  {
    if p <= |left| then p else p - |mid| + |other|
  }

  /** A prefix ends inside the left part or inside the path. */
  lemma PrefixPlace(left: string, mid: string, right: string, k: nat)
    requires Joined(left, mid, right) && k <= |left + mid + right| && IsPrefix((left + mid + right)[..k])
    ensures k < |left| || k >= |left| + |mid| + 3
  {
    var s := left + mid + right;
    assert s[..k][k - 3..] == s[k - 3..k];
    assert s[k - 3] == s[k - 3..k][0] == ':' && s[k - 2] == s[k - 3..k][1] == '/' && s[k - 1] == s[k - 3..k][2] == '/';
    assert s[|left| - 1] == left[|left| - 1];
    PortChars(left, mid, right);
  }

  lemma PrefixMoves(left: string, mid: string, other: string, right: string, k: nat)
    requires Joined(left, mid, right) && Joined(left, other, right)
    requires k <= |left + mid + right| && IsPrefix((left + mid + right)[..k])
    ensures
      var moved := Moved(left, mid, other, k);
      0 <= moved <= |left + other + right| && IsPrefix((left + other + right)[..moved])
  {
    PrefixPlace(left, mid, right, k);
    var s, t := left + mid + right, left + other + right;
    if k < |left| {
      assert s[..k] == left[..k] == t[..k];
    } else {
      var moved := k - |mid| + |other|;
      var r := right[..k - |left| - |mid|];
      assert s[..k] == left + mid + r && t[..moved] == left + other + r;
      OneLineJoined(left, mid, r);
      OneLineJoined(left, other, r);
      assert OneLine(other) by {
        if other != "" {
          assert other == [':'] + other[1..];
        }
      }
      assert (left + mid + r)[k - 3..] == r[|r| - 3..] == (left + other + r)[moved - 3..];
    }
  }

  /** A host that reaches beyond the left part is an IPv6 literal that ends in the path. */
  lemma HostPlace(family: Family, left: string, mid: string, right: string, k: nat, e: nat)
    requires Joined(left, mid, right) && k < |left| < e <= |left + mid + right|
    requires IsHost(family, (left + mid + right)[k..e])
    ensures family == Ipv6 && e > |left| + |mid| && right[0] == '/'
  {
    var s := left + mid + right;
    PortChars(left, mid, right);
    var h := s[k..e];
    assert h[|left| - k] == s[|left|] && h[|h| - 1] == s[e - 1];
    assert mid == "" ==> s[|left|] == right[0];
  }

  lemma HostMoves(family: Family, left: string, mid: string, other: string, right: string, k: nat, e: nat)
    requires Joined(left, mid, right) && Joined(left, other, right)
    requires k < |left| && k <= e <= |left + mid + right| && IsHost(family, (left + mid + right)[k..e])
    ensures e <= |left| || e > |left| + |mid|
    ensures
      var moved := Moved(left, mid, other, e);
      k <= moved <= |left + other + right| && IsHost(family, (left + other + right)[k..moved])
  {
    hide IsHost;
    var s, t := left + mid + right, left + other + right;
    if e <= |left| {
      assert s[k..e] == left[k..e] == t[k..e];
    } else {
      HostPlace(family, left, mid, right, k, e);
      hide IsHost, HostLast, IsPath;
      var n := e - |left| - |mid|;
      SliceAcross(left, mid, right, k, n);
      SliceAcross(left, other, right, k, n);
      HostSpans(left[k..], mid, other, right[..n]);
    }
  }

  lemma SliceAcross(left: string, mid: string, right: string, k: nat, n: nat)
    requires k <= |left| && n <= |right|
    ensures (left + mid + right)[k..|left| + |mid| + n] == left[k..] + mid + right[..n]
  {
  }

  lemma SuffixIsHostLast(left: string, e: nat)
    requires HostLast(left) && e < |left|
    ensures HostLast(left[e..])
  {
    var z := left[e..];
    forall i | 0 <= i < |z| && z[i] == ':'
      ensures !AllDigits(z[i + 1..])
    {
      assert z[i + 1..] == left[e + i + 1..];
    }
  }

  /** A position outside the port. */
  predicate Outside(left: string, mid: string, p: nat)
  {
    p <= |left| || p > |left| + |mid|
  }

  lemma RestMovesAt(left: string, mid: string, other: string, right: string, e: nat)
    requires Joined(left, mid, right) && Joined(left, other, right)
    requires e <= |left + mid + right| && Outside(left, mid, e) && ParseRest((left + mid + right)[e..]).Some?
    ensures
      var moved := Moved(left, mid, other, e);
      0 <= moved <= |left + other + right| && ParseRest((left + other + right)[moved..]).Some?
  {
    hide ParseRest;
    var s, t := left + mid + right, left + other + right;
    if e <= |left| {
      var z := left[e..];
      if e < |left| {
        SuffixIsHostLast(left, e);
      }
      assert s[e..] == z + mid + right && t[e..] == z + other + right;
      RestMoves(z, mid, other, right);
    } else {
      assert s[e..] == right[e - |left| - |mid|..] == t[e - |mid| + |other|..];
    }
  }

  lemma TextInPath(left: string, mid: string, other: string, right: string, k: nat, e: nat)
    requires |left| + |mid| <= k <= e <= |left + mid + right| && k > |left|
    ensures |left| + |other| <= Moved(left, mid, other, k) <= Moved(left, mid, other, e) <= |left + other + right|
    ensures (left + mid + right)[k..e] == (left + other + right)[Moved(left, mid, other, k)..Moved(left, mid, other, e)]
  {
    var shift := |left| + |mid|;
    assert (left + mid + right)[k..e] == right[k - shift..e - shift];
    assert (left + other + right)[k - |mid| + |other|..e - |mid| + |other|] == right[k - shift..e - shift];
  }

  /** Every way to match with one port is a way to match with the other. */
  lemma MatchMoves(family: Family, left: string, mid: string, other: string, right: string, k: nat, e: nat)
    requires Joined(left, mid, right) && Joined(left, other, right)
    requires Match(family, left + mid + right, k, e)
    ensures
      var k2, e2 := Moved(left, mid, other, k), Moved(left, mid, other, e);
      k2 >= 0 && e2 >= 0 && Match(family, left + other + right, k2, e2)
    ensures Outside(left, mid, k) && Outside(left, mid, e)
  {
    hide IsHost, IsPrefix, ParseRest, IsPath, NoPortAtEnd, IsPortText;
    if k > 0 {
      PrefixPlace(left, mid, right, k);
      PrefixMoves(left, mid, other, right, k);
    }
    if k < |left| {
      HostMoves(family, left, mid, other, right, k, e);
    } else {
      TextInPath(left, mid, other, right, k, e);
    }
    RestMovesAt(left, mid, other, right, e);
  }

  /** The preferred match with one port, if it ends at the left part's end, is the preferred one with the other. */
  lemma GreediestMoves(family: Family, left: string, mid: string, other: string, right: string, k: nat)
    requires Joined(left, mid, right) && Joined(left, other, right) && k <= |left|
    requires Greediest(family, left + mid + right, k, |left|)
    ensures Greediest(family, left + other + right, k, |left|)
  {
    hide Match, Joined;
    MatchMoves(family, left, mid, other, right, k, |left|);
    forall k2: nat, e2: nat | Match(family, left + other + right, k2, e2)
      ensures k2 < k || (k2 == k && e2 <= |left|)
    {
      MatchMoves(family, left, other, mid, right, k2, e2);
    }
  }

  lemma NoMatchMoves(family: Family, left: string, mid: string, other: string, right: string)
    requires Joined(left, mid, right) && Joined(left, other, right)
    requires forall k: nat, e: nat :: !Match(family, left + mid + right, k, e)
    ensures forall k: nat, e: nat :: !Match(family, left + other + right, k, e)
  {
    hide Match, Joined;
    forall k: nat, e: nat | Match(family, left + other + right, k, e)
      ensures false
    {
      MatchMoves(family, left, other, mid, right, k, e);
    }
  }

  // ----- prefixes are found where they were ----------------------------------------------

  /** Texts like "daq.lt://" cannot overlap a port or the place where a host ends. */
  predicate SchemeLike(w: string)
  {
    && w != "" && w[0] != ':' && w[0] != '/'
    && (forall j :: 0 <= j < |w| ==> !Digit(w[j]))
    && (forall j :: 0 <= j < |w| && w[j] == ':' ==> j + 1 < |w| && w[j + 1] == '/')
    && (forall j :: 0 < j < |w| && w[j] == '/' ==> w[j - 1] == ':' || w[j - 1] == '/')
  }

  /** The host does not end inside an occurrence. */
  lemma NotAcross(w: string, left: string, mid: string, right: string, i: nat, j: nat)
    requires SchemeLike(w) && Joined(left, mid, right) && At(w, left + mid + right, i) && 0 < j < |w|
    ensures i + j != |left|
  {
    var s := left + mid + right;
    assert forall j :: 0 <= j < |w| ==> w[j] == s[i..i + |w|][j];
    PortChars(left, mid, right);
    assert s[|left| - 1] == left[|left| - 1];
    assert mid == "" && |left| < |s| ==> s[|left|] == right[0];
    assert w[j - 1] == s[i + j - 1] && w[j] == s[i + j];
    assert j + 1 < |w| ==> w[j + 1] == s[i + j + 1];
  }

  lemma OccurrencePlace(w: string, left: string, mid: string, right: string, i: nat)
    requires SchemeLike(w) && Joined(left, mid, right) && At(w, left + mid + right, i)
    ensures i + |w| <= |left| || i >= |left| + |mid|
  {
    var s := left + mid + right;
    PortChars(left, mid, right);
    assert w[0] == s[i..i + |w|][0] == s[i];
    if i < |left| < i + |w| {
      NotAcross(w, left, mid, right, i, |left| - i);
    }
  }

  lemma OccursMoves(w: string, left: string, mid: string, other: string, right: string)
    requires SchemeLike(w) && Joined(left, mid, right) && Joined(left, other, right)
    ensures Occurs(w, left + mid + right) ==> Occurs(w, left + other + right)
  {
    var s, t := left + mid + right, left + other + right;
    if Occurs(w, s) {
      var i :| 0 <= i <= |s| && At(w, s, i);
      OccurrencePlace(w, left, mid, right, i);
      hide Joined, SchemeLike;
      if i + |w| <= |left| {
        assert s[i..i + |w|] == left[i..i + |w|] == t[i..i + |w|];
        assert At(w, t, i);
      } else {
        var moved := i - |mid| + |other|;
        SliceOfEnd(left + mid, right, i, |w|);
        SliceOfEnd(left + other, right, moved, |w|);
        assert At(w, t, moved);
      }
    }
  }

  lemma SliceOfEnd(before: string, right: string, i: nat, n: nat)
    requires |before| <= i && i + n <= |before + right|
    ensures (before + right)[i..i + n] == right[i - |before|..i - |before| + n]
  {
  }

  // ----- canonical strings ---------------------------------------------------------------

  /** The text of a port as it was read. */
  function ReadPort(port: Option<string>): string
  {
    if port.Some? then ":" + port.value else ""
  }

  lemma RestIsWhole(s: string)
    requires ParseRest(s).Some?
    ensures
      var rest := ParseRest(s).value;
      && s == ReadPort(rest.port) + rest.path
      && IsPath(rest.path)
      && (rest.port.Some? ==> IsPortText(ReadPort(rest.port)))
  {
    if s != "" && s[0] == ':' {
      var n := DigitRun(s[1..]);
      assert s == [':'] + s[1..1 + n] + s[1 + n..];
      assert s[1..][..n] == s[1..1 + n];
    }
  }

  /** What comes before the port of a match ends with a host. */
  lemma MatchEndsWithHost(family: Family, s: string, k: nat, e: nat)
    requires Match(family, s, k, e)
    ensures HostLast(s[..e])
  {
    var left, host := s[..e], s[k..e];
    assert left == s[..k] + host;
    assert left[|left| - 1] == host[|host| - 1];
    assert forall i :: k <= i < |left| ==> left[i] == host[i - k];
    forall i | 0 <= i < |left| && left[i] == ':'
      ensures !AllDigits(left[i + 1..])
    {
      if family == Ipv6 {
        assert left[i + 1..][|left| - i - 2] == left[|left| - 1] == ']';
      } else {
        assert left[k - 1] == s[..k][k - 1] == s[..k][k - 3..][2] == '/';
        assert left[i + 1..][k - 2 - i] == left[k - 1];
      }
    }
  }

  /** Where a parse found its parts: the preferred match of the family that was tried last. */
  ghost predicate ParsedAt(s: string, family: Family, k: nat, e: nat)
  {
    && k <= e <= |s| && Greediest(family, s, k, e)
    && (family == Ipv4 ==> forall k2: nat, e2: nat :: !Match(Ipv6, s, k2, e2))
  }

  lemma ParseFindsMatch(s: string) returns (family: Family, k: nat, e: nat)
    requires Parse(s).Some?
    ensures ParsedAt(s, family, k, e) && ParseRest(s[e..]).Some? && Parse(s).value == PartsAt(s, k, e)
  {
    hide LongestMatch, IsHost, IsPrefix, ParseRest;
    SearchIsGreedy(Ipv6, s);
    SearchIsGreedy(Ipv4, s);
    var v6 := LongestMatch(Ipv6, s, |s|);
    if v6.Some? {
      family, k, e := Ipv6, v6.value.0, v6.value.1;
    } else {
      var v4 := LongestMatch(Ipv4, s, |s|);
      family, k, e := Ipv4, v4.value.0, v4.value.1;
    }
  }

  lemma MatchIsParsed(s: string, family: Family, k: nat, e: nat)
    requires ParsedAt(s, family, k, e)
    ensures ParseRest(s[e..]).Some? && Parse(s) == Some(PartsAt(s, k, e))
  {
    hide LongestMatch, IsHost, IsPrefix, ParseRest;
    SearchIsGreedy(Ipv6, s);
    SearchIsGreedy(Ipv4, s);
    var found := LongestMatch(family, s, |s|);
    assert Match(family, s, k, e);
    GreediestUnique(family, s, k, e, found.value.0, found.value.1);
  }

  /** Parsing with another port in its place gives the same prefix, host and path, and that port. */
  lemma ParseWithPort(left: string, mid: string, other: string, right: string, family: Family, k: nat)
    requires Joined(left, mid, right) && Joined(left, other, right) && k <= |left|
    requires ParsedAt(left + mid + right, family, k, |left|)
    ensures
      Parse(left + other + right)
      == Some(Parts(left[..k], left[k..], if other == "" then None else Some(other[1..]), right))
  {
    hide Match, Joined, Parse, Greediest, IsPath, IsPortText;
    var t := left + other + right;
    GreediestMoves(family, left, mid, other, right, k);
    if family == Ipv4 {
      NoMatchMoves(Ipv6, left, mid, other, right);
    }
    MatchIsParsed(t, family, k, |left|);
    assert t[|left|..] == other + right && t[..k] == left[..k] && t[k..|left|] == left[k..];
    JoinedRest(left, other, right);
  }

  lemma JoinedRest(left: string, other: string, right: string)
    requires Joined(left, other, right)
    ensures ParseRest(other + right) == Some(Rest(if other == "" then None else Some(other[1..]), right))
  {
    RestOfMiddle(other, right);
  }

  /** The new text names the same kind of connection, and has no old prefix either. */
  lemma SameScheme(left: string, mid: string, other: string, right: string)
    requires Joined(left, mid, right) && Joined(left, other, right)
    requires !Occurs(OLD_PREFIX, left + mid + right)
    ensures NewStyle(left + other + right) == left + other + right
    ensures Occurs(SECURE_PREFIX, left + other + right) <==> Occurs(SECURE_PREFIX, left + mid + right)
  {
    assert SchemeLike(OLD_PREFIX) && SchemeLike(SECURE_PREFIX);
    hide Occurs, Joined, SchemeLike;
    OccursMoves(OLD_PREFIX, left, other, mid, right);
    OccursMoves(SECURE_PREFIX, left, other, mid, right);
    OccursMoves(SECURE_PREFIX, left, mid, other, right);
    NewStyleKeeps(left + other + right);
  }

  /** A port that is shown is read back as the effective one. */
  lemma ShownPortStays(typed: Option<nat>, configured: Option<int>, secure: bool)
    ensures
      var (port, shown) := EffectivePort(typed, configured, secure);
      && 0 < port < PORTS
      && EffectivePort(Some(port), configured, secure) == (port, true)
  {
  }

  /** Without a shown port there was none in the text. */
  lemma NotShown(typed: Option<nat>, configured: Option<int>, secure: bool)
    requires !EffectivePort(typed, configured, secure).1
    ensures typed.None?
  {
  }

  lemma JoinsParts(url: string, k: nat, e: nat)
    requires k <= e <= |url| && HostLast(url[..e]) && ParseRest(url[e..]).Some?
    ensures
      var parts := PartsAt(url, k, e);
      && Joined(url[..e], ReadPort(parts.port), parts.path)
      && url == url[..e] + ReadPort(parts.port) + parts.path
      && url[..e] == parts.prefix + parts.host
  {
    hide HostLast, IsPath, IsPortText, ParseRest;
    RestIsWhole(url[e..]);
    var rest := ParseRest(url[e..]).value;
    assert url == url[..e] + (ReadPort(rest.port) + rest.path);
    assert rest.port.None? ==> ReadPort(rest.port) == "";
  }

  /** A string with the effective port in it is formed again from its own parts. */
  lemma FormsAgain(left: string, right: string, k: nat, port: nat, configured: Option<int>, secure: bool)
    requires k <= |left| && 0 < port < PORTS
    requires EffectivePort(Some(port), configured, secure) == (port, true)
    ensures
      var parts := Parts(left[..k], left[k..], Some(Decimal(port)), right);
      FormFrom(parts, configured, secure)
      == Ok((left + PortText(true, port) + right, Parameters(left[..k], left[k..], port, right)))
  {
    hide EffectivePort, Decimal;
    DecimalValue(port);
    assert left[..k] + left[k..] == left;
  }

  /**
   The canonical form of a canonical string is the string itself, and it stands for the same
   prefix, host, effective port and path as the string it was formed from.
   */
  lemma FormIsIdempotent(input: string, config: Config)
    requires Form(input, config).Ok?
    ensures
      var (output, params) := Form(input, config).value;
      Form(output, config) == Ok((output, params))
  {
    hide Parse, Occurs, NewStyle, Value, Decimal, EffectivePort;
    var url := NewStyle(input);
    var family, k, e := ParseFindsMatch(url);
    var parts := Parse(url).value;
    ParsedPort(url);
    var secure := Occurs(SECURE_PREFIX, url);
    var configured := Configured(config, secure);
    NoOldPrefix(input);
    var typed := if parts.port.Some? then Some(Value(parts.port.value)) else None;
    ShownPortStays(typed, configured, secure);
    var (port, shown) := EffectivePort(typed, configured, secure);
    var left, mid, right := url[..e], ReadPort(parts.port), parts.path;
    MatchEndsWithHost(family, url, k, e);
    JoinsParts(url, k, e);
    if shown {
      var other := PortText(true, port);
      assert Joined(left, other, right) by {
        assert other[1..] == Decimal(port);
      }
      ParseWithPort(left, mid, other, right, family, k);
      SameScheme(left, mid, other, right);
      DecimalValue(port);
      assert other[1..] == Decimal(port);
      FormsAgain(left, right, k, port, configured, secure);
    } else {
      NotShown(typed, configured, secure);
      assert url == parts.prefix + parts.host + PortText(false, port) + parts.path;
      NewStyleKeeps(url);
    }
  }

  /** The text holds a port as `typed`, if any; the output shows the effective port or none, and is the same otherwise. */
  predicate FormedAs(url: string, output: string, params: Parameters, typed: Option<string>, shown: bool)
  {
    && (typed.Some? ==> typed.value != "" && AllDigits(typed.value) && Value(typed.value) <= MAX_INT && shown)
    && url == params.prefix + params.host + ReadPort(typed) + params.path
    && output == params.prefix + params.host + PortText(shown, params.port) + params.path
    && (typed.Some? && Value(typed.value) % PORTS != 0 ==> params.port == Value(typed.value) % PORTS)
  }

  /**
   What is formed is the input, in new style, with at most its port text changed: the parts are a
   prefix or nothing, a host and a path or nothing, and the port is the typed one, or the
   configured one if none or zero was typed, or else the default.
   */
  lemma FormKeepsParts(input: string, config: Config)
    requires Form(input, config).Ok?
    ensures
      var (output, params) := Form(input, config).value;
      && (params.prefix == "" || IsPrefix(params.prefix))
      && (IsHost(Ipv6, params.host) || IsHost(Ipv4, params.host))
      && IsPath(params.path)
      && 0 < params.port < PORTS
      && exists typed, shown :: FormedAs(NewStyle(input), output, params, typed, shown)
  {
    hide Parse, Occurs, NewStyle, Value, Decimal;
    var url := NewStyle(input);
    var family, k, e := ParseFindsMatch(url);
    ParsedPort(url);
    MatchEndsWithHost(family, url, k, e);
    JoinsParts(url, k, e);
    var parts := Parse(url).value;
    var typed := if parts.port.Some? then Some(Value(parts.port.value)) else None;
    var secure := Occurs(SECURE_PREFIX, url);
    ShownPortStays(typed, Configured(config, secure), secure);
    var shown := EffectivePort(typed, Configured(config, secure), secure).1;
    assert Match(family, url, k, e);
    RestIsWhole(url[e..]);
    assert FormedAs(url, Form(input, config).value.0, Form(input, config).value.1, parts.port, shown);
  }

  // ----- which port, and when there is none ----------------------------------------------

  /** Neither expression matches the text in any way. */
  ghost predicate Unmatched(s: string)
  {
    forall family: Family, k: nat, e: nat :: !Match(family, s, k, e)
  }

  /** The match that the search prefers: the IPv6 expression's, or else the other one's; there may be none. */
  lemma ParseExactly(s: string, family: Family, k: nat, e: nat)
    ensures Greediest(Ipv6, s, k, e) ==> k <= e <= |s| && Parse(s) == Some(PartsAt(s, k, e))
    ensures Greediest(Ipv4, s, k, e) && (forall i: nat, j: nat :: !Match(Ipv6, s, i, j)) ==>
              k <= e <= |s| && Parse(s) == Some(PartsAt(s, k, e))
    ensures Parse(s).None? ==> !Match(family, s, k, e)
    ensures Unmatched(s) ==> Parse(s).None?
  {
    hide Match, LongestMatch, PartsAt, ParseRest;
    SearchIsGreedy(Ipv6, s);
    SearchIsGreedy(Ipv4, s);
    var v6, v4 := LongestMatch(Ipv6, s, |s|), LongestMatch(Ipv4, s, |s|);
    if Greediest(Ipv6, s, k, e) {
      GreediestUnique(Ipv6, s, k, e, v6.value.0, v6.value.1);
    } else if Greediest(Ipv4, s, k, e) && forall i: nat, j: nat :: !Match(Ipv6, s, i, j) {
      GreediestUnique(Ipv4, s, k, e, v4.value.0, v4.value.1);
    }
  }

  /** The port that the configuration holds for the kind of connection, cut to 16 bits; zero if there is none. */
  function ConfiguredPort(config: Config, secure: bool): int
  {
    match if secure then config.securePort else config.port
    case Some(p) => p % 65536
    case None => 0
  }

  /**
   The port is the typed one unless that is missing or zero, then the one configured for the kind of
   connection unless that is missing or zero, and then 7414, or 7415 for a secure connection. It is
   shown if one was typed, or if one is configured that is not the usual one.
   */
  lemma PortChosen(input: string, config: Config)
    requires Form(input, config).Ok?
    ensures Parse(NewStyle(input)).Some?
    ensures
      var (output, params) := Form(input, config).value;
      var typed := Parse(NewStyle(input)).value.port;
      var secure := Occurs("daq.lts://", NewStyle(input));
      var usual := if secure then 7415 else 7414;
      var configured := ConfiguredPort(config, secure);
      && (typed.Some? ==> AllDigits(typed.value))
      && params.port == (
           if typed.Some? && Value(typed.value) % 65536 != 0 then Value(typed.value) % 65536
           else if configured != 0 then configured
           else usual)
      && var shown := typed.Some? || ((if secure then config.securePort else config.port).Some? && configured != usual);
      output == params.prefix + params.host + (if shown then ":" + Decimal(params.port) else "") + params.path
  {
    hide Parse, Occurs, NewStyle, Value, Decimal;
    ParsedPort(NewStyle(input));
  }

  /** There is no canonical string exactly for text that neither expression matches, or with a port beyond 32 bits. */
  lemma FormFailsExactly(input: string, config: Config)
    ensures
      var url := NewStyle(input);
      && (Form(input, config) == Err(Unparsable) <==> Unmatched(url))
      && (Form(input, config) == Err(PortOverflow) <==>
            && Parse(url).Some? && Parse(url).value.port.Some?
            && AllDigits(Parse(url).value.port.value) && Value(Parse(url).value.port.value) > 2147483647)
  {
    hide Match, Parse, NewStyle, Value, Occurs, Decimal;
    var url := NewStyle(input);
    ParsedPort(url);
    ParseExactly(url, Ipv6, 0, 0);
    forall family: Family, k: nat, e: nat
      ensures Parse(url).None? ==> !Match(family, url, k, e)
    {
      ParseExactly(url, family, k, e);
    }
  }

  /** The replacement puts the new prefix for the first old one and goes on behind it. */
  lemma {:induction false} FirstReplaced(before: string, after: string)
    requires forall i :: 0 <= i < |before| ==> !At("daq.ws://", before + "daq.ws://" + after, i)
    ensures NewStyle(before + "daq.ws://" + after) == before + "daq.lt://" + NewStyle(after)
    decreases |before|
  {
    var s := before + "daq.ws://" + after;
    if before == "" {
      assert s[|OLD_PREFIX|..] == after;
    } else {
      var rest := before[1..] + "daq.ws://" + after;
      assert s[1..] == rest && s[0] == before[0];
      assert !(OLD_PREFIX <= s) by {
        assert !At("daq.ws://", s, 0);
      }
      forall i | 0 <= i < |before[1..]|
        ensures !At("daq.ws://", rest, i)
      {
        assert !At("daq.ws://", s, i + 1);
        assert i + 1 + 9 <= |s| ==> s[i + 1..i + 1 + 9] == rest[i..i + 9];
      }
      FirstReplaced(before[1..], after);
      assert before == [before[0]] + before[1..];
    }
  }

  // ----- reading back a string made from an address --------------------------------------

  function Scheme(secure: bool): string
  {
    if secure then SECURE_PREFIX else PREFIX
  }

  /** What follows the scheme of a string made from an address. */
  function Address(host: string, port: nat, path: string): string
  {
    host + PortText(true, port) + path
  }

  /** The string made for a discovered address. */
  function CreateUrl(secure: bool, host: string, port: nat, path: string): string
  {
    Scheme(secure) + Address(host, port, path)
  }

  /** A string made for an address starts with the prefix of its kind and the host. */
  lemma UrlBegins(secure: bool, host: string, port: nat, path: string)
    ensures (if secure then "daq.lts://" else "daq.lt://") + host <= CreateUrl(secure, host, port, path)
  {
  }

  /** From `i` to `e` the text can be read as a host, and the rest as port and path. */
  predicate ReadsAt(family: Family, text: string, i: nat, e: nat)
  {
    i <= e <= |text| && IsHost(family, text[i..e]) && ParseRest(text[e..]).Some?
  }

  /** Does "://" end at `i`? */
  predicate Behind(text: string, i: nat)
  {
    3 <= i <= |text| && text[i - 3..i] == "://"
  }

  /** Somewhere in the text is a "://" with something behind it that can be read as host, port and path. */
  predicate Misleading(family: Family, text: string)
  {
    exists i, e :: 0 <= i <= |text| && 0 <= e <= |text| && Behind(text, i) && ReadsAt(family, text, i, e)
  }

  /** The text can be read as one that starts with a longer IPv6 host. */
  predicate Overreaches(host: string, text: string)
  {
    exists e :: |host| < e <= |text| && ReadsAt(Ipv6, text, 0, e)
  }

  /** The address can only be read as it is meant. */
  predicate Unmistakable(host: string, address: string)
  {
    && !Misleading(Ipv6, address)
    && !Overreaches(host, address)
    && (IsHost(Ipv6, host) || !Misleading(Ipv4, address))
  }

  lemma SchemeIsPrefix(secure: bool)
    ensures IsPrefix(Scheme(secure)) && Scheme(secure)[0] == 'd'
    ensures forall i :: 0 <= i < |Scheme(secure)| && Scheme(secure)[i] == ':' ==> i == |Scheme(secure)| - 3
  {
  }

  lemma EndOf(before: string, right: string, i: nat)
    requires |before| <= i <= |before + right|
    ensures (before + right)[i..] == right[i - |before|..]
  {
  }

  /** Every way to match a string with a scheme is a way to read what follows the scheme, or has no prefix. */
  lemma MatchReads(secure: bool, text: string, family: Family, k: nat, e: nat)
    requires Match(family, Scheme(secure) + text, k, e)
    ensures
      var n := |Scheme(secure)|;
      || (k == 0 && family == Ipv4)
      || (k >= n && e >= n && (k == n || Behind(text, k - n)) && ReadsAt(family, text, k - n, e - n))
  {
    hide ParseRest, IsPrefix, Scheme;
    var scheme := Scheme(secure);
    var s, n := scheme + text, |scheme|;
    SchemeIsPrefix(secure);
    SchemeLength(secure);
    if k == 0 {
      DStartsNoLiteral(s, family, e);
    } else {
      hide IsHost;
      PrefixPastScheme(secure, text, k);
      SliceOfEnd(scheme, text, k, e - k);
      EndOf(scheme, text, e);
    }
  }

  lemma DStartsNoLiteral(s: string, family: Family, e: nat)
    requires s != "" && s[0] == 'd' && e <= |s| && IsHost(family, s[0..e])
    ensures family == Ipv4
  {
    assert s[0..e][0] == s[0];
  }

  lemma PrefixPastScheme(secure: bool, text: string, k: nat)
    requires 0 < k <= |Scheme(secure) + text| && IsPrefix((Scheme(secure) + text)[..k])
    ensures k == |Scheme(secure)| || (k > |Scheme(secure)| && Behind(text, k - |Scheme(secure)|))
  {
    var scheme := Scheme(secure);
    var s, n := scheme + text, |scheme|;
    SchemeIsPrefix(secure);
    assert s[..k][k - 3..] == s[k - 3..k];
    assert s[k - 3] == s[k - 3..k][0] && s[k - 2] == s[k - 3..k][1];
    assert forall i :: 0 <= i < n ==> s[i] == scheme[i];
    assert scheme[n - 2] == '/' && scheme[n - 1] == '/';
    if k >= n + 3 {
      SliceOfEnd(scheme, text, k - 3, 3);
    }
  }

  /** Every way to read what follows the scheme is a way to match. */
  lemma ReadsMatch(secure: bool, text: string, family: Family, i: nat, e: nat)
    requires ReadsAt(family, text, i, e) && (i == 0 || Behind(text, i)) && OneLine(Scheme(secure) + text)
    ensures Match(family, Scheme(secure) + text, |Scheme(secure)| + i, |Scheme(secure)| + e)
  {
    var scheme := Scheme(secure);
    var s, n := scheme + text, |scheme|;
    SchemeIsPrefix(secure);
    hide IsHost, ParseRest, Scheme;
    SliceOfEnd(scheme, text, n + i, e - i);
    EndOf(scheme, text, n + e);
    if i == 0 {
      assert s[..n] == scheme;
    } else {
      SliceOfEnd(scheme, text, n + i - 3, 3);
      assert s[..n + i][n + i - 3..] == s[n + i - 3..n + i];
    }
  }

  lemma HostText(family: Family, host: string)
    requires IsHost(family, host)
    ensures host != "" && OneLine(host) && host[|host| - 1] != ':' && host[|host| - 1] != '/'
    ensures NoPortAtEnd(host)
  {
    HostIsOneLine(family, host);
    forall i | 0 <= i < |host| && host[i] == ':'
      ensures !AllDigits(host[i + 1..])
    {
      assert host[i + 1..][|host| - i - 2] == host[|host| - 1];
    }
  }

  lemma HostIsOneLine(family: Family, host: string)
    requires IsHost(family, host)
    ensures OneLine(host)
  {
    if family == Ipv6 {
      var inner := host[1..|host| - 1];
      forall i | 0 <= i < |inner|
        ensures inner[i] != '\n' && inner[i] != '\r'
      {
        if !(forall j :: 0 <= j < |inner| ==> HexOrColon(inner[j])) {
          var p :| 0 < p < |inner| - 1 && ZoneAt(inner, p);
          assert i < p ==> HexOrColon(inner[i]);
          assert i > p ==> ZoneChar(inner[i]);
        }
      }
      assert forall i :: 0 < i < |host| - 1 ==> host[i] == inner[i - 1];
    }
  }

  /** The address can be read as it is meant. */
  lemma AddressReads(family: Family, host: string, port: nat, path: string)
    requires IsHost(family, host) && IsPath(path)
    ensures ReadsAt(family, Address(host, port, path), 0, |host|)
    ensures ParseRest(Address(host, port, path)[|host|..]) == Some(Rest(Some(Decimal(port)), path))
    ensures OneLine(Address(host, port, path))
  {
    var mid := PortText(true, port);
    HostText(family, host);
    hide IsHost, ParseRest, Decimal;
    assert mid[1..] == Decimal(port) && mid == [':'] + mid[1..];
    assert Address(host, port, path) == host + (mid + path);
    EndOf(host, mid + path, |host|);
    JoinedRest(host, mid, path);
    OneLineJoined(host, mid, path);
  }

  lemma UrlIsOneLine(secure: bool, address: string)
    requires OneLine(address)
    ensures OneLine(Scheme(secure) + address)
  {
    SchemeIsPrefix(secure);
    OneLineJoined(Scheme(secure), address, "");
    assert Scheme(secure) + address + "" == Scheme(secure) + address;
  }

  /** Reading stops before a host's own end only where the host itself ends. */
  lemma NoEarlierEnd(family: Family, host: string, port: nat, path: string, e: nat)
    requires IsHost(Ipv4, host) && !IsHost(Ipv6, host) && e <= |host|
    ensures !ReadsAt(Ipv6, Address(host, port, path), 0, e)
  {
    var address := Address(host, port, path);
    assert address[0..|host|] == host;
    if e < |host| {
      assert address[e..][0] == host[e];
    }
  }

  lemma NoLaterEnd(host: string, port: nat, path: string, e: nat)
    requires IsHost(Ipv4, host) && |host| < e
    ensures !ReadsAt(Ipv4, Address(host, port, path), 0, e)
  {
    var address := Address(host, port, path);
    if e <= |address| {
      assert address[0..e][|host|] == address[|host|] == ':';
    }
  }

  /** An unmistakable address leaves no other way to match than to read the host that is meant, or less of it. */
  lemma OnlyAsMeant(secure: bool, family: Family, host: string, port: nat, path: string, other: Family, k: nat, e: nat)
    requires IsHost(family, host) && (family == Ipv4 ==> !IsHost(Ipv6, host))
    requires Unmistakable(host, Address(host, port, path))
    requires (other == family || other == Ipv6) && Match(other, CreateUrl(secure, host, port, path), k, e)
    ensures
      var n := |Scheme(secure)|;
      (k == 0 && other == Ipv4) || (k == n && other == family && e <= n + |host|)
  {
    hide Match, ParseRest, Scheme, ReadsAt, Behind;
    var address, n := Address(host, port, path), |Scheme(secure)|;
    MatchReads(secure, address, other, k, e);
    if !(k == 0 && other == Ipv4) {
      ReadsWithin(other, address, k - n, e - n);
      if k == n && other == Ipv6 && family == Ipv4 {
        NotReadAsIpv6(host, port, path, e - n);
      } else if k == n && other == Ipv4 && e > n + |host| {
        NoLaterEnd(host, port, path, e - n);
      }
    }
  }

  lemma ReadsWithin(family: Family, text: string, i: nat, e: nat)
    requires ReadsAt(family, text, i, e)
    ensures i <= e <= |text|
  {
  }

  lemma NotReadAsIpv6(host: string, port: nat, path: string, e: nat)
    requires IsHost(Ipv4, host) && !IsHost(Ipv6, host) && !Overreaches(host, Address(host, port, path))
    ensures !ReadsAt(Ipv6, Address(host, port, path), 0, e)
  {
    if e <= |host| {
      NoEarlierEnd(Ipv4, host, port, path, e);
    } else {
      hide IsHost, ParseRest, Address;
    }
  }

  lemma UnmistakableParsed(secure: bool, family: Family, host: string, port: nat, path: string)
    requires IsHost(family, host) && IsPath(path) && (family == Ipv4 ==> !IsHost(Ipv6, host))
    requires Unmistakable(host, Address(host, port, path))
    ensures Parse(CreateUrl(secure, host, port, path)) == Some(Parts(Scheme(secure), host, Some(Decimal(port)), path))
  {
    hide IsHost, Match, ParseRest, Scheme, Parse, IsPath, Decimal, OneLine, Unmistakable, Address;
    var address := Address(host, port, path);
    var url, k := CreateUrl(secure, host, port, path), |Scheme(secure)|;
    AddressReads(family, host, port, path);
    UrlIsOneLine(secure, address);
    ReadsMatch(secure, address, family, 0, |host|);
    SchemeLength(secure);
    forall other: Family, k2: nat, e2: nat | (other == family || other == Ipv6) && Match(other, url, k2, e2)
      ensures other == family && (k2 < k || (k2 == k && e2 <= k + |host|))
    {
      OnlyAsMeant(secure, family, host, port, path, other, k2, e2);
    }
    MatchBounds(family, url, k, k + |host|);
    MatchIsParsed(url, family, k, k + |host|);
    UrlParts(secure, host, port, path);
  }

  lemma SchemeLength(secure: bool)
    ensures |Scheme(secure)| > 0
  {
  }

  lemma UrlParts(secure: bool, host: string, port: nat, path: string)
    ensures
      var url, k := CreateUrl(secure, host, port, path), |Scheme(secure)|;
      && k + |host| <= |url| && url[..k] == Scheme(secure) && url[k..k + |host|] == host
      && url[k + |host|..] == Address(host, port, path)[|host|..]
  {
    hide Scheme, Decimal;
    var scheme, address := Scheme(secure), Address(host, port, path);
    SliceOfEnd(scheme, address, |scheme|, |host|);
    EndOf(scheme, address, |scheme| + |host|);
    assert address == host + (PortText(true, port) + path);
  }

  /** A parse that gives scheme and host back has found the address to be unmistakable. */
  lemma ParsedUnmistakable(secure: bool, host: string, port: nat, path: string)
    requires (IsHost(Ipv6, host) || IsHost(Ipv4, host)) && IsPath(path)
    requires
      var parsed := Parse(CreateUrl(secure, host, port, path));
      parsed.Some? && parsed.value.prefix == Scheme(secure) && parsed.value.host == host
    ensures Unmistakable(host, Address(host, port, path))
  {
    var address := Address(host, port, path);
    var url, n := CreateUrl(secure, host, port, path), |Scheme(secure)|;
    AddressReads(if IsHost(Ipv6, host) then Ipv6 else Ipv4, host, port, path);
    UrlIsOneLine(secure, address);
    var family, k, e := ParseFindsMatch(url);
    hide IsHost, Match, ParseRest, Address, Scheme, Parse, IsPath, OneLine;
    assert k == |url[..k]| == n && e - k == |url[k..e]| == |host|;
    FoundHost(url, family, k, e);
    if Misleading(Ipv6, address) {
      var k2, e2 := MisleadingMatches(secure, address, Ipv6);
    }
    if Overreaches(host, address) {
      var e2 :| |host| < e2 <= |address| && ReadsAt(Ipv6, address, 0, e2);
      ReadsMatch(secure, address, Ipv6, 0, e2);
    }
    if !IsHost(Ipv6, host) && Misleading(Ipv4, address) {
      var k2, e2 := MisleadingMatches(secure, address, Ipv4);
    }
  }

  lemma FoundHost(url: string, family: Family, k: nat, e: nat)
    requires k <= e <= |url| && Greediest(family, url, k, e)
    ensures IsHost(family, url[k..e])
  {
  }

  lemma MisleadingMatches(secure: bool, text: string, family: Family) returns (k: nat, e: nat)
    requires Misleading(family, text) && OneLine(Scheme(secure) + text)
    ensures k > |Scheme(secure)| && Match(family, Scheme(secure) + text, k, e)
  {
    hide ReadsAt, Match, Scheme, OneLine;
    var i, end :| 0 <= i <= |text| && 0 <= end <= |text| && Behind(text, i) && ReadsAt(family, text, i, end);
    ReadsMatch(secure, text, family, i, end);
    k, e := |Scheme(secure)| + i, |Scheme(secure)| + end;
  }

  /** What was formed is the input with some port text, or none, in the place of its port. */
  lemma FormedWith(input: string, config: Config) returns (other: string)
    requires Form(input, config).Ok?
    ensures other == "" || IsPortText(other)
    ensures
      var params := Form(input, config).value.1;
      NewStyle(input) == params.prefix + params.host + other + params.path
  {
    FormKeepsParts(input, config);
    hide Form, NewStyle, IsHost, IsPath, IsPrefix, FormedAs, ReadPort, IsPortText;
    var output, params := Form(input, config).value.0, Form(input, config).value.1;
    var typed, shown :| FormedAs(NewStyle(input), output, params, typed, shown);
    FormedAsText(NewStyle(input), output, params, typed, shown);
    other := ReadPort(typed);
  }

  lemma FormedAsText(url: string, output: string, params: Parameters, typed: Option<string>, shown: bool)
    requires FormedAs(url, output, params, typed, shown)
    ensures url == params.prefix + params.host + ReadPort(typed) + params.path
    ensures ReadPort(typed) == "" || IsPortText(ReadPort(typed))
  {
    hide Value, Decimal;
    assert typed.Some? ==> ReadPort(typed)[1..] == typed.value;
  }

  /** A formed string that has the parts of the created one has no old prefix in it. */
  lemma OldPrefixNotKept(secure: bool, host: string, port: nat, path: string, config: Config)
    requires (IsHost(Ipv6, host) || IsHost(Ipv4, host)) && IsPath(path)
    requires Form(CreateUrl(secure, host, port, path), config).Ok?
    requires
      var params := Form(CreateUrl(secure, host, port, path), config).value.1;
      params.prefix == Scheme(secure) && params.host == host && params.path == path
    ensures !Occurs(OLD_PREFIX, CreateUrl(secure, host, port, path))
  {
    hide Form, NewStyle, IsHost, IsPath, IsPortText, HostLast, SchemeLike, Occurs, Scheme, Decimal, Address;
    var url := CreateUrl(secure, host, port, path);
    var left, mid := Scheme(secure) + host, PortText(true, port);
    var other := FormedWith(url, config);
    UrlJoined(secure, host, port, path);
    UrlIs(secure, host, port, path);
    NoOldPrefix(url);
    OldPrefixMoves(left, mid, other, path);
  }

  lemma UrlIs(secure: bool, host: string, port: nat, path: string)
    ensures CreateUrl(secure, host, port, path) == Scheme(secure) + host + PortText(true, port) + path
  {
    hide Scheme, Decimal;
  }

  lemma OldPrefixMoves(left: string, mid: string, other: string, right: string)
    requires Joined(left, mid, right) && Joined(left, other, right) && !Occurs(OLD_PREFIX, left + other + right)
    ensures !Occurs(OLD_PREFIX, left + mid + right)
  {
    assert SchemeLike(OLD_PREFIX);
    hide Joined, SchemeLike, Occurs;
    OccursMoves(OLD_PREFIX, left, mid, other, right);
  }

  lemma UrlJoined(secure: bool, host: string, port: nat, path: string)
    requires (IsHost(Ipv6, host) || IsHost(Ipv4, host)) && IsPath(path)
    ensures Joined(Scheme(secure) + host, PortText(true, port), path)
  {
    hide IsHost, ParseRest, Scheme, Decimal, HostLast, Match, Address, OneLine;
    var family := if IsHost(Ipv6, host) then Ipv6 else Ipv4;
    var n := |Scheme(secure)|;
    AddressReads(family, host, port, path);
    UrlIsOneLine(secure, Address(host, port, path));
    ReadsMatch(secure, Address(host, port, path), family, 0, |host|);
    MatchEndsWithHost(family, CreateUrl(secure, host, port, path), n, n + |host|);
    UrlStart(secure, host, port, path);
    assert PortText(true, port)[1..] == Decimal(port);
  }

  lemma UrlStart(secure: bool, host: string, port: nat, path: string)
    ensures
      var url, n := CreateUrl(secure, host, port, path), |Scheme(secure)|;
      n + |host| <= |url| && url[..n + |host|] == Scheme(secure) + host
  {
    hide Scheme, Decimal;
    UrlIs(secure, host, port, path);
    assert Scheme(secure) + host + PortText(true, port) + path == (Scheme(secure) + host) + (PortText(true, port) + path);
  }

  /** When does the string made from these parts stand for them? */
  predicate Readable(secure: bool, host: string, port: nat, path: string)
  {
    && (IsHost(Ipv6, host) || IsHost(Ipv4, host)) && IsPath(path) && 0 < port < PORTS
    && Unmistakable(host, Address(host, port, path))
    && !Occurs(OLD_PREFIX, CreateUrl(secure, host, port, path))
  }

  /**
   A string made from a host, a port and a path is canonical and gives all three back if and only
   if they are a host, a port that is not zero, and a path, no old prefix occurs in it, and the
   address can only be read as it is meant.
   */
  lemma UrlReadBackExactly(secure: bool, host: string, port: nat, path: string, config: Config)
    ensures
      var url := CreateUrl(secure, host, port, path);
      Form(url, config) == Ok((url, Parameters(Scheme(secure), host, port, path))) <==> Readable(secure, host, port, path)
  {
    var url := CreateUrl(secure, host, port, path);
    if Form(url, config) == Ok((url, Parameters(Scheme(secure), host, port, path))) {
      FormKeepsParts(url, config);
      OldPrefixNotKept(secure, host, port, path, config);
      NewStyleKeeps(url);
      ParsedAsFormed(url, config);
      ParsedUnmistakable(secure, host, port, path);
    }
    if Readable(secure, host, port, path) {
      NewStyleKeeps(url);
      ReadableFormed(secure, host, port, path, config);
    }
  }

  lemma ParsedAsFormed(url: string, config: Config)
    requires NewStyle(url) == url && Form(url, config).Ok?
    ensures Parse(url).Some?
    ensures Parse(url).value.prefix == Form(url, config).value.1.prefix && Parse(url).value.host == Form(url, config).value.1.host
  {
    hide Parse, Occurs, NewStyle, Value, Decimal, EffectivePort;
  }

  lemma ReadableFormed(secure: bool, host: string, port: nat, path: string, config: Config)
    requires Readable(secure, host, port, path) && NewStyle(CreateUrl(secure, host, port, path)) == CreateUrl(secure, host, port, path)
    ensures
      var url := CreateUrl(secure, host, port, path);
      Form(url, config) == Ok((url, Parameters(Scheme(secure), host, port, path)))
  {
    var url := CreateUrl(secure, host, port, path);
    var secured := Occurs(SECURE_PREFIX, url);
    hide Parse, Occurs, NewStyle, IsHost, IsPath, Unmistakable, Decimal, Value, EffectivePort, Scheme;
    UnmistakableParsed(secure, if IsHost(Ipv6, host) then Ipv6 else Ipv4, host, port, path);
    ParsedPort(url);
    DecimalValue(port);
    TypedPortStays(port, Configured(config, secured), secured);
    assert url == Scheme(secure) + host + PortText(true, port) + path;
  }

  lemma TypedPortStays(port: nat, configured: Option<int>, secure: bool)
    requires 0 < port < PORTS
    ensures EffectivePort(Some(port), configured, secure) == (port, true)
  {
  }

  // ----- hosts without a slash -----------------------------------------------------------
  // For these the path alone decides whether the address is unmistakable.

  predicate SlashFree(host: string)
  {
    forall i :: 0 <= i < |host| ==> host[i] != '/'
  }

  predicate HasZone(host: string)
  {
    exists i :: 0 <= i < |host| && host[i] == '%'
  }

  /** A zone id before the path can be read on into the path, up to a ']' there. */
  predicate Reached(path: string)
  {
    exists j :: 0 < j <= |path| && EndsZone(path, j)
  }

  predicate EndsZone(path: string, j: nat)
    requires 0 < j <= |path|
  {
    path[j - 1] == ']' && (forall i :: 0 <= i < j ==> ZoneChar(path[i])) && ParseRest(path[j..]).Some?
  }

  predicate PathIsPlain(host: string, path: string)
  {
    && !Misleading(Ipv6, path)
    && (IsHost(Ipv6, host) || !Misleading(Ipv4, path))
    && (IsHost(Ipv6, host) && HasZone(host) ==> !Reached(path))
  }

  /** A "://" of the address that is not in the host is in the path. */
  lemma BehindPlace(host: string, mid: string, path: string, i: nat)
    requires SlashFree(host) && IsPortText(mid)
    ensures Behind(host + mid + path, i) <==> i >= |host| + |mid| + 3 && Behind(path, i - |host| - |mid|)
  {
    var s, n := host + mid + path, |host| + |mid|;
    PortChars(host, mid, path);
    assert s[n - 1] == mid[|mid| - 1] == mid[1..][|mid| - 2];
    assert forall j :: 0 <= j < |host| ==> s[j] == host[j];
    if 3 <= i <= |s| {
      assert s[i - 3] == s[i - 3..i][0] && s[i - 2] == s[i - 3..i][1];
      if i >= n + 3 {
        SliceOfEnd(host + mid, path, i - 3, 3);
      }
    }
  }

  lemma MisleadingInPath(family: Family, host: string, mid: string, path: string)
    requires SlashFree(host) && IsPortText(mid)
    ensures Misleading(family, host + mid + path) <==> Misleading(family, path)
  {
    var s, n := host + mid + path, |host| + |mid|;
    hide IsHost, ParseRest, Behind, SlashFree, IsPortText;
    if Misleading(family, s) {
      var i, e :| 0 <= i <= |s| && 0 <= e <= |s| && Behind(s, i) && ReadsAt(family, s, i, e);
      BehindPlace(host, mid, path, i);
      SliceOfEnd(host + mid, path, i, e - i);
      EndOf(host + mid, path, e);
      assert ReadsAt(family, path, i - n, e - n);
    }
    if Misleading(family, path) {
      var i, e :| 0 <= i <= |path| && 0 <= e <= |path| && Behind(path, i) && ReadsAt(family, path, i, e);
      BehindStarts(path, i);
      BehindPlace(host, mid, path, i + n);
      SliceOfEnd(host + mid, path, i + n, e - i);
      EndOf(host + mid, path, e + n);
      assert ReadsAt(family, s, i + n, e + n);
    }
  }

  lemma BehindStarts(text: string, i: nat)
    requires Behind(text, i)
    ensures i >= 3
  {
  }

  /** Where the '%' of a literal is. */
  lemma ZoneOf(host: string) returns (p: nat)
    requires IsHost(Ipv6, host) && HasZone(host)
    ensures 0 < p < |host| - 3 && ZoneAt(host[1..|host| - 1], p)
  {
    var inner := host[1..|host| - 1];
    var i :| 0 <= i < |host| && host[i] == '%';
    assert inner[i - 1] == '%';
    p :| 0 < p < |inner| - 1 && ZoneAt(inner, p);
  }

  /** An IPv6 literal with a zone id can be read as longer exactly up to a ']' that only zone characters lead to. */
  lemma ZoneReaches(host: string, mid: string, r: string)
    requires IsHost(Ipv6, host) && HasZone(host) && IsPortText(mid) && r != ""
    ensures IsHost(Ipv6, host + mid + r) <==> r[|r| - 1] == ']' && forall i :: 0 <= i < |r| ==> ZoneChar(r[i])
  {
    var h := host + mid + r;
    var inner, inner0 := h[1..|h| - 1], host[1..|host| - 1];
    var p := ZoneOf(host);
    assert forall i :: 0 <= i < |inner0| ==> inner[i] == inner0[i];
    assert inner[|inner0|] == h[|host| - 1] == ']';
    PortChars(host, mid, r);
    assert forall i :: |host| - 1 <= i < |host| - 1 + |mid| ==> inner[i] == h[i + 1];
    assert forall i :: |host| - 1 + |mid| <= i < |inner| ==> inner[i] == r[i - (|host| - 1 + |mid|)];
    assert h[|h| - 1] == r[|r| - 1];
    if r[|r| - 1] == ']' {
      if forall i :: 0 <= i < |r| ==> ZoneChar(r[i]) {
        assert ZoneAt(inner, p);
      } else {
        var i :| 0 <= i < |r| && !ZoneChar(r[i]);
        assert !ZoneChar(inner[i + (|host| - 1 + |mid|)]) || i == |r| - 1;
        assert forall q :: 0 < q < |inner| - 1 && ZoneAt(inner, q) ==> q == p;
      }
    }
  }

  lemma ZoneReadIsReached(host: string, mid: string, path: string, j: nat)
    requires IsHost(Ipv6, host) && HasZone(host) && IsPortText(mid) && 0 < j <= |path|
    ensures ReadsAt(Ipv6, host + mid + path, 0, |host| + |mid| + j) <==> EndsZone(path, j)
  {
    hide IsHost, ParseRest, HasZone, IsPortText;
    var s, e := host + mid + path, |host| + |mid| + j;
    ZoneReaches(host, mid, path[..j]);
    EndOf(host + mid, path, e);
    assert s[0..e] == host + mid + path[..j];
    assert forall i :: 0 <= i < j ==> path[i] == path[..j][i];
  }

  lemma OverreachesThroughZone(host: string, mid: string, path: string)
    requires IsHost(Ipv6, host) && HasZone(host) && IsPortText(mid)
    ensures Overreaches(host, host + mid + path) <==> Reached(path)
  {
    hide IsHost, ReadsAt, EndsZone, HasZone, IsPortText;
    var s, n := host + mid + path, |host| + |mid|;
    if Overreaches(host, s) {
      var e :| |host| < e <= |s| && ReadsAt(Ipv6, s, 0, e);
      ReadPastPort(host, mid, path, e);
      ZoneReadIsReached(host, mid, path, e - n);
    }
    if Reached(path) {
      var j :| 0 < j <= |path| && EndsZone(path, j);
      ZoneReadIsReached(host, mid, path, j);
      assert ReadsAt(Ipv6, s, 0, n + j);
    }
  }

  lemma ReadPastPort(host: string, mid: string, path: string, e: nat)
    requires IsPortText(mid) && |host| < e && ReadsAt(Ipv6, host + mid + path, 0, e)
    ensures e > |host| + |mid|
  {
    PortChars(host, mid, path);
    assert (host + mid + path)[0..e][e - 1] == (host + mid + path)[e - 1];
  }

  /** An IPv6 literal without a zone id cannot be read as longer than it is. */
  lemma LiteralEnds(host: string, more: string)
    requires IsHost(Ipv6, host) && !HasZone(host) && more != ""
    ensures !IsHost(Ipv6, host + more)
  {
    var h := host + more;
    var inner := h[1..|h| - 1];
    assert inner[|host| - 2] == h[|host| - 1] == ']';
    forall p | 0 < p < |inner| - 1
      ensures !ZoneAt(inner, p)
    {
      assert p < |host| - 2 ==> inner[p] == host[p + 1];
    }
  }

  lemma NoOverreach(host: string, text: string)
    requires |host| <= |text| && text[..|host|] == host && host != ""
    requires (IsHost(Ipv6, host) && !HasZone(host)) || host[0] != '['
    ensures !Overreaches(host, text)
  {
    forall e | |host| < e <= |text|
      ensures !IsHost(Ipv6, text[0..e])
    {
      assert text[0..e] == host + text[|host|..e];
      if host[0] == '[' {
        LiteralEnds(host, text[|host|..e]);
      }
    }
  }

  /**
   With a host without a slash, that starts with '[' only as an IPv6 literal, an address can only be
   read as it is meant if and only if the path holds nothing that can be taken for another host, nor,
   after a zone id, for more of this one.
   */
  lemma PathDecides(host: string, port: nat, path: string)
    requires (IsHost(Ipv6, host) || (IsHost(Ipv4, host) && host[0] != '[')) && SlashFree(host)
    ensures Unmistakable(host, Address(host, port, path)) <==> PathIsPlain(host, path)
  {
    var mid := PortText(true, port);
    assert mid[1..] == Decimal(port);
    assert host != "";
    assert Address(host, port, path)[..|host|] == host;
    hide ParseRest, Misleading, Overreaches, Reached, Decimal;
    MisleadingInPath(Ipv6, host, mid, path);
    MisleadingInPath(Ipv4, host, mid, path);
    if IsHost(Ipv6, host) && HasZone(host) {
      OverreachesThroughZone(host, mid, path);
    } else {
      NoOverreach(host, Address(host, port, path));
    }
  }

  lemma HoldsHost()
    ensures IsPath("/a://b") && IsHost(Ipv4, "h") && !PathIsPlain("h", "/a://b")
  {
    var path := "/a://b";
    assert path[2..5] == "://" && path[5..6] == "b" && path[6..] == "";
    assert ReadsAt(Ipv4, path, 5, 6);
  }

  /** A path that leads to another host being read back, whatever the scheme and the port. */
  lemma PathWithHost(secure: bool, port: nat)
    ensures IsPath("/a://b") && IsHost(Ipv4, "h") && !Readable(secure, "h", port, "/a://b")
  {
    HoldsHost();
    hide PathIsPlain, Unmistakable, CreateUrl, Address;
    PathDecides("h", port, "/a://b");
  }

  /** A path that lengthens a zone id. */
  lemma PathInZone(secure: bool, port: nat)
    ensures IsPath("/]") && IsHost(Ipv6, "[fe80::1%a]") && !Readable(secure, "[fe80::1%a]", port, "/]")
  {
    var host, path := "[fe80::1%a]", "/]";
    ZoneLiteral(host);
    hide Decimal;
    PathDecides(host, port, path);
    assert path[2..] == "";
    assert EndsZone(path, 2);
  }

  lemma ZoneLiteral(host: string)
    requires host == "[fe80::1%a]"
    ensures IsHost(Ipv6, host) && HasZone(host)
  {
    assert host[8] == '%';
    var inner := host[1..|host| - 1];
    assert inner == "fe80::1%a";
    assert ZoneAt(inner, 7);
  }
}
