/**
 The Gate 0 replay compiler: a locked execution is made independent of the checkout
 location and printed as one POSIX shell command line.
 */
module Replay {
  import opened Common
  import opened NodePath
  import Shell = PosixShell

  /** A locked execution. The overrides are the entries of a JavaScript object, in order. */
  datatype Execution = Execution(
    cwd: string,
    executable: string,
    argv: seq<string>,
    inheritedKeys: seq<string>,
    overrides: seq<(string, string)>)

  datatype Failure =
    | RootNotAbsolute
    | CwdIsNotRoot
    | OutsideRepository(value: string)
    | EmbedsRoot(value: string)
    | UnsafeKey(key: string)
    | UnsafeOverrideKey(key: string)

  // ---- the compiler ----

  function PortableValue(value: string, root: string): Result<string, Failure>
  {
    if value == root then Ok("$PWD")
    else if IsAbsolute(value) then
      if IsPathInside(root, value) then Ok("$PWD/" + Relative(root, value)) else Err(OutsideRepository(value))
    else if Includes(value, root) then Err(EmbedsRoot(value))
    else Ok(value)
  }

  function PortableValues(values: seq<string>, root: string): (r: Result<seq<string>, Failure>)
    ensures r.Ok? ==> |r.value| == |values|
    ensures r.Ok? ==> forall i :: 0 <= i < |values| ==> PortableValue(values[i], root) == Ok(r.value[i])
  {
    if values == [] then Ok([])
    else
      match PortableValue(values[0], root)
      case Err(e) => Err(e)
      case Ok(v) =>
        match PortableValues(values[1..], root)
        case Err(e) => Err(e)
        case Ok(rest) => Ok([v] + rest)
  }

  function Keys(entries: seq<(string, string)>): (r: seq<string>)
    ensures |r| == |entries|
  {
    Map((e: (string, string)) => e.0, entries)
  }

  function Values(entries: seq<(string, string)>): (r: seq<string>)
    ensures |r| == |entries|
  {
    Map((e: (string, string)) => e.1, entries)
  }

  function Zip(keys: seq<string>, values: seq<string>): (r: seq<(string, string)>)
    requires |keys| == |values|
    ensures |r| == |keys| && Keys(r) == keys && Values(r) == values
  {
    seq(|keys|, i requires 0 <= i < |keys| => (keys[i], values[i]))
  }

  /** `makePortableInvocation`: the result's working directory is always `$PWD`. */
  function MakePortable(e: Execution, root: string): Result<Execution, Failure>
  {
    if !IsAbsolute(root) then Err(RootNotAbsolute)
    else if e.cwd != root then Err(CwdIsNotRoot)
    else
      match PortableValues(e.argv, root)
      case Err(f) => Err(f)
      case Ok(argv) =>
        match PortableValues(Values(e.overrides), root)
        case Err(f) => Err(f)
        case Ok(values) =>
          Ok(Execution("$PWD", e.executable, argv, e.inheritedKeys, Zip(Keys(e.overrides), values)))
  }

  /** `String.prototype.replaceAll` for a one-character pattern. */
  function ReplaceAll(s: string, c: char, replacement: string): string
  {
    if s == "" then "" else (if s[0] == c then replacement else [s[0]]) + ReplaceAll(s[1..], c, replacement)
  }

  predicate PwdRelative(text: string) { text == "$PWD" || StartsWith(text, "$PWD/") }

  predicate BareChar(c: char)
  {
    || 'A' <= c <= 'Z' || 'a' <= c <= 'z' || '0' <= c <= '9' || c == '_' || c == '.' || c == '/'
    || c == ',' || c == ':' || c == '=' || c == '@' || c == '%' || c == '+' || c == '-'
  }

  predicate BareToken(text: string) { text != "" && forall i :: 0 <= i < |text| ==> BareChar(text[i]) }

  function EscapeDouble(text: string): string
  {
    ReplaceAll(ReplaceAll(text, '\\', "\\\\"), '\"', "\\\"")
  }

  function QuoteSingle(text: string): string
  {
    ReplaceAll(text, '\'', "'\"'\"'")
  }

  function ShellToken(text: string): string
  {
    if PwdRelative(text) then "\"${PWD}" + EscapeDouble(text[4..]) + "\""
    else if BareToken(text) then text
    else "'" + QuoteSingle(text) + "'"
  }

  /** The pattern for an inherited key: capitals, digits and underscores after a capital. */
  predicate InheritedKey(key: string)
  {
    && key != "" && 'A' <= key[0] <= 'Z'
    && forall c <- key :: 'A' <= c <= 'Z' || '0' <= c <= '9' || c == '_'
  }

  predicate OverrideKey(key: string)
  {
    key != "" && Shell.NameStart(key[0]) && forall c <- key :: Shell.NameChar(c)
  }

  function InheritedToken(key: string): string { key + "=\"${" + key + "-}\"" }

  function OverrideToken(entry: (string, string)): string { entry.0 + "=" + ShellToken(entry.1) }

  function JoinSpace(tokens: seq<string>): string
  {
    if tokens == [] then ""
    else if |tokens| == 1 then tokens[0]
    else tokens[0] + " " + JoinSpace(tokens[1..])
  }

  function Tokens(p: Execution): seq<string>
  {
    ["env", "-i"] + Map(InheritedToken, p.inheritedKeys) + Map(OverrideToken, p.overrides)
    + [ShellToken(p.executable)] + Map(ShellToken, p.argv)
  }

  function FirstRejected(accepts: string -> bool, keys: seq<string>): (r: Option<string>)
    ensures r.None? <==> forall key <- keys :: accepts(key)
    ensures r.Some? ==> r.value in keys && !accepts(r.value)
  {
    if keys == [] then None
    else if !accepts(keys[0]) then Some(keys[0])
    else FirstRejected(accepts, keys[1..])
  }

  /** `formatPortableInvocation`. */
  function FormatPortable(p: Execution): Result<string, Failure>
  {
    match FirstRejected(InheritedKey, p.inheritedKeys)
    case Some(key) => Err(UnsafeKey(key))
    case None =>
      match FirstRejected(OverrideKey, Keys(p.overrides))
      case Some(key) => Err(UnsafeOverrideKey(key))
      case None => Ok(JoinSpace(Tokens(p)))
  }

  // ---- what an execution means ----

  function InheritedEntry(key: string, host: Shell.Vars): (string, string)
  {
    (key, Shell.Lookup(host, key))
  }

  /** The entries that `environmentForExecution` assigns, in order. */
  function Assignments(e: Execution, host: Shell.Vars): seq<(string, string)>
  {
    Map(key => InheritedEntry(key, host), e.inheritedKeys) + e.overrides
  }

  function Assign(entries: seq<(string, string)>, environment: Shell.Vars): Shell.Vars
  {
    if entries == [] then environment
    else Assign(entries[1..], environment[entries[0].0 := entries[0].1])
  }

  /** `environmentForExecution`: the inherited keys first, then the overrides on top. */
  method EnvironmentForExecution(e: Execution, host: Shell.Vars) returns (environment: Shell.Vars)
    ensures environment == Assign(Assignments(e, host), map[])
  {
    environment := map[];
    ghost var inherited := Map(key => InheritedEntry(key, host), e.inheritedKeys);
    for i := 0 to |e.inheritedKeys|
      invariant Assign(inherited[i..] + e.overrides, environment) == Assign(Assignments(e, host), map[])
    {
      var key := e.inheritedKeys[i];
      assert (inherited[i..] + e.overrides)[1..] == inherited[i + 1..] + e.overrides;
      environment := environment[key := if key in host then host[key] else ""];
    }
    assert inherited[|inherited|..] + e.overrides == e.overrides;
    for i := 0 to |e.overrides|
      invariant Assign(e.overrides[i..], environment) == Assign(Assignments(e, host), map[])
    {
      environment := environment[e.overrides[i].0 := e.overrides[i].1];
    }
  }

  /** The process that the runner itself starts for this execution. */
  function Intended(e: Execution, host: Shell.Vars): Shell.Process
  {
    Shell.Process(e.executable, e.argv, Assign(Assignments(e, host), map[]))
  }
}
